/**
 * The desktop: the list of open windows with a per-item instance counter,
 * the handlers that open and close windows, the delayed opening -> open
 * flip, and the props each open window is rendered with.
 */
module Desktop {
  import opened Types
  import opened Text
  import opened WindowList
  import opened WindowComponent

  /** The z-index of the window at list position 0. */
  const FirstZIndex := 100

  /** How many times `id` occurs in `ids`. */
  function Count(ids: seq<string>, id: string): nat
  {
    if ids == [] then 0
    else Count(ids[..|ids| - 1], id) + (if ids[|ids| - 1] == id then 1 else 0)
  }

  lemma CountAppend(ids: seq<string>, x: string, id: string)
    ensures Count(ids + [x], id) == Count(ids, id) + (if x == id then 1 else 0)
  {
    assert (ids + [x])[..|ids|] == ids;
  }

  /**
   * The counter after opening `id`: 0 on its first open, one more on every
   * later open, every other id's counter untouched.
   */
  function NextInstance(counter: map<string, nat>, id: string): (r: map<string, nat>)
    ensures r.Keys == counter.Keys + {id}
    ensures r[id] == if id in counter then counter[id] + 1 else 0
    ensures forall k :: k in counter && k != id ==> r[k] == counter[k]
  {
    if id in counter then counter[id := counter[id] + 1] else counter[id := 0]
  }

  /** `windowInstanceCounter[id] || 0`. */
  function InstanceNumber(counter: map<string, nat>, id: string): nat
  {
    if id in counter then counter[id] else 0
  }

  /** The React key of a window: `${id}-${instance}`. */
  function WindowKey(id: string, instance: nat): string
  {
    id + "-" + DecimalString(instance)
  }

  /** The characters of a key: the id, a '-', then the digits of the instance number. */
  lemma KeyCharAt(id: string, instance: nat, k: int)
    ensures 0 <= k < |WindowKey(id, instance)| ==>
      WindowKey(id, instance)[k] ==
        if k < |id| then id[k]
        else if k == |id| then '-'
        else DecimalString(instance)[k - |id| - 1]
  {
  }

  /**
   * A key determines both the item id and the instance number: the number
   * has no '-', so the last '-' of a key separates the two.
   */
  lemma WindowKeyInjective(a: string, m: nat, b: string, n: nat)
    ensures WindowKey(a, m) == WindowKey(b, n) ==> a == b && m == n
  {
    var s, t := WindowKey(a, m), WindowKey(b, n);
    var dm, dn := DecimalString(m), DecimalString(n);
    if s == t {
      if |dm| < |dn| {
        KeyCharAt(a, m, |a|);
        KeyCharAt(b, n, |a|);
        assert false;
      } else if |dn| < |dm| {
        KeyCharAt(b, n, |b|);
        KeyCharAt(a, m, |b|);
        assert false;
      }
      assert a == s[..|a|] && b == t[..|b|];
      assert dm == s[|a| + 1..] && dn == t[|b| + 1..];
      DecimalInjective(m, n);
    }
  }

  /** Re-opening an item never reuses one of its earlier keys. */
  lemma ReopenedKeyIsFresh(counter: map<string, nat>, id: string, earlier: nat)
    requires id in counter && earlier <= counter[id]
    ensures WindowKey(id, InstanceNumber(NextInstance(counter, id), id)) != WindowKey(id, earlier)
  {
    WindowKeyInjective(id, InstanceNumber(NextInstance(counter, id), id), id, earlier);
  }

  /**
   * The props of the open windows, in list order. The window at position i
   * has z-index 100 + i, so a window opened later is drawn above every
   * earlier one. No focus handler is passed.
   */
  function RenderWindows(ws: seq<OpenWindow>, counter: map<string, nat>): (ps: seq<WindowProps>)
    ensures |ps| == |ws|
    ensures forall i :: 0 <= i < |ws| ==>
      && ps[i].item == ws[i].item
      && ps[i].status == ws[i].status
      && ps[i].startPosition == ws[i].startPosition
      && ps[i].key == WindowKey(ws[i].item.id, InstanceNumber(counter, ws[i].item.id))
      && !ps[i].hasFocusHandler
    ensures forall i :: 0 <= i < |ws| ==> ps[i].zIndex == FirstZIndex + i
    ensures forall i, j :: 0 <= i < j < |ws| ==> FirstZIndex <= ps[i].zIndex < ps[j].zIndex
  {
    seq(|ws|, i requires 0 <= i < |ws| =>
      WindowProps(
        WindowKey(ws[i].item.id, InstanceNumber(counter, ws[i].item.id)),
        ws[i].item, ws[i].status, ws[i].startPosition, FirstZIndex + i, false))
  }

  /** With one entry per id, the rendered windows have distinct keys. */
  lemma RenderedKeysDistinct(ws: seq<OpenWindow>, counter: map<string, nat>)
    requires UniqueIds(ws)
    ensures var ps := RenderWindows(ws, counter);
      forall i, j :: 0 <= i < j < |ps| ==> ps[i].key != ps[j].key
  {
    var ps := RenderWindows(ws, counter);
    forall i, j | 0 <= i < j < |ps| ensures ps[i].key != ps[j].key {
      WindowKeyInjective(ws[i].item.id, InstanceNumber(counter, ws[i].item.id),
                         ws[j].item.id, InstanceNumber(counter, ws[j].item.id));
    }
  }

  class WindowManager {
    /** `openWindows`: one entry per open window, in opening order. */
    var openWindows: seq<OpenWindow>
    /** `windowInstanceCounter`. */
    var instanceCounter: map<string, nat>
    /** Item ids of the scheduled 400 ms flips that have not fired yet, in firing order. */
    var pendingFlips: seq<string>
    /** The item ids of every window opened so far, in order. */
    ghost var openedIds: seq<string>

    /**
     * One entry per item id; an id has a counter exactly when it has been
     * opened, and the counter is the number of re-openings.
     */
    ghost predicate Valid()
      reads this
    {
      && UniqueIds(openWindows)
      && (forall id :: id in instanceCounter <==> Count(openedIds, id) > 0)
      && (forall id :: id in instanceCounter ==> instanceCounter[id] == Count(openedIds, id) - 1)
      && (forall w :: w in openWindows ==> w.item.id in instanceCounter)
    }

    constructor ()
      ensures Valid()
      ensures openWindows == [] && instanceCounter == map[] && pendingFlips == [] && openedIds == []
    {
      openWindows := [];
      instanceCounter := map[];
      pendingFlips := [];
      openedIds := [];
    }

    /**
     * A click on a desktop icon. An item already open is ignored; any other
     * item gets a new `opening` entry at the end of the list, its counter is
     * advanced and a flip to `open` is scheduled.
     */
    method HandleItemClick(item: DesktopItem, itemPosition: Point)
      requires Valid()
      modifies this
      ensures Valid()
      ensures HasId(old(openWindows), item.id) ==>
        && openWindows == old(openWindows)
        && instanceCounter == old(instanceCounter)
        && pendingFlips == old(pendingFlips)
        && openedIds == old(openedIds)
      ensures !HasId(old(openWindows), item.id) ==>
        && openWindows == old(openWindows) + [OpenWindow(item, Opening, itemPosition)]
        && instanceCounter == NextInstance(old(instanceCounter), item.id)
        && pendingFlips == old(pendingFlips) + [item.id]
        && openedIds == old(openedIds) + [item.id]
    {
      if Find(openWindows, item.id).Some? {
        return;
      }
      AppendKeepsUnique(openWindows, OpenWindow(item, Opening, itemPosition));
      forall id ensures Count(openedIds + [item.id], id) == Count(openedIds, id) + (if item.id == id then 1 else 0) {
        CountAppend(openedIds, item.id, id);
      }
      instanceCounter := NextInstance(instanceCounter, item.id);
      openWindows := openWindows + [OpenWindow(item, Opening, itemPosition)];
      pendingFlips := pendingFlips + [item.id];
      openedIds := openedIds + [item.id];
    }

    /**
     * The oldest scheduled flip fires: every entry with its item id becomes
     * `open`, whether or not it is the window that scheduled it.
     */
    method FireOpenFlip()
      requires Valid() && pendingFlips != []
      modifies this
      ensures Valid()
      ensures openWindows == MarkOpen(old(openWindows), old(pendingFlips)[0])
      ensures pendingFlips == old(pendingFlips)[1..]
      ensures instanceCounter == old(instanceCounter) && openedIds == old(openedIds)
    {
      var id := pendingFlips[0];
      var ws := MarkOpen(openWindows, id);
      assert forall w :: w in ws ==> w.item.id in instanceCounter by {
        forall w | w in ws ensures w.item.id in instanceCounter {
          var i :| 0 <= i < |ws| && ws[i] == w;
          assert openWindows[i] in openWindows;
        }
      }
      openWindows := ws;
      pendingFlips := pendingFlips[1..];
    }

    /** The close button: every entry with that id leaves the list. */
    method HandleCloseWindow(id: string)
      requires Valid()
      modifies this
      ensures Valid()
      ensures openWindows == Without(old(openWindows), id)
      ensures instanceCounter == old(instanceCounter) && pendingFlips == old(pendingFlips)
      ensures openedIds == old(openedIds)
    {
      WithoutKeepsUnique(openWindows, id);
      WithoutMembers(openWindows, id);
      openWindows := Without(openWindows, id);
    }

    /**
     * Bring-to-front, as the focus handler the windows call was meant to do
     * (it is not in the source): the window moves to the end of the list,
     * so it gets the highest z-index; the others keep their order.
     */
    method BringToFront(id: string)
      requires Valid()
      modifies this
      ensures Valid()
      ensures openWindows == MoveToEnd(old(openWindows), id)
      ensures multiset(openWindows) == multiset(old(openWindows))
      ensures HasId(old(openWindows), id) ==>
        && openWindows[|openWindows| - 1].item.id == id
        && openWindows[..|openWindows| - 1] == Without(old(openWindows), id)
      ensures !HasId(old(openWindows), id) ==> openWindows == old(openWindows)
      ensures instanceCounter == old(instanceCounter) && pendingFlips == old(pendingFlips)
      ensures openedIds == old(openedIds)
    {
      var ws := MoveToEnd(openWindows, id);
      MoveToEndPermutes(openWindows, id);
      if HasId(openWindows, id) {
        MoveToEndOnTop(openWindows, id);
      }
      assert forall w :: w in ws ==> w in openWindows by {
        forall w | w in ws ensures w in openWindows {
          assert w in multiset(ws);
        }
      }
      openWindows := ws;
    }
  }

  /**
   * Closing an item and opening it again before the first open's flip has
   * fired: the new window starts as `opening`, and the stale flip from the
   * first open then marks it `open` ahead of its own flip.
   */
  method StaleFlipScenario(item: DesktopItem, first: Point, second: Point)
    returns (reopened: WindowStatus, afterStaleFlip: WindowStatus, stillPending: nat)
    ensures reopened == Opening
    ensures afterStaleFlip == Open
    ensures stillPending == 1
  {
    var desktop := new WindowManager();
    desktop.HandleItemClick(item, first);
    desktop.HandleCloseWindow(item.id);
    WithoutMembers([OpenWindow(item, Opening, first)], item.id);
    desktop.HandleItemClick(item, second);
    assert desktop.openWindows == [OpenWindow(item, Opening, second)];
    reopened := desktop.openWindows[0].status;
    desktop.FireOpenFlip();
    afterStaleFlip := desktop.openWindows[0].status;
    stillPending := |desktop.pendingFlips|;
  }
}
