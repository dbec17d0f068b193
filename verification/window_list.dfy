/**
 * The desktop's list of open windows as a value, and the list operations the
 * desktop's handlers build each new list with: `find` by item id, `filter`
 * on close, `map` for the delayed status flip, and (the correction of the
 * missing focus handler) moving one entry to the end.
 */
module WindowList {
  import opened Types

  /** One open window: the item it shows, its phase and the icon point it grows from. */
  datatype OpenWindow = OpenWindow(item: DesktopItem, status: WindowStatus, startPosition: Point)

  predicate HasId(ws: seq<OpenWindow>, id: string)
  {
    exists i :: 0 <= i < |ws| && ws[i].item.id == id
  }

  /** At most one entry per item id. */
  predicate UniqueIds(ws: seq<OpenWindow>)
  {
    forall i, j :: 0 <= i < j < |ws| ==> ws[i].item.id != ws[j].item.id
  }

  /** `ws.find(w => w.item.id === id)`: the first entry with that id, if any. */
  function Find(ws: seq<OpenWindow>, id: string): (r: Option<OpenWindow>)
    ensures r.Some? <==> HasId(ws, id)
    ensures r.Some? ==> r.value in ws && r.value.item.id == id
  {
    if ws == [] then None
    else if ws[0].item.id == id then Some(ws[0])
    else
      assert HasId(ws, id) ==> HasId(ws[1..], id) by {
        if HasId(ws, id) {
          var i :| 0 <= i < |ws| && ws[i].item.id == id;
          assert ws[1..][i - 1] == ws[i];
        }
      }
      Find(ws[1..], id)
  }

  /** What `Find` returns is the first entry with that id: none before it has the id. */
  lemma {:induction false} FindFirst(ws: seq<OpenWindow>, id: string)
    requires HasId(ws, id)
    ensures exists i :: 0 <= i < |ws| && ws[i] == Find(ws, id).value && !HasId(ws[..i], id)
  {
    if ws[0].item.id == id {
      assert ws[..0] == [];
    } else {
      var tail := ws[1..];
      assert HasId(tail, id) by {
        var k :| 0 <= k < |ws| && ws[k].item.id == id;
        assert tail[k - 1] == ws[k];
      }
      FindFirst(tail, id);
      var i :| 0 <= i < |tail| && tail[i] == Find(tail, id).value && !HasId(tail[..i], id);
      assert ws[i + 1] == Find(ws, id).value;
      assert !HasId(ws[..i + 1], id) by {
        var pre := ws[..i + 1];
        assert pre == [ws[0]] + tail[..i];
        forall j | 0 <= j < |pre| ensures pre[j].item.id != id {
          if j > 0 {
            assert pre[j] == tail[..i][j - 1];
          }
        }
      }
    }
  }

  /** `ws.filter(w => w.item.id !== id)`. */
  function Without(ws: seq<OpenWindow>, id: string): (r: seq<OpenWindow>)
    ensures |r| <= |ws|
  {
    if ws == [] then []
    else if ws[0].item.id == id then Without(ws[1..], id)
    else [ws[0]] + Without(ws[1..], id)
  }

  /** `ws.map(w => w.item.id === id ? { ...w, status: "open" } : w)`. */
  function MarkOpen(ws: seq<OpenWindow>, id: string): (r: seq<OpenWindow>)
    ensures |r| == |ws|
    ensures forall i :: 0 <= i < |ws| ==>
      r[i].item == ws[i].item && r[i].startPosition == ws[i].startPosition
    ensures forall i :: 0 <= i < |ws| ==>
      r[i].status == if ws[i].item.id == id then Open else ws[i].status
  {
    if ws == [] then []
    else
      var rest := MarkOpen(ws[1..], id);
      var first := if ws[0].item.id == id then ws[0].(status := Open) else ws[0];
      assert forall i :: 1 <= i < |ws| ==> ([first] + rest)[i] == rest[i - 1];
      [first] + rest
  }

  /**
   * Bring-to-front for a list whose z-order is the list order: the entry
   * with that id moves to the end, everything else keeps its order. This is
   * not in the source: it is what the missing focus handler was meant to do.
   */
  function MoveToEnd(ws: seq<OpenWindow>, id: string): (r: seq<OpenWindow>)
  {
    match Find(ws, id)
    case None => ws
    case Some(w) => Without(ws, id) + [w]
  }

  /** Closing keeps exactly the entries with another id, and none with this one. */
  lemma {:induction false} WithoutMembers(ws: seq<OpenWindow>, id: string)
    ensures forall w :: w in Without(ws, id) <==> w in ws && w.item.id != id
    ensures !HasId(Without(ws, id), id)
  {
    if ws != [] {
      WithoutMembers(ws[1..], id);
      assert forall w :: w in ws <==> w == ws[0] || w in ws[1..];
    }
  }

  /** Filtering distributes over concatenation: close keeps the relative order of the rest. */
  lemma {:induction false} WithoutConcat(a: seq<OpenWindow>, b: seq<OpenWindow>, id: string)
    ensures Without(a + b, id) == Without(a, id) + Without(b, id)
  {
    if a == [] {
      assert a + b == b;
    } else {
      var ab := a + b;
      assert ab != [] && ab[0] == a[0] && ab[1..] == a[1..] + b;
      WithoutConcat(a[1..], b, id);
      if a[0].item.id == id {
        assert Without(ab, id) == Without(a[1..] + b, id);
        assert Without(a, id) == Without(a[1..], id);
      } else {
        assert Without(ab, id) == [a[0]] + Without(a[1..] + b, id);
        assert Without(a, id) == [a[0]] + Without(a[1..], id);
      }
    }
  }

  /** Filtering out an absent id changes nothing. */
  lemma {:induction false} WithoutAbsent(ws: seq<OpenWindow>, id: string)
    requires !HasId(ws, id)
    ensures Without(ws, id) == ws
  {
    if ws != [] {
      WithoutAbsent(ws[1..], id);
      assert ws == [ws[0]] + ws[1..];
    }
  }

  /** Closing keeps ids unique. */
  lemma {:induction false} WithoutKeepsUnique(ws: seq<OpenWindow>, id: string)
    requires UniqueIds(ws)
    ensures UniqueIds(Without(ws, id))
  {
    if ws != [] {
      var tail := ws[1..];
      assert UniqueIds(tail) by {
        forall i, j | 0 <= i < j < |tail| ensures tail[i].item.id != tail[j].item.id {
          assert tail[i] == ws[i + 1] && tail[j] == ws[j + 1];
        }
      }
      WithoutKeepsUnique(tail, id);
      WithoutMembers(tail, id);
      if ws[0].item.id != id {
        var rest := Without(tail, id);
        var r := [ws[0]] + rest;
        forall i, j | 0 <= i < j < |r| ensures r[i].item.id != r[j].item.id {
          if i == 0 {
            assert r[j] == rest[j - 1];
            assert rest[j - 1] in tail;
            var k :| 0 <= k < |tail| && tail[k] == rest[j - 1];
            assert tail[k] == ws[k + 1];
          } else {
            assert r[i] == rest[i - 1] && r[j] == rest[j - 1];
          }
        }
      }
    }
  }

  /** Appending an entry with a fresh id keeps ids unique. */
  lemma AppendKeepsUnique(ws: seq<OpenWindow>, w: OpenWindow)
    requires UniqueIds(ws) && !HasId(ws, w.item.id)
    ensures UniqueIds(ws + [w])
  {
    var r := ws + [w];
    forall i, j | 0 <= i < j < |r| ensures r[i].item.id != r[j].item.id {
      if j == |ws| {
        assert r[i] == ws[i];
      } else {
        assert r[i] == ws[i] && r[j] == ws[j];
      }
    }
  }

  /** Under unique ids, no entry before or after position `i` has the id at `i`. */
  lemma OnlyAt(ws: seq<OpenWindow>, i: int)
    requires UniqueIds(ws) && 0 <= i < |ws|
    ensures !HasId(ws[..i], ws[i].item.id) && !HasId(ws[i + 1..], ws[i].item.id)
  {
  }

  /** Splitting a list at the one entry with id `id`. */
  lemma SplitAtId(ws: seq<OpenWindow>, id: string, i: int)
    requires UniqueIds(ws) && 0 <= i < |ws| && ws[i].item.id == id
    ensures Without(ws, id) == ws[..i] + ws[i + 1..]
  {
    var before, w, after := ws[..i], ws[i], ws[i + 1..];
    OnlyAt(ws, i);
    assert ws == (before + [w]) + after;
    calc {
      Without(ws, id);
      { WithoutConcat(before + [w], after, id); }
      Without(before + [w], id) + Without(after, id);
      { WithoutConcat(before, [w], id); }
      Without(before, id) + Without([w], id) + Without(after, id);
      { WithoutAbsent(before, id); WithoutAbsent(after, id); assert Without([w], id) == []; }
      before + [] + after;
    }
    assert before + [] + after == ws[..i] + ws[i + 1..];
  }

  /** Moving a window to the end keeps the same windows, as a multiset. */
  lemma MoveToEndPermutes(ws: seq<OpenWindow>, id: string)
    requires UniqueIds(ws)
    ensures multiset(MoveToEnd(ws, id)) == multiset(ws)
  {
    match Find(ws, id)
    case None =>
    case Some(w) =>
      var i :| 0 <= i < |ws| && ws[i] == w;
      SplitAtId(ws, id, i);
      assert ws == ws[..i] + [w] + ws[i + 1..];
      assert MoveToEnd(ws, id) == ws[..i] + ws[i + 1..] + [w];
  }

  /**
   * Moving the window with id `id` to the end keeps ids unique, puts that
   * window last and keeps every other window in its relative order.
   */
  lemma MoveToEndOnTop(ws: seq<OpenWindow>, id: string)
    requires UniqueIds(ws) && HasId(ws, id)
    ensures UniqueIds(MoveToEnd(ws, id))
    ensures |MoveToEnd(ws, id)| == |ws|
    ensures MoveToEnd(ws, id)[|ws| - 1] == Find(ws, id).value
    ensures MoveToEnd(ws, id)[..|ws| - 1] == Without(ws, id)
  {
    var w := Find(ws, id).value;
    var rest := Without(ws, id);
    MoveToEndPermutes(ws, id);
    assert |multiset(MoveToEnd(ws, id))| == |ws|;
    assert MoveToEnd(ws, id) == rest + [w];
    WithoutKeepsUnique(ws, id);
    WithoutMembers(ws, id);
    AppendKeepsUnique(rest, w);
  }
}
