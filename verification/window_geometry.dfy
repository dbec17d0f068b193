/**
 * The arithmetic of a window: its first position and size, the four corner
 * resize handles with their 200-pixel minimum, dragging by a pointer offset,
 * and the style chosen for the `opening` box and the `open` window.
 */
module WindowGeometry {
  import opened Types

  /** The smallest width and height a resize leaves. */
  const MinDimension := 200

  /** Side of the square drawn at the icon while a window is `opening`. */
  const OpeningBoxSide := 50

  datatype Corner = NW | NE | SW | SE

  /** A window's top-left corner and its size. */
  datatype Frame = Frame(position: Point, size: Size)

  function DefaultPosition(item: DesktopItem): (p: Point)
    ensures item.defaultPosition.None? ==> p == Point(50, 50)
    ensures item.defaultPosition.Some? ==> p == item.defaultPosition.value
  {
    match item.defaultPosition
    case Some(p) => p
    case None => Point(50, 50)
  }

  function DefaultSize(item: DesktopItem): (s: Size)
    ensures item.defaultSize.None? ==> s == Size(400, 300)
    ensures item.defaultSize.Some? ==> s == item.defaultSize.value
  {
    match item.defaultSize
    case Some(s) => s
    case None => Size(400, 300)
  }

  /** `Math.max(200, v)`. */
  function AtLeastMin(v: int): (r: int)
    ensures r >= MinDimension && r >= v
    ensures r == v || r == MinDimension
  {
    if v < MinDimension then MinDimension else v
  }

  /** The handle's corner is on the window's left edge. */
  predicate OnLeft(c: Corner)
  {
    c == NW || c == SW
  }

  /** The handle's corner is on the window's top edge. */
  predicate OnTop(c: Corner)
  {
    c == NW || c == NE
  }

  /**
   * One resize step by the pointer movement `delta` since the last event,
   * as the `switch (resizeDirection)` does it.
   */
  function Resize(c: Corner, f: Frame, delta: Point): (r: Frame)
    ensures r.size.width >= MinDimension && r.size.height >= MinDimension
    ensures r.size.width == AtLeastMin(if OnLeft(c) then f.size.width - delta.x else f.size.width + delta.x)
    ensures r.size.height == AtLeastMin(if OnTop(c) then f.size.height - delta.y else f.size.height + delta.y)
    ensures r.position.x == if OnLeft(c) then f.position.x + delta.x else f.position.x
    ensures r.position.y == if OnTop(c) then f.position.y + delta.y else f.position.y
  {
    var p, s := f.position, f.size;
    match c
    case NW =>
      Frame(Point(p.x + delta.x, p.y + delta.y),
            Size(AtLeastMin(s.width - delta.x), AtLeastMin(s.height - delta.y)))
    case NE =>
      Frame(Point(p.x, p.y + delta.y),
            Size(AtLeastMin(s.width + delta.x), AtLeastMin(s.height - delta.y)))
    case SW =>
      Frame(Point(p.x + delta.x, p.y),
            Size(AtLeastMin(s.width - delta.x), AtLeastMin(s.height + delta.y)))
    case SE =>
      Frame(p, Size(AtLeastMin(s.width + delta.x), AtLeastMin(s.height + delta.y)))
  }

  /** The corner opposite the handle, which a resize is meant to keep in place. */
  function Anchor(c: Corner, f: Frame): Point
  {
    Point(if OnLeft(c) then f.position.x + f.size.width else f.position.x,
          if OnTop(c) then f.position.y + f.size.height else f.position.y)
  }

  /**
   * The step clamps an edge whose handle also moves the position: the
   * position still moves by the whole delta while the size stops at 200.
   */
  predicate ClampShiftsAnchor(c: Corner, f: Frame, delta: Point)
  {
    (OnLeft(c) && f.size.width - delta.x < MinDimension) ||
    (OnTop(c) && f.size.height - delta.y < MinDimension)
  }

  /**
   * The opposite corner stays where it was exactly when no clamped edge
   * moves the position; otherwise the window slides.
   */
  lemma ResizeAnchor(c: Corner, f: Frame, delta: Point)
    ensures Anchor(c, Resize(c, f, delta)) == Anchor(c, f) <==> !ClampShiftsAnchor(c, f, delta)
  {
  }

  /** No clamping in either step of the same handle. */
  predicate UnclampedSteps(c: Corner, f: Frame, d1: Point, d2: Point)
  {
    var sx := if OnLeft(c) then -1 else 1;
    var sy := if OnTop(c) then -1 else 1;
    && f.size.width + sx * d1.x >= MinDimension
    && f.size.width + sx * (d1.x + d2.x) >= MinDimension
    && f.size.height + sy * d1.y >= MinDimension
    && f.size.height + sy * (d1.y + d2.y) >= MinDimension
  }

  /**
   * Deltas are measured from the last pointer position, so two steps of one
   * gesture that never clamp end where one step by the total movement does.
   */
  lemma ResizeStepsCompose(c: Corner, f: Frame, d1: Point, d2: Point)
    requires UnclampedSteps(c, f, d1, d2)
    ensures Resize(c, Resize(c, f, d1), d2) == Resize(c, f, Point(d1.x + d2.x, d1.y + d2.y))
  {
  }

  /** The offset from the window origin to the pointer, recorded at mouse-down. */
  function DragOffset(pointer: Point, origin: Point): Point
  {
    Minus(pointer, origin)
  }

  /** A drag move: the window origin is the pointer minus the recorded offset. */
  function DragPosition(pointer: Point, offset: Point): (r: Point)
    ensures DragOffset(pointer, r) == offset
  {
    Minus(pointer, offset)
  }

  /** Moving the pointer back to where the drag started puts the window back. */
  lemma DragReturnsToOrigin(down: Point, origin: Point)
    ensures DragPosition(down, DragOffset(down, origin)) == origin
  {
  }

  /** The inline style of a window; opacity in percent. */
  datatype Style = Style(
    left: int, top: int, width: int, height: int,
    opacityPercent: int, transform: string, transition: Option<string>)

  /**
   * `getAnimationStyles`: while `opening`, a 50x50 box centred on the icon
   * point; once `open`, the window's own geometry, with the easing switched
   * off while it is being dragged.
   */
  function AnimationStyles(status: WindowStatus, startPosition: Point, f: Frame, isDragging: bool): (st: Style)
    ensures status == Opening ==>
      && st.width == OpeningBoxSide && st.height == OpeningBoxSide
      && st.left + st.width / 2 == startPosition.x
      && st.top + st.height / 2 == startPosition.y
      && st.opacityPercent == 80 && st.transition == None
    ensures status == Open ==>
      && Point(st.left, st.top) == f.position
      && Size(st.width, st.height) == f.size
      && st.opacityPercent == 100 && st.transform == "none"
      && st.transition.Some?
      && (st.transition.value == "none" <==> isDragging)
  {
    match status
    case Opening =>
      Style(startPosition.x - 25, startPosition.y - 25, 50, 50, 80, "scale(0.8)", None)
    case Open =>
      Style(f.position.x, f.position.y, f.size.width, f.size.height, 100, "none",
            Some(if isDragging then "none" else "all 0.3s ease-out"))
  }

  /** Whether the `window-opening` class is on the window. */
  predicate OpeningClassApplied(status: WindowStatus, isDragging: bool, hasAnimated: bool)
  {
    status == Open && !isDragging && !hasAnimated
  }

  /**
   * The `window-opening` class is never on while the window is `opening` or
   * once the latch is set, and it is on for an `open` window that is not
   * being dragged and has not yet animated.
   */
  lemma OpeningClassPlaysOnce(status: WindowStatus, isDragging: bool, hasAnimated: bool)
    ensures !OpeningClassApplied(Opening, isDragging, hasAnimated)
    ensures !OpeningClassApplied(status, isDragging, true)
    ensures !OpeningClassApplied(status, true, hasAnimated)
    ensures OpeningClassApplied(Open, false, false)
  {
  }
}
