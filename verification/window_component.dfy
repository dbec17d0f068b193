/**
 * One window on the desktop: its position and size, the drag and resize
 * interactions driven by mouse events, and the one-way `hasAnimated` latch.
 * The document-level mouse listeners exist only while a drag or a resize is
 * under way; their handlers are the methods below, which do nothing when
 * their listener would not be attached.
 */
module WindowComponent {
  import opened Types
  import opened WindowGeometry

  /**
   * How a handler that calls `onFocus()` first ends: the call either goes
   * through, or throws because no focus callback was passed, in which case
   * the rest of the handler does not run.
   */
  datatype HandlerOutcome = FocusRequested | FocusCallbackMissing

  /**
   * What a window is rendered with: its React key, the item, its phase, the
   * icon point it grows from, its z-index, and whether an `onFocus`
   * callback was passed.
   */
  datatype WindowProps = WindowProps(
    key: string,
    item: DesktopItem,
    status: WindowStatus,
    startPosition: Point,
    zIndex: int,
    hasFocusHandler: bool)

  class Window {
    const item: DesktopItem
    const startPosition: Point
    /** Whether the parent passed an `onFocus` callback. */
    const hasFocusHandler: bool
    var status: WindowStatus
    var zIndex: int

    var position: Point
    var size: Size
    var isDragging: bool
    var isResizing: bool
    var resizeDirection: Option<Corner>
    var dragOffset: Point
    var hasAnimated: bool
    /** `lastMouseRef.current`: the pointer at the previous resize event. */
    var lastMouse: Point

    /** A resize is under way exactly when a direction is recorded. */
    ghost predicate Valid()
      reads this
    {
      isResizing <==> resizeDirection.Some?
    }

    function Geometry(): Frame
      reads this
    {
      Frame(position, size)
    }

    /** A window mounted with the props its parent passes. */
    constructor (props: WindowProps)
      ensures Valid()
      ensures item == props.item && startPosition == props.startPosition
      ensures hasFocusHandler == props.hasFocusHandler
      ensures status == props.status && zIndex == props.zIndex
      ensures position == DefaultPosition(props.item) && size == DefaultSize(props.item)
      ensures !isDragging && !isResizing && resizeDirection == None && !hasAnimated
      ensures dragOffset == Point(0, 0) && lastMouse == Point(0, 0)
    {
      item := props.item;
      startPosition := props.startPosition;
      hasFocusHandler := props.hasFocusHandler;
      status := props.status;
      zIndex := props.zIndex;
      position := DefaultPosition(props.item);
      size := DefaultSize(props.item);
      isDragging := false;
      isResizing := false;
      resizeDirection := None;
      dragOffset := Point(0, 0);
      hasAnimated := false;
      lastMouse := Point(0, 0);
    }

    /** The parent re-renders the window with a new status and z-index. */
    method ReceiveProps(newStatus: WindowStatus, newZIndex: int)
      requires Valid()
      modifies this`status, this`zIndex
      ensures Valid()
      ensures status == newStatus && zIndex == newZIndex
    {
      status := newStatus;
      zIndex := newZIndex;
    }

    /**
     * The effect that latches `hasAnimated` once the window is `open`; it
     * never sets it back to false, and afterwards the `window-opening`
     * class is off.
     */
    method AnimationEffect()
      requires Valid()
      modifies this`hasAnimated
      ensures Valid()
      ensures hasAnimated == (old(hasAnimated) || status == Open)
      ensures !OpeningClassApplied(status, isDragging, hasAnimated)
    {
      if status == Open && !hasAnimated {
        hasAnimated := true;
      }
    }

    /**
     * Mouse-down on the title bar. Focus is requested first; a drag starts
     * only when the target is in the title bar, the window is not `opening`
     * and the window element is mounted (`rect` is its bounding box origin),
     * and then records the pointer's offset from that origin.
     */
    method HandleMouseDown(inTitleBar: bool, pointer: Point, rect: Option<Point>)
      returns (outcome: HandlerOutcome)
      requires Valid()
      modifies this`dragOffset, this`isDragging
      ensures Valid()
      ensures outcome == FocusRequested <==> hasFocusHandler
      ensures var starts := hasFocusHandler && inTitleBar && status != Opening && rect.Some?;
        && (starts ==> isDragging && dragOffset == DragOffset(pointer, rect.value))
        && (!starts ==> isDragging == old(isDragging) && dragOffset == old(dragOffset))
    {
      if !hasFocusHandler {
        return FocusCallbackMissing;
      }
      outcome := FocusRequested;
      if !inTitleBar || status == Opening {
        return;
      }
      if rect.Some? {
        dragOffset := DragOffset(pointer, rect.value);
        isDragging := true;
      }
    }

    /** A click anywhere on the window only requests focus. */
    method HandleWindowClick() returns (outcome: HandlerOutcome)
      ensures outcome == FocusRequested <==> hasFocusHandler
    {
      outcome := if hasFocusHandler then FocusRequested else FocusCallbackMissing;
    }

    /** Document mouse-move while dragging: the origin follows the pointer. */
    method DragMouseMove(pointer: Point)
      requires Valid()
      modifies this`position
      ensures Valid()
      ensures isDragging ==> position == DragPosition(pointer, dragOffset)
      ensures !isDragging ==> position == old(position)
    {
      if isDragging {
        position := DragPosition(pointer, dragOffset);
      }
    }

    /** Document mouse-up ends a drag. */
    method DragMouseUp()
      requires Valid()
      modifies this`isDragging
      ensures Valid()
      ensures !isDragging
    {
      isDragging := false;
    }

    /**
     * Mouse-down on a corner handle. Focus is requested first; then the
     * resize starts in that direction and the pointer becomes the reference
     * for the first delta.
     */
    method HandleResizeStart(direction: Corner, pointer: Point) returns (outcome: HandlerOutcome)
      requires Valid()
      modifies this`isResizing, this`resizeDirection, this`lastMouse
      ensures Valid()
      ensures outcome == FocusRequested <==> hasFocusHandler
      ensures hasFocusHandler ==>
        isResizing && resizeDirection == Some(direction) && lastMouse == pointer
      ensures !hasFocusHandler ==>
        && isResizing == old(isResizing) && resizeDirection == old(resizeDirection)
        && lastMouse == old(lastMouse)
    {
      if !hasFocusHandler {
        return FocusCallbackMissing;
      }
      isResizing := true;
      resizeDirection := Some(direction);
      lastMouse := pointer;
      outcome := FocusRequested;
    }

    /**
     * Document mouse-move while resizing: one resize step by the movement
     * since the last event, after which the pointer is the new reference.
     * Width and height are then at least 200.
     */
    method ResizeMouseMove(pointer: Point)
      requires Valid()
      modifies this`position, this`size, this`lastMouse
      ensures Valid()
      ensures isResizing ==>
        && Geometry() == Resize(resizeDirection.value, old(Geometry()), Minus(pointer, old(lastMouse)))
        && size.width >= MinDimension && size.height >= MinDimension
        && lastMouse == pointer
      ensures !isResizing ==>
        position == old(position) && size == old(size) && lastMouse == old(lastMouse)
    {
      if !isResizing {
        return;
      }
      var delta := Minus(pointer, lastMouse);
      var f := Resize(resizeDirection.value, Frame(position, size), delta);
      position := f.position;
      size := f.size;
      lastMouse := pointer;
    }

    /** Document mouse-up ends a resize and forgets its direction. */
    method ResizeMouseUp()
      modifies this`isResizing, this`resizeDirection
      ensures Valid()
      ensures !isResizing && resizeDirection == None
    {
      isResizing := false;
      resizeDirection := None;
    }
  }
}
