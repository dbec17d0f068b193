/**
 * The desktop's windows put together: a window mounted with the props the
 * desktop renders, and what a press on its title bar then does.
 */
module DesktopWindows {
  import opened Types
  import opened WindowList
  import opened WindowGeometry
  import Desktop
  import WindowComponent

  /**
   * As rendered: the desktop passes no focus callback, so the window's
   * mouse-down handler stops at `onFocus()` and even an `open` window never
   * starts a drag from its title bar (nor, by the same call, a resize).
   */
  method TitleBarPressAsRendered(ws: seq<OpenWindow>, counter: map<string, nat>, i: nat,
                                 pointer: Point, rect: Point)
    returns (outcome: WindowComponent.HandlerOutcome, dragging: bool)
    requires i < |ws|
    ensures outcome == WindowComponent.FocusCallbackMissing
    ensures !dragging
  {
    var props := Desktop.RenderWindows(ws, counter)[i];
    var w := new WindowComponent.Window(props);
    outcome := w.HandleMouseDown(true, pointer, Some(rect));
    dragging := w.isDragging;
  }

  /**
   * With a focus callback passed, a title-bar press on an `open` window
   * starts the drag and records the pointer's offset from the window origin.
   */
  method TitleBarPressWithFocusHandler(ws: seq<OpenWindow>, counter: map<string, nat>, i: nat,
                                       pointer: Point, rect: Point)
    returns (outcome: WindowComponent.HandlerOutcome, dragging: bool, offset: Point)
    requires i < |ws| && ws[i].status == Open
    ensures outcome == WindowComponent.FocusRequested
    ensures dragging && offset == DragOffset(pointer, rect)
  {
    var props := Desktop.RenderWindows(ws, counter)[i].(hasFocusHandler := true);
    var w := new WindowComponent.Window(props);
    outcome := w.HandleMouseDown(true, pointer, Some(rect));
    dragging := w.isDragging;
    offset := w.dragOffset;
  }
}
