/** Value types shared by the desktop, its windows and the photo gallery. */
module Types {

  /** A value that may be absent (`undefined` / `null` in the source). */
  datatype Option<T> = None | Some(value: T)

  /** A pixel position. Event coordinates are whole pixels here. */
  datatype Point = Point(x: int, y: int)

  /** A window size in pixels. */
  datatype Size = Size(width: int, height: int)

  /**
   * A desktop icon's item. The id is stable and unique within a session;
   * the optional defaults give a window its first position and size.
   */
  datatype DesktopItem = DesktopItem(
    id: string,
    title: string,
    defaultPosition: Option<Point>,
    defaultSize: Option<Size>)

  /** The two phases of a window: a small box at the icon, then the full window. */
  datatype WindowStatus = Opening | Open

  function Minus(a: Point, b: Point): Point
  {
    Point(a.x - b.x, a.y - b.y)
  }
}
