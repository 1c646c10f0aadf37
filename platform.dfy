/** The static platforms of a level (js/platform.js). A platform is never
    changed after it is created, so it is a value; its type only picks a colour. */
module Platforms {
  import opened Utils

  const DEFAULT_KIND: string := "normal"

  datatype Platform = Platform(x: real, y: real, width: real, height: real, kind: string)
  {
    /** The inherited `getBounds`. */
    function Bounds(): (r: Rect)
      ensures r.x == x && r.y == y && r.width == width && r.height == height
    {
      Rect(x, y, width, height)
    }
  }
}
