/**
 * The few pygame notions the two programs compute with: integer points,
 * image sizes, the zoom rule applied after an image is loaded, and the
 * point-in-rectangle test of pygame's Rect.collidepoint.
 */
module Graphics {

  /** A screen or canvas position, in pixels. */
  datatype Point = Point(x: int, y: int)

  /** The pixel dimensions of a decoded image. */
  datatype Size = Size(w: nat, h: nat)

  /**
   * Both programs enlarge a freshly loaded image by the integer zoom factor
   * `scale`, and only when `scale > 1`; a factor of 1, 0 or below leaves the
   * image as decoded.
   */
  function Scaled(s: Size, scale: int): (r: Size)
    ensures scale <= 1 ==> r == s
    ensures scale > 1 ==> r.w == scale * s.w && r.h == scale * s.h
    ensures r.w >= s.w && r.h >= s.h
  {
    if scale > 1 then Size(scale * s.w, scale * s.h) else s
  }

  /**
   * pygame's Rect(origin, size).collidepoint(p): the rectangle is half-open,
   * so its left and top edges belong to it and its right and bottom edges
   * do not; an empty rectangle contains nothing.
   */
  predicate Contains(origin: Point, size: Size, p: Point)
  {
    origin.x <= p.x < origin.x + size.w && origin.y <= p.y < origin.y + size.h
  }

  /** The offset that takes `from` to `to`. */
  function Minus(to: Point, from: Point): (d: Point)
    ensures Plus(from, d) == to
  {
    Point(to.x - from.x, to.y - from.y)
  }

  function Plus(p: Point, d: Point): Point
  {
    Point(p.x + d.x, p.y + d.y)
  }

}
