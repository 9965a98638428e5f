/**
 * Core Graphics values (CGPoint, CGSize, CGRect) over exact reals.
 * CGFloat rounding is not modelled: every coordinate is a `real`.
 */
module Geometry {
  datatype Point = Point(x: real, y: real)
  datatype Size = Size(width: real, height: real)
  datatype Rect = Rect(origin: Point, size: Size)

  function MinX(r: Rect): real { r.origin.x }
  function MinY(r: Rect): real { r.origin.y }
  function MaxX(r: Rect): real { r.origin.x + r.size.width }
  function MaxY(r: Rect): real { r.origin.y + r.size.height }

  /** `CGRect.contains(_:)`: the min edges are inside, the max edges are not. */
  predicate Contains(r: Rect, p: Point) {
    MinX(r) <= p.x < MaxX(r) && MinY(r) <= p.y < MaxY(r)
  }

  /**
   * `CGRect.insetBy(dx:dy:)`: moves every edge inwards by dx (left and
   * right) and dy (top and bottom); negative amounts grow the rectangle.
   */
  function InsetBy(r: Rect, dx: real, dy: real): (g: Rect)
    ensures MinX(g) == MinX(r) + dx && MaxX(g) == MaxX(r) - dx
    ensures MinY(g) == MinY(r) + dy && MaxY(g) == MaxY(r) - dy
  {
    Rect(Point(r.origin.x + dx, r.origin.y + dy),
         Size(r.size.width - 2.0 * dx, r.size.height - 2.0 * dy))
  }

  /** The 1-unit tolerance the screen searches apply: `frame.insetBy(dx: -1, dy: -1)`. */
  function Tolerant(r: Rect): Rect { InsetBy(r, -1.0, -1.0) }

  /** True when the rectangle, grown by 1 on every side, contains the point. */
  predicate InTolerance(r: Rect, p: Point) { Contains(Tolerant(r), p) }

  /** Global point expressed relative to the rectangle's origin. */
  function Translate(p: Point, r: Rect): (q: Point)
    ensures q.x + r.origin.x == p.x && q.y + r.origin.y == p.y
  {
    Point(p.x - r.origin.x, p.y - r.origin.y)
  }

  function Center(s: Size): (c: Point)
    ensures c.x + c.x == s.width && c.y + c.y == s.height
  {
    Point(s.width / 2.0, s.height / 2.0)
  }
}
