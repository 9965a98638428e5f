/**
 * The relative read-out of `CrosshairModel`: `calculateDistance`,
 * `calculateQuadrant`, `calculateTheta` and `computedOffset`.
 *
 * The pointer (`mouseLocation`) is screen-local and Y-up; the origin
 * marker (`mouseOriginPosition`) is stored Y-down, as SwiftUI positions it.
 * The value of `atan` is not modelled: `Theta` receives it as `raw` and
 * relies only on its sign and range (`AtanLike`).
 */
module Readout {
  import opened Geometry
  import opened Settings

  /** `Double.pi`. */
  const PI: real := 3.141592653589793

  /** The origin marker flipped into the pointer's Y-up space. */
  function OriginYUp(origin: Point, screenHeight: real): (b: Point)
    ensures b.x == origin.x && b.y + origin.y == screenHeight
  {
    Point(origin.x, screenHeight - origin.y)
  }

  /** The `[xDist, yDist]` pair of `calculateDistance()`. */
  datatype Delta = Delta(dx: real, dy: real)

  /** `calculateDistance()`: the pointer minus the Y-up origin. */
  function Distance(mouse: Point, origin: Point, screenHeight: real): (d: Delta)
    ensures var b := OriginYUp(origin, screenHeight);
      d.dx == mouse.x - b.x && d.dy == mouse.y - b.y
  {
    Delta(mouse.x - origin.x, -(screenHeight - origin.y - mouse.y))
  }

  /** `calculateQuadrant(calcPoint:basePoint:)`. */
  function Quadrant(point: Point, base: Point): (q: int)
    ensures 1 <= q <= 4
    ensures q == 2 <==> point.y > base.y && point.x < base.x
    ensures q == 3 <==> point.y < base.y && point.x < base.x
    ensures q == 4 <==> point.y < base.y && point.x > base.x
    ensures q == 1 <==> (point.y > base.y && point.x > base.x) || point.x == base.x || point.y == base.y
  {
    if point.y > base.y && point.x > base.x then 1
    else if point.y > base.y && point.x < base.x then 2
    else if point.y < base.y && point.x < base.x then 3
    else if point.y < base.y && point.x > base.x then 4
    else 1
  }

  /** The quadrant `calculateTheta` classifies, stated on the distance. */
  lemma QuadrantOfDistance(mouse: Point, origin: Point, screenHeight: real)
    ensures var d := Distance(mouse, origin, screenHeight);
      var q := Quadrant(mouse, OriginYUp(origin, screenHeight));
      (q == 2 <==> d.dx < 0.0 && d.dy > 0.0) &&
      (q == 3 <==> d.dx < 0.0 && d.dy < 0.0) &&
      (q == 4 <==> d.dx > 0.0 && d.dy < 0.0) &&
      (q == 1 <==> (d.dx > 0.0 && d.dy > 0.0) || d.dx == 0.0 || d.dy == 0.0)
  {
  }

  /** The radians `calculateTheta` adds to `atan(dy/dx)` in each quadrant. */
  function QuadrantOffset(q: int): (o: real)
    ensures q == 1 ==> o == 0.0
    ensures q == 2 || q == 3 ==> o == PI
    ensures q == 4 ==> o == 2.0 * PI
  {
    if q == 1 then 0.0
    else if q == 2 then PI
    else if q == 3 then PI
    else if q == 4 then 2.0 * PI
    else 0.0
  }

  /** What the model relies on about `atan(t)`: it keeps the sign of t and lies in (-pi/2, pi/2). */
  predicate AtanLike(t: real, raw: real) {
    -PI / 2.0 < raw < PI / 2.0 &&
    (t > 0.0 ==> raw > 0.0) && (t < 0.0 ==> raw < 0.0) && (t == 0.0 ==> raw == 0.0)
  }

  /** The sign of a quotient, spelled out for the solver. */
  lemma QuotientSign(a: real, b: real)
    requires b != 0.0
    ensures (a > 0.0 && b > 0.0) || (a < 0.0 && b < 0.0) ==> a / b > 0.0
    ensures (a > 0.0 && b < 0.0) || (a < 0.0 && b > 0.0) ==> a / b < 0.0
  {
  }

  /**
   * `calculateTheta()` in radians, given `raw = atan(dy/dx)`. When dx == 0
   * the source divides by zero in floating point; the model then only
   * passes `raw` through (the quadrant is 1), whatever it is.
   */
  function Theta(mouse: Point, origin: Point, screenHeight: real, raw: real): (theta: real)
    requires var d := Distance(mouse, origin, screenHeight);
      d.dx != 0.0 ==> AtanLike(d.dy / d.dx, raw)
    ensures var d := Distance(mouse, origin, screenHeight);
      (d.dx == 0.0 || d.dy == 0.0) ==> theta == raw
    ensures var d := Distance(mouse, origin, screenHeight);
      d.dx > 0.0 && d.dy > 0.0 ==> 0.0 < theta < PI / 2.0
    ensures var d := Distance(mouse, origin, screenHeight);
      d.dx < 0.0 && d.dy > 0.0 ==> PI / 2.0 < theta < PI
    ensures var d := Distance(mouse, origin, screenHeight);
      d.dx < 0.0 && d.dy < 0.0 ==> PI < theta < 3.0 * PI / 2.0
    ensures var d := Distance(mouse, origin, screenHeight);
      d.dx > 0.0 && d.dy < 0.0 ==> 3.0 * PI / 2.0 < theta < 2.0 * PI
  {
    var d := Distance(mouse, origin, screenHeight);
    QuadrantOfDistance(mouse, origin, screenHeight);
    var theta := raw + QuadrantOffset(Quadrant(mouse, OriginYUp(origin, screenHeight)));
    if d.dx != 0.0 then QuotientSign(d.dy, d.dx); theta else theta
  }

  /** Off the two axes through the origin, theta lies strictly between 0 and 2 pi. */
  lemma ThetaInOpenTurn(mouse: Point, origin: Point, screenHeight: real, raw: real)
    requires var d := Distance(mouse, origin, screenHeight);
      d.dx != 0.0 && d.dy != 0.0 && AtanLike(d.dy / d.dx, raw)
    ensures 0.0 < Theta(mouse, origin, screenHeight, raw) < 2.0 * PI
  {
  }

  /**
   * The worked example: origin (500, 500), pointer (600, 600) on a
   * 1000 x 1000 screen gives dx = dy = 100, quadrant 1, theta = atan(1).
   */
  lemma WorkedExample(raw: real)
    requires AtanLike(1.0, raw)
    ensures Distance(Point(600.0, 600.0), Point(500.0, 500.0), 1000.0) == Delta(100.0, 100.0)
    ensures Quadrant(Point(600.0, 600.0), OriginYUp(Point(500.0, 500.0), 1000.0)) == 1
    ensures Theta(Point(600.0, 600.0), Point(500.0, 500.0), 1000.0, raw) == raw
  {
  }

  /**
   * `computedOffset`: where the coordinate label sits relative to the
   * pointer, for the chosen corner, the extra offset and the text zoom.
   */
  function TextOffset(pos: TextPosition, offset: real, zoom: real): (s: Size)
    ensures (if IsLeft(pos) then -s.width else s.width) == 80.0 + offset + zoom * 3.2
    ensures (if IsTop(pos) then -s.height else s.height) == 30.0 + offset + zoom
    ensures offset >= 0.0 && zoom >= 0.0 ==> (s.width < 0.0 <==> IsLeft(pos))
    ensures offset >= 0.0 && zoom >= 0.0 ==> (s.height < 0.0 <==> IsTop(pos))
  {
    match pos
    case TopLeft => Size(-(80.0 + offset) - zoom * 3.2, -(30.0 + offset) - zoom)
    case TopRight => Size(80.0 + offset + zoom * 3.2, -(30.0 + offset) - zoom)
    case BottomLeft => Size(-(80.0 + offset) - zoom * 3.2, 30.0 + offset + zoom)
    case BottomRight => Size(80.0 + offset + zoom * 3.2, 30.0 + offset + zoom)
  }

  /** Mirroring the corner left-right negates only the width; top-bottom only the height. */
  lemma TextOffsetMirror(offset: real, zoom: real)
    ensures TextOffset(TopLeft, offset, zoom).width == -TextOffset(TopRight, offset, zoom).width
    ensures TextOffset(TopLeft, offset, zoom).height == TextOffset(TopRight, offset, zoom).height
    ensures TextOffset(BottomLeft, offset, zoom).height == -TextOffset(TopLeft, offset, zoom).height
    ensures TextOffset(BottomLeft, offset, zoom).width == TextOffset(TopLeft, offset, zoom).width
  {
  }
}
