/**
 * The pure geometry of the overlay view `FullScreenCrosshairs`: the two
 * edge clamps (`clampedMagnifierPosition` and
 * `clampedCoordinateTextPosition` have the same body, so both are `Clamp`),
 * the closed on-screen test, the origin reset on appear, and where the
 * magnifier and the coordinate label are placed.
 */
module Layout {
  import opened Geometry

  /** One axis of the clamp: keep a box of the given extent centred at v inside [0, limit]. */
  function ClampAxis(v: real, limit: real, extent: real): (r: real)
    ensures 0.0 <= v - extent / 2.0 && v + extent / 2.0 <= limit ==> r == v
    ensures extent <= limit ==> 0.0 <= r - extent / 2.0 && r + extent / 2.0 <= limit
    ensures v - extent / 2.0 < 0.0 ==> r == extent / 2.0
    ensures v - extent / 2.0 >= 0.0 && v + extent / 2.0 > limit ==> r == limit - extent / 2.0
  {
    if v - extent / 2.0 < 0.0 then extent / 2.0
    else if v + extent / 2.0 > limit then limit - extent / 2.0
    else v
  }

  predicate Fits(box: Size, screen: Size) {
    box.width <= screen.width && box.height <= screen.height
  }

  /** The box of the given size centred at p lies within the screen. */
  predicate BoxOnScreen(p: Point, box: Size, screen: Size) {
    0.0 <= p.x - box.width / 2.0 && p.x + box.width / 2.0 <= screen.width &&
    0.0 <= p.y - box.height / 2.0 && p.y + box.height / 2.0 <= screen.height
  }

  /** `clampedMagnifierPosition(mouse:screenSize:magnifierSize:)`, also `clampedCoordinateTextPosition`. */
  function Clamp(p: Point, screen: Size, box: Size): (q: Point)
    ensures BoxOnScreen(p, box, screen) ==> q == p
    ensures Fits(box, screen) ==> BoxOnScreen(q, box, screen)
    ensures p.x - box.width / 2.0 < 0.0 ==> q.x == box.width / 2.0
    ensures p.y - box.height / 2.0 < 0.0 ==> q.y == box.height / 2.0
  {
    Point(ClampAxis(p.x, screen.width, box.width), ClampAxis(p.y, screen.height, box.height))
  }

  /** When the box fits, clamping twice is clamping once. */
  lemma ClampIdempotent(p: Point, screen: Size, box: Size)
    requires Fits(box, screen)
    ensures Clamp(Clamp(p, screen, box), screen, box) == Clamp(p, screen, box)
  {
  }

  /**
   * When the box is wider than the screen, the clamp is never idempotent
   * on that axis: it alternates between the two edges.
   */
  lemma ClampAxisAlternates(v: real, limit: real, extent: real)
    requires extent > limit
    ensures ClampAxis(ClampAxis(v, limit, extent), limit, extent) != ClampAxis(v, limit, extent)
    ensures ClampAxis(v, limit, extent) == extent / 2.0 || ClampAxis(v, limit, extent) == limit - extent / 2.0
  {
  }

  /** `isPointOnScreen(_:screenSize:)`: the closed rectangle [0, W] x [0, H]. */
  predicate IsPointOnScreen(p: Point, screen: Size) {
    p.x >= 0.0 && p.x <= screen.width && p.y >= 0.0 && p.y <= screen.height
  }

  /** The origin marker's `onAppear`: an off-screen origin moves to the screen centre. */
  function OriginOnAppear(origin: Point, screen: Size): (o: Point)
    ensures IsPointOnScreen(origin, screen) ==> o == origin
    ensures !IsPointOnScreen(origin, screen) ==> o == Center(screen)
    ensures screen.width >= 0.0 && screen.height >= 0.0 ==> IsPointOnScreen(o, screen)
  {
    if IsPointOnScreen(origin, screen) then origin else Center(screen)
  }

  /** `magnifierSize`. */
  const MagnifierSize := Size(120.0, 60.0)

  /** How far above the pointer the magnifier is centred before clamping. */
  const MagnifierLift: real := 75.0

  /** The crop rectangle cut from the captured frame: 120 x 60 centred on the pointer in image (Y-down) space. */
  function CropRect(mouse: Point, frameHeight: real): (r: Rect)
    ensures r.size == MagnifierSize
    ensures r.origin.x + r.size.width / 2.0 == mouse.x
    ensures r.origin.y + r.size.height / 2.0 + mouse.y == frameHeight
  {
    Rect(Point(mouse.x - MagnifierSize.width / 2.0, frameHeight - mouse.y - MagnifierSize.height / 2.0),
         MagnifierSize)
  }

  /** The magnifier's centre (Y-up): 75 points above the pointer, kept on screen. */
  function MagnifierCenter(mouse: Point, screen: Size): (c: Point)
    ensures Fits(MagnifierSize, screen) ==> BoxOnScreen(c, MagnifierSize, screen)
    ensures BoxOnScreen(Point(mouse.x, mouse.y + MagnifierLift), MagnifierSize, screen) ==>
      c == Point(mouse.x, mouse.y + MagnifierLift)
  {
    Clamp(Point(mouse.x, mouse.y + MagnifierLift), screen, MagnifierSize)
  }

  /**
   * The coordinate label's `.position`: the pointer moved by the computed
   * offset (its height counts downwards), clamped to the screen in Y-up
   * space, then flipped to SwiftUI's Y-down space.
   */
  function LabelPosition(mouse: Point, offset: Size, screen: Size, overlay: Size): (q: Point)
    ensures Fits(overlay, screen) ==>
      BoxOnScreen(Point(q.x, screen.height - q.y), overlay, screen)
    ensures var wanted := Point(mouse.x + offset.width, mouse.y - offset.height);
      BoxOnScreen(wanted, overlay, screen) ==> q == Point(wanted.x, screen.height - wanted.y)
  {
    var c := Clamp(Point(mouse.x + offset.width, mouse.y - offset.height), screen, overlay);
    Point(c.x, screen.height - c.y)
  }
}
