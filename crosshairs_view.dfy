/**
 * `struct FullScreenCrosshairs`: the overlay view's own state (hover and
 * drag of the origin marker, its private layer snapshot, the measured
 * size of the coordinate label) and the handlers that change it. The
 * captured frame the magnifier crops is a parameter: capturing it is not
 * part of this model.
 */
module CrosshairsView {
  import opened Wrappers
  import opened Geometry
  import L = Layers
  import Readout
  import Layout
  import Crosshair
  import App

  /** Two rectangles of positive size share a region of positive area (`CGRect.intersects`). */
  predicate Overlaps(a: Rect, b: Rect) {
    a.size.width > 0.0 && a.size.height > 0.0 && b.size.width > 0.0 && b.size.height > 0.0 &&
    MinX(a) < MaxX(b) && MinX(b) < MaxX(a) && MinY(a) < MaxY(b) && MinY(b) < MaxY(a)
  }

  function Max(a: real, b: real): real { if a < b then b else a }
  function Min(a: real, b: real): real { if a < b then a else b }

  /** `CGRect.intersection` of two overlapping rectangles. */
  function Intersection(a: Rect, b: Rect): (r: Rect)
    requires Overlaps(a, b)
    ensures r.size.width > 0.0 && r.size.height > 0.0
    ensures MinX(a) <= MinX(r) && MaxX(r) <= MaxX(a) && MinY(a) <= MinY(r) && MaxY(r) <= MaxY(a)
    ensures MinX(b) <= MinX(r) && MaxX(r) <= MaxX(b) && MinY(b) <= MinY(r) && MaxY(r) <= MaxY(b)
    ensures forall p: Point :: Contains(r, p) <==> Contains(a, p) && Contains(b, p)
  {
    var x0 := Max(MinX(a), MinX(b));
    var y0 := Max(MinY(a), MinY(b));
    Rect(Point(x0, y0), Size(Min(MaxX(a), MaxX(b)) - x0, Min(MaxY(a), MaxY(b)) - y0))
  }

  /** The bounds of a captured frame of the given pixel size. */
  function ImageBounds(image: Size): Rect { Rect(Point(0.0, 0.0), image) }

  /** What `magnifierView()` draws. */
  datatype Magnifier = NoMagnifier | Placeholder | Lens(crop: Rect, center: Point)

  /**
   * `magnifierView()`: only while the marker is both dragged and hovered;
   * a placeholder until a frame has been captured; otherwise the part of
   * the frame under the crop rectangle, or nothing when `cropping(to:)`
   * finds no overlap with the frame.
   */
  function MagnifierOf(dragging: bool, hovering: bool, image: Option<Size>,
                       mouse: Point, screen: Size): (m: Magnifier)
    ensures !(dragging && hovering) ==> m == NoMagnifier
    ensures dragging && hovering && image.None? ==> m == Placeholder
    ensures m.Lens? <==> dragging && hovering && image.Some? &&
                         Overlaps(Layout.CropRect(mouse, image.value.height), ImageBounds(image.value))
    ensures m.Lens? ==>
      forall p: Point :: Contains(m.crop, p) <==>
        Contains(Layout.CropRect(mouse, image.value.height), p) && Contains(ImageBounds(image.value), p)
    ensures m.Lens? && Layout.Fits(Layout.MagnifierSize, screen) ==>
      Layout.BoxOnScreen(m.center, Layout.MagnifierSize, screen)
    ensures m.Lens? && Layout.BoxOnScreen(Point(mouse.x, mouse.y + Layout.MagnifierLift), Layout.MagnifierSize, screen) ==>
      m.center == Point(mouse.x, mouse.y + Layout.MagnifierLift)
  {
    if !(dragging && hovering) then NoMagnifier
    else if image.None? then Placeholder
    else
      var crop := Layout.CropRect(mouse, image.value.height);
      var bounds := ImageBounds(image.value);
      if Overlaps(crop, bounds) then Lens(Intersection(crop, bounds), Layout.MagnifierCenter(mouse, screen))
      else NoMagnifier
  }

  /** A pointer inside the captured frame always yields a lens centred over it. */
  lemma PointerInFrameShowsLens(mouse: Point, image: Size, screen: Size)
    requires 0.0 <= mouse.x < image.width && 0.0 < mouse.y <= image.height
    ensures MagnifierOf(true, true, Some(image), mouse, screen).Lens?
    ensures Contains(MagnifierOf(true, true, Some(image), mouse, screen).crop,
                     Point(mouse.x, image.height - mouse.y))
  {
  }

  /** Dragging puts the origin under the pointer: the readout's distance becomes zero. */
  lemma DragZeroesDistance(mouse: Point, screenHeight: real)
    ensures Readout.Distance(mouse, Point(mouse.x, screenHeight - mouse.y), screenHeight) ==
            Readout.Delta(0.0, 0.0)
  {
  }

  class FullScreenCrosshairs {
    const app: App.AppDelegate
    const model: Crosshair.CrosshairModel

    var mouseOriginHover: bool
    var isDraggingOrigin: bool

    var lastBorderState: bool
    var lastGapState: bool
    var lastCrosshairState: bool

    var coordOverlaySize: Size

    /** The view as the delegate creates it, observing the delegate's model. */
    constructor (app: App.AppDelegate)
      ensures this.app == app && model == app.model
      ensures !mouseOriginHover && !isDraggingOrigin
      ensures !lastBorderState && !lastGapState && !lastCrosshairState
      ensures coordOverlaySize == Size(0.0, 0.0)
    {
      this.app := app;
      model := app.model;
      mouseOriginHover := false;
      isDraggingOrigin := false;
      lastBorderState := false;
      lastGapState := false;
      lastCrosshairState := false;
      coordOverlaySize := Size(0.0, 0.0);
    }

    /** The view's own hover snapshot of the three layers. */
    function SavedLayers(): L.Layers
      reads this`lastCrosshairState, this`lastBorderState, this`lastGapState
    {
      L.Layers(lastCrosshairState, lastBorderState, lastGapState)
    }

    /**
     * The origin marker's `onHover`: the hover flag follows the pointer
     * unless a drag is in progress, the layers are hidden and restored
     * around the hover, and the window takes mouse events while hovered.
     */
    method Hover(hovering: bool, mouseIsDown: bool)
      modifies this`mouseOriginHover, this`lastCrosshairState, this`lastBorderState, this`lastGapState,
               model`crossHairsShown, model`borderOn, model`gapShown, app`windowIgnoresMouseEvents
      ensures mouseOriginHover == if old(isDraggingOrigin) then old(mouseOriginHover) else hovering
      ensures var t := L.HoverStep(hovering, mouseIsDown, old(model.ShownLayers()), old(SavedLayers()));
        model.ShownLayers() == t.shown && SavedLayers() == t.saved
      ensures app.windowIgnoresMouseEvents == !hovering
    {
      if !isDraggingOrigin {
        mouseOriginHover := hovering;
      }
      if hovering && !mouseIsDown {
        lastCrosshairState := model.crossHairsShown;
        lastBorderState := model.borderOn;
        lastGapState := model.gapShown;
        model.crossHairsShown := false;
        model.borderOn := false;
        model.gapShown := false;
      } else if !hovering && !mouseIsDown {
        model.crossHairsShown := lastCrosshairState;
        model.borderOn := lastBorderState;
        model.gapShown := lastGapState;
      }
      app.EnableOverlayEditing(hovering);
    }

    /** The drag gesture's `onChanged`: the origin (Y-down) follows the pointer (Y-up). */
    method DragChanged()
      modifies this`isDraggingOrigin, model`mouseOriginPosition
      ensures isDraggingOrigin
      ensures model.mouseOriginPosition ==
        Point(model.mouseLocation.x, model.currentScreenSize.height - model.mouseLocation.y)
      ensures model.CalculateDistance() == Readout.Delta(0.0, 0.0)
    {
      isDraggingOrigin := true;
      model.mouseOriginPosition :=
        Point(model.mouseLocation.x, model.currentScreenSize.height - model.mouseLocation.y);
      DragZeroesDistance(model.mouseLocation, model.currentScreenSize.height);
    }

    /** The drag gesture's `onEnded`. */
    method DragEnded()
      modifies this`isDraggingOrigin
      ensures !isDraggingOrigin
    {
      isDraggingOrigin := false;
    }

    /** The origin marker's `onAppear`. */
    method OnAppear()
      modifies model`mouseOriginPosition
      ensures model.mouseOriginPosition ==
        Layout.OriginOnAppear(old(model.mouseOriginPosition), model.currentScreenSize)
    {
      if !Layout.IsPointOnScreen(model.mouseOriginPosition, model.currentScreenSize) {
        model.mouseOriginPosition :=
          Point(model.currentScreenSize.width / 2.0, model.currentScreenSize.height / 2.0);
      }
    }

    /** The label's size reader (`onAppear` and `onChange(of:)` of its geometry). */
    method OverlayMeasured(size: Size)
      modifies this`coordOverlaySize
      ensures coordOverlaySize == size
    {
      coordOverlaySize := size;
    }

    /** Where the coordinate label is placed, in the view's Y-down space. */
    function CoordinatesLabelPosition(): (q: Point)
      reads this`coordOverlaySize, model`mouseLocation, model`currentScreenSize,
            model`mouseCoordinatesTextPosition, model`mouseCoordinatesTextOffset,
            model`mouseCoordinatesTextZoom
      ensures Layout.Fits(coordOverlaySize, model.currentScreenSize) ==>
        Layout.BoxOnScreen(Point(q.x, model.currentScreenSize.height - q.y), coordOverlaySize,
                           model.currentScreenSize)
    {
      Layout.LabelPosition(model.mouseLocation, model.ComputedOffset(), model.currentScreenSize,
                           coordOverlaySize)
    }

    /** What the magnifier shows for the given captured frame. */
    function CurrentMagnifier(image: Option<Size>): (m: Magnifier)
      reads this`isDraggingOrigin, this`mouseOriginHover, model`mouseLocation, model`currentScreenSize
      ensures !(isDraggingOrigin && mouseOriginHover) ==> m == NoMagnifier
      ensures isDraggingOrigin && mouseOriginHover && image.None? ==> m == Placeholder
    {
      MagnifierOf(isDraggingOrigin, mouseOriginHover, image, model.mouseLocation, model.currentScreenSize)
    }
  }
}
