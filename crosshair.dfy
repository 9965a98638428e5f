/**
 * `class CrosshairModel`: the observable state shared by the overlay, the
 * settings window and the app delegate. Only the fields the core reads or
 * writes are modelled; `@Published` change notification and the `didSet`
 * persistence writes are not, except for the text-position write (see
 * `SetMouseCoordinatesTextPosition`).
 */
module Crosshair {
  import opened Wrappers
  import opened Geometry
  import opened Settings
  import L = Layers
  import Readout
  import Codecs

  class CrosshairModel {
    var mouseLocation: Point
    var currentScreenSize: Size

    var showingAlerts: bool
    var mouseCoordinatesText: bool
    var crossHairsShown: bool
    var gapShown: bool
    var borderOn: bool
    var everythingShown: bool
    var mouseOriginShown: bool
    var mouseOriginPosition: Point
    var hideBoreSightWhenSettingsOpen: bool
    var keepBoreSightLocked: bool
    var displayMode: DisplayMode
    var fixedScreenIndex: int

    var gapSize: real
    var gapType: GapType
    var gapBorderThickness: real
    var gapBorderColor: Colour
    var gapBorderTransparency: real

    var borderThickness: real
    var borderColor: Colour
    var borderTransparency: real

    var mouseCoordinatesTextOffset: real
    var mouseCoordinatesTextPosition: TextPosition
    var mouseCoordinatesTextZoom: real

    var crossHairColor: Colour
    var crossHairWidth: real
    var crossHairTransparency: real

    /** The declared initial values (loading persisted settings is not modelled). */
    constructor ()
      ensures mouseLocation == Point(0.0, 0.0) && currentScreenSize == Size(0.0, 0.0)
      ensures showingAlerts && mouseCoordinatesText && crossHairsShown && gapShown && borderOn
      ensures everythingShown && mouseOriginShown
      ensures mouseOriginPosition == Point(100.0, 100.0)
      ensures hideBoreSightWhenSettingsOpen && keepBoreSightLocked
      ensures displayMode == FollowCursor && fixedScreenIndex == 0
      ensures gapSize == 30.0 && gapType == NoGap && gapBorderThickness == 1.0
      ensures gapBorderColor == White && gapBorderTransparency == 1.0
      ensures borderThickness == 1.0 && borderColor == White && borderTransparency == 1.0
      ensures mouseCoordinatesTextOffset == 0.0 && mouseCoordinatesTextPosition == BottomRight
      ensures mouseCoordinatesTextZoom == 0.0
      ensures crossHairColor == Red && crossHairWidth == 2.0 && crossHairTransparency == 1.0
    {
      mouseLocation := Point(0.0, 0.0);
      currentScreenSize := Size(0.0, 0.0);
      showingAlerts := true;
      mouseCoordinatesText := true;
      crossHairsShown := true;
      gapShown := true;
      borderOn := true;
      everythingShown := true;
      mouseOriginShown := true;
      mouseOriginPosition := Point(100.0, 100.0);
      hideBoreSightWhenSettingsOpen := true;
      keepBoreSightLocked := true;
      displayMode := FollowCursor;
      fixedScreenIndex := 0;
      gapSize := 30.0;
      gapType := NoGap;
      gapBorderThickness := 1.0;
      gapBorderColor := White;
      gapBorderTransparency := 1.0;
      borderThickness := 1.0;
      borderColor := White;
      borderTransparency := 1.0;
      mouseCoordinatesTextOffset := 0.0;
      mouseCoordinatesTextPosition := BottomRight;
      mouseCoordinatesTextZoom := 0.0;
      crossHairColor := Red;
      crossHairWidth := 2.0;
      crossHairTransparency := 1.0;
    }

    /** The three layer flags the combined toggle and the hover handler act on. */
    function ShownLayers(): L.Layers
      reads this`crossHairsShown, this`borderOn, this`gapShown
    {
      L.Layers(crossHairsShown, borderOn, gapShown)
    }

    /** The gap group of `resetAppearance()`. */
    method ResetGapAppearance()
      modifies this`gapShown, this`gapSize, this`gapType, this`gapBorderColor,
               this`gapBorderThickness, this`gapBorderTransparency
      ensures gapShown && gapSize == 30.0 && gapType == NoGap && gapBorderColor == White
      ensures gapBorderThickness == 1.0 && gapBorderTransparency == 1.0
    {
      gapShown := true;
      gapSize := 30.0;
      gapType := NoGap;
      gapBorderColor := White;
      gapBorderThickness := 1.0;
      gapBorderTransparency := 1.0;
    }

    /** The border group of `resetAppearance()`. */
    method ResetBorderAppearance()
      modifies this`borderOn, this`borderThickness, this`borderColor, this`borderTransparency
      ensures borderOn && borderThickness == 1.0 && borderColor == White && borderTransparency == 1.0
    {
      borderOn := true;
      borderThickness := 1.0;
      borderColor := White;
      borderTransparency := 1.0;
    }

    /** The crosshair group of `resetAppearance()`. */
    method ResetCrosshairAppearance()
      modifies this`crossHairsShown, this`crossHairColor, this`crossHairWidth, this`crossHairTransparency
      ensures crossHairsShown && crossHairColor == Red && crossHairWidth == 2.0
      ensures crossHairTransparency == 1.0
    {
      crossHairsShown := true;
      crossHairColor := Red;
      crossHairWidth := 2.0;
      crossHairTransparency := 1.0;
    }

    /** The coordinate-label group of `resetAppearance()`. */
    method ResetLabelAppearance()
      modifies this`mouseCoordinatesText, this`mouseCoordinatesTextOffset,
               this`mouseCoordinatesTextZoom, this`mouseCoordinatesTextPosition
      ensures mouseCoordinatesText && mouseCoordinatesTextOffset == 0.0
      ensures mouseCoordinatesTextZoom == 0.0 && mouseCoordinatesTextPosition == BottomRight
    {
      mouseCoordinatesText := true;
      mouseCoordinatesTextOffset := 0.0;
      mouseCoordinatesTextZoom := 0.0;
      mouseCoordinatesTextPosition := BottomRight;
    }

    /**
     * `resetAppearance()`: every appearance setting back to its declared
     * default. The frame lists exactly what may change, so pointer, origin,
     * screen, display mode and behaviour settings keep their values.
     */
    method ResetAppearance()
      modifies this`gapShown, this`gapSize, this`gapType, this`gapBorderColor,
               this`gapBorderThickness, this`gapBorderTransparency,
               this`borderOn, this`borderThickness, this`borderColor, this`borderTransparency,
               this`crossHairsShown, this`crossHairColor, this`crossHairWidth,
               this`crossHairTransparency, this`mouseCoordinatesText,
               this`mouseCoordinatesTextOffset, this`mouseCoordinatesTextZoom,
               this`mouseCoordinatesTextPosition, this`everythingShown, this`mouseOriginShown
      ensures gapShown && borderOn && crossHairsShown && mouseCoordinatesText
      ensures everythingShown && mouseOriginShown
      ensures gapSize == 30.0 && gapType == NoGap && gapBorderColor == White
      ensures gapBorderThickness == 1.0 && gapBorderTransparency == 1.0
      ensures borderThickness == 1.0 && borderColor == White && borderTransparency == 1.0
      ensures crossHairColor == Red && crossHairWidth == 2.0 && crossHairTransparency == 1.0
      ensures mouseCoordinatesTextOffset == 0.0 && mouseCoordinatesTextZoom == 0.0
      ensures mouseCoordinatesTextPosition == BottomRight
    {
      ResetGapAppearance();
      ResetBorderAppearance();
      ResetCrosshairAppearance();
      ResetLabelAppearance();
      everythingShown := true;
      mouseOriginShown := true;
    }

    /** The getter of `isAutomaticDisplay`. */
    predicate IsAutomaticDisplay()
      reads this`displayMode
    {
      IsAutomatic(displayMode)
    }

    /** The setter of `isAutomaticDisplay`; reading it back gives what was set. */
    method SetAutomaticDisplay(automatic: bool)
      modifies this`displayMode
      ensures displayMode == (if automatic then FollowCursor else FixedScreen)
      ensures IsAutomaticDisplay() == automatic
    {
      displayMode := ModeFor(automatic);
    }

    /** `computedOffset`, read from the model's label settings. */
    function ComputedOffset(): (s: Size)
      reads this`mouseCoordinatesTextPosition, this`mouseCoordinatesTextOffset,
            this`mouseCoordinatesTextZoom
    {
      Readout.TextOffset(mouseCoordinatesTextPosition, mouseCoordinatesTextOffset,
                         mouseCoordinatesTextZoom)
    }

    /** `calculateDistance()`, read from the model's pointer, origin and screen height. */
    function CalculateDistance(): Readout.Delta
      reads this`mouseLocation, this`mouseOriginPosition, this`currentScreenSize
    {
      Readout.Distance(mouseLocation, mouseOriginPosition, currentScreenSize.height)
    }

    /**
     * Setting `mouseCoordinatesTextPosition` together with its `didSet`
     * write, using the key the initializer reads back, so that the
     * position survives a relaunch.
     */
    method SetMouseCoordinatesTextPosition(p: TextPosition, d: Codecs.Defaults)
      modifies this`mouseCoordinatesTextPosition, d
      ensures mouseCoordinatesTextPosition == p
      ensures d.store == Codecs.PersistTextPosition(old(d.store), p)
      ensures Codecs.LoadTextPosition(d.store) == Some(p)
    {
      mouseCoordinatesTextPosition := p;
      d.WriteTextPosition(p);
    }
  }
}
