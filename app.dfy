/**
 * `class AppDelegate`: the overlay's visibility and lock state machine and
 * the per-refresh pointer step. The overlay window is reduced to the three
 * things the core changes about it: its frame, its alpha value and whether
 * it is ordered on screen (plus `ignoresMouseEvents`, which the origin
 * marker toggles). The display registry and the global pointer are
 * parameters of the steps that query them.
 */
module App {
  import opened Wrappers
  import opened Geometry
  import opened Settings
  import opened Screens
  import L = Layers
  import Crosshair

  /** The visibility and lock flags of the delegate and its window. */
  datatype WindowFlags = WindowFlags(enabled: bool, locked: bool, suspended: bool,
                                     onScreen: bool, lastWindowState: Option<bool>)

  /** Mouse updates run exactly while the overlay is enabled and on screen. */
  predicate Consistent(f: WindowFlags) {
    f.suspended == !f.enabled && f.onScreen == f.enabled && f.lastWindowState != Some(false)
  }

  /** `hideBoreSightWindow()`. */
  function Hidden(f: WindowFlags, keepLocked: bool): (h: WindowFlags)
    ensures !h.enabled && h.suspended && !h.onScreen
    ensures h.locked == (f.locked && keepLocked)
    ensures h.lastWindowState == f.lastWindowState
    ensures Consistent(f) ==> Consistent(h)
  {
    f.(enabled := false, locked := f.locked && keepLocked, suspended := true, onScreen := false)
  }

  /** `showBoreSightWindow()`. */
  function Shown(f: WindowFlags, keepLocked: bool): (s: WindowFlags)
    ensures s.enabled && !s.suspended && s.onScreen
    ensures s.locked == (f.locked && keepLocked)
    ensures s.lastWindowState == f.lastWindowState
    ensures Consistent(f) ==> Consistent(s)
  {
    f.(enabled := true, locked := f.locked && keepLocked, suspended := false, onScreen := true)
  }

  /** `toggleBoreSightWindow()`. */
  function WindowToggled(f: WindowFlags, keepLocked: bool): (t: WindowFlags)
    ensures t.enabled == !f.enabled && t.suspended == f.enabled
    ensures t.locked == (f.locked && keepLocked)
    ensures Consistent(f) ==> Consistent(t)
  {
    if f.enabled then Hidden(f, keepLocked) else Shown(f, keepLocked)
  }

  /** Two window toggles restore visibility; the lock survives only when kept on hide. */
  lemma WindowToggledTwice(f: WindowFlags, keepLocked: bool)
    requires Consistent(f)
    ensures var t := WindowToggled(WindowToggled(f, keepLocked), keepLocked);
      t.enabled == f.enabled && t.suspended == f.suspended && t.onScreen == f.onScreen &&
      t.lastWindowState == f.lastWindowState && t.locked == (f.locked && keepLocked)
  {
  }

  /** `toggleLockedBoreSight()`: only the lock flips. */
  function LockToggled(f: WindowFlags): (t: WindowFlags)
    ensures t.locked == !f.locked
    ensures t.(locked := f.locked) == f
  {
    f.(locked := !f.locked)
  }

  /** `showSettingsWindow(_:)`'s handling of the overlay. */
  function SettingsOpened(f: WindowFlags, hideOnOpen: bool, keepLocked: bool): (s: WindowFlags)
    ensures hideOnOpen && f.enabled ==> s == Hidden(f, keepLocked).(lastWindowState := Some(true))
    ensures hideOnOpen && !f.enabled ==> s == f.(lastWindowState := None)
    ensures !hideOnOpen ==> s == f
    ensures Consistent(f) ==> Consistent(s)
  {
    if hideOnOpen && f.enabled then
      Hidden(f.(lastWindowState := Some(true)), keepLocked)
    else if hideOnOpen && !f.enabled then
      f.(lastWindowState := None)
    else f
  }

  /** `windowWillClose(_:)` for the settings window. */
  function SettingsClosed(f: WindowFlags, keepLocked: bool): (s: WindowFlags)
    ensures f.lastWindowState == Some(true) && !f.enabled ==>
      s == Shown(f, keepLocked).(lastWindowState := None)
    ensures !(f.lastWindowState == Some(true) && !f.enabled) ==> s == f
    ensures Consistent(f) ==> Consistent(s)
  {
    if f.lastWindowState == Some(true) && !f.enabled then
      Shown(f.(lastWindowState := None), keepLocked)
    else f
  }

  /**
   * Opening the settings with hide-on-open while the overlay is shown, then
   * closing them, brings the overlay back and clears the remembered state.
   */
  lemma SettingsOpenCloseRestores(f: WindowFlags, keepLocked: bool)
    requires Consistent(f) && f.enabled
    ensures var s := SettingsClosed(SettingsOpened(f, true, keepLocked), keepLocked);
      s.enabled && !s.suspended && s.onScreen && s.lastWindowState == None &&
      s.locked == (f.locked && keepLocked)
  {
  }

  /** Closing the settings never shows an overlay the user hid before opening them. */
  lemma SettingsCloseKeepsHidden(f: WindowFlags, hideOnOpen: bool, keepLocked: bool)
    requires Consistent(f) && !f.enabled
    ensures !SettingsClosed(SettingsOpened(f, hideOnOpen, keepLocked), keepLocked).enabled ||
            (!hideOnOpen && f.lastWindowState == Some(true))
  {
  }

  /** The deferred `didSet` of `hideBoreSightWhenSettingsOpen`, taken synchronously. */
  function HideOnOpenChanged(f: WindowFlags, hideOnOpen: bool): (s: WindowFlags)
    ensures !hideOnOpen ==> s == f.(lastWindowState := None)
    ensures hideOnOpen ==> s == f
  {
    if !hideOnOpen then f.(lastWindowState := None) else f
  }

  /** The deferred `didSet` of `keepBoreSightLocked`, taken synchronously. */
  function KeepLockedChanged(f: WindowFlags, keepLocked: bool): (s: WindowFlags)
    ensures !keepLocked && !f.enabled ==> s == f.(locked := false)
    ensures keepLocked || f.enabled ==> s == f
  {
    if !keepLocked && !f.enabled then f.(locked := false) else f
  }

  /**
   * The fixed screen's frame as the pointer step tests it: 2 points shorter
   * when it is the bottom screen (the first of lowest origin.y).
   */
  function AdjustedFrame(frames: seq<Rect>, i: nat): (r: Rect)
    requires i < |frames|
    ensures r.origin == frames[i].origin && r.size.width == frames[i].size.width
    ensures LowestScreen(frames) == Some(i) ==> r.size.height == frames[i].size.height - 2.0
    ensures LowestScreen(frames) != Some(i) ==> r == frames[i]
  {
    var f := frames[i];
    if LowestScreen(frames) == Some(i) then
      Rect(f.origin, Size(f.size.width, f.size.height - 2.0))
    else f
  }

  /** The "presence fade": fully opaque exactly while the global pointer is on the fixed screen. */
  function PresenceAlpha(frames: seq<Rect>, i: nat, global: Point): (a: real)
    requires i < |frames|
    ensures a == 1.0 || a == 0.0
    ensures a == 1.0 <==> InTolerance(AdjustedFrame(frames, i), global)
  {
    if InTolerance(AdjustedFrame(frames, i), global) then 1.0 else 0.0
  }

  /**
   * On the bottom screen the band of the top 2 points (and the tolerance
   * above it) counts as off screen; on every other screen the whole
   * tolerant frame counts as on it.
   */
  lemma PresenceAlphaBands(frames: seq<Rect>, i: nat, global: Point)
    requires i < |frames|
    ensures var f := frames[i];
      LowestScreen(frames) == Some(i) ==>
        (PresenceAlpha(frames, i, global) == 1.0 <==>
          MinX(f) - 1.0 <= global.x < MaxX(f) + 1.0 && MinY(f) - 1.0 <= global.y < MaxY(f) - 1.0)
    ensures LowestScreen(frames) != Some(i) ==>
      (PresenceAlpha(frames, i, global) == 1.0 <==> InTolerance(frames[i], global))
  {
  }

  /**
   * The window's alpha after one pointer step, as `updateMouseLocation()`
   * is written: only the fixed-screen branch writes it, so in followCursor
   * mode the previous value stays.
   */
  function TickAlphaAsWritten(mode: DisplayMode, fixedIndex: int, frames: seq<Rect>,
                              global: Point, alpha: real): (a: real)
    ensures mode == FixedScreen && 0 <= fixedIndex < |frames| ==> a == PresenceAlpha(frames, fixedIndex, global)
    ensures !(mode == FixedScreen && 0 <= fixedIndex < |frames|) ==> a == alpha
  {
    if mode == FixedScreen && 0 <= fixedIndex < |frames| then PresenceAlpha(frames, fixedIndex, global)
    else alpha
  }

  /**
   * As written, leaving fixedScreen mode while the pointer is off the fixed
   * screen leaves the overlay fully transparent in followCursor mode: two
   * side-by-side screens, fixed screen 1, pointer on screen 0.
   */
  lemma AlphaStuckAsWritten()
    ensures var frames := [Rect(Point(0.0, 0.0), Size(1920.0, 1080.0)),
                           Rect(Point(1920.0, 0.0), Size(1920.0, 1080.0))];
      var p := Point(500.0, 500.0);
      var faded := TickAlphaAsWritten(FixedScreen, 1, frames, p, 1.0);
      faded == 0.0 && TickAlphaAsWritten(FollowCursor, 1, frames, p, faded) == 0.0
  {
    var frames := [Rect(Point(0.0, 0.0), Size(1920.0, 1080.0)),
                   Rect(Point(1920.0, 0.0), Size(1920.0, 1080.0))];
    var p := Point(500.0, 500.0);
    assert !InTolerance(AdjustedFrame(frames, 1), p);
  }

  /**
   * The alpha after one pointer step with the presence fade confined to
   * fixedScreen mode: followCursor mode shows the overlay fully opaque.
   */
  function TickAlpha(mode: DisplayMode, fixedIndex: int, frames: seq<Rect>,
                     global: Point, alpha: real): (a: real)
    ensures mode == FixedScreen && 0 <= fixedIndex < |frames| ==> a == PresenceAlpha(frames, fixedIndex, global)
    ensures mode == FixedScreen && !(0 <= fixedIndex < |frames|) ==> a == alpha
    ensures mode == FollowCursor ==> a == 1.0
  {
    match mode
    case FollowCursor => 1.0
    case FixedScreen => TickAlphaAsWritten(mode, fixedIndex, frames, global, alpha)
  }

  /** With the correction, a step in followCursor mode always restores full opacity, whatever came before. */
  lemma FollowModeRestoresOpacity(frames: seq<Rect>, fixedIndex: int, global: Point, alpha: real)
    ensures TickAlpha(FollowCursor, fixedIndex, frames, global,
                      TickAlpha(FixedScreen, fixedIndex, frames, global, alpha)) == 1.0
    ensures alpha == 1.0 || alpha == 0.0 ==>
      TickAlpha(FixedScreen, fixedIndex, frames, global, alpha) == 1.0 ||
      TickAlpha(FixedScreen, fixedIndex, frames, global, alpha) == 0.0
  {
  }

  class AppDelegate {
    const model: Crosshair.CrosshairModel

    var boreSightEnabled: bool
    var boreSightLocked: bool
    var suspendMouseUpdates: bool
    var lastWindowState: Option<bool>

    var lastBorderState: bool
    var lastGapState: bool
    var lastCrosshairState: bool

    var currentScreen: Option<nat>

    /** `boreSightWindow`'s frame, alpha value, ordering and mouse-event pass-through. */
    var windowFrame: Rect
    var windowAlpha: real
    var windowOnScreen: bool
    var windowIgnoresMouseEvents: bool

    /**
     * The delegate after launch: `createBoreSightWindow()` sizes the model
     * to the target screen and puts the window on it, and the first
     * `showBoreSightWindow()` starts the display link on that screen. With
     * no target screen no window is created.
     */
    constructor (frames: seq<Rect>, main: Option<nat>, global: Point)
      requires ValidRegistry(frames, main)
      ensures fresh(model)
      ensures model.displayMode == FollowCursor && model.mouseOriginPosition == Point(100.0, 100.0)
      ensures boreSightEnabled && !boreSightLocked && !suspendMouseUpdates && lastWindowState == None
      ensures !lastBorderState && !lastGapState && !lastCrosshairState
      ensures windowAlpha == 1.0 && windowIgnoresMouseEvents
      ensures var t := TargetScreen(FollowCursor, 0, frames, main, global);
        if t.Some? then
          currentScreen == t && model.currentScreenSize == frames[t.value].size &&
          windowFrame == frames[t.value] && windowOnScreen && Consistent(Flags())
        else
          currentScreen == None && model.currentScreenSize == Size(0.0, 0.0) && !windowOnScreen
      ensures var r := ScreenAndLocalPoint(frames, main, global);
        currentScreen == if r.Some? then Some(r.value.screen) else None
    {
      var m := new Crosshair.CrosshairModel();
      var target := TargetScreen(m.displayMode, m.fixedScreenIndex, frames, main, global);
      TargetScreenIsSampleScreen(frames, main, global, 0);
      var frame := Rect(Point(0.0, 0.0), Size(0.0, 0.0));
      if target.Some? {
        frame := frames[target.value];
        m.currentScreenSize := frame.size;
      }
      model := m;
      boreSightEnabled := true;
      boreSightLocked := false;
      suspendMouseUpdates := false;
      lastWindowState := None;
      lastBorderState := false;
      lastGapState := false;
      lastCrosshairState := false;
      windowFrame := frame;
      windowAlpha := 1.0;
      windowIgnoresMouseEvents := true;
      windowOnScreen := target.Some?;
      currentScreen := target;
    }

    function Flags(): WindowFlags
      reads this`boreSightEnabled, this`boreSightLocked, this`suspendMouseUpdates,
            this`windowOnScreen, this`lastWindowState
    {
      WindowFlags(boreSightEnabled, boreSightLocked, suspendMouseUpdates, windowOnScreen, lastWindowState)
    }

    /** The snapshot `toggleCrosshairs()` restores from. */
    function SavedLayers(): L.Layers
      reads this`lastCrosshairState, this`lastBorderState, this`lastGapState
    {
      L.Layers(lastCrosshairState, lastBorderState, lastGapState)
    }

    /** `hideBoreSightWindow()`. */
    method HideBoreSightWindow()
      modifies this`boreSightEnabled, this`boreSightLocked, this`suspendMouseUpdates, this`windowOnScreen
      ensures Flags() == Hidden(old(Flags()), model.keepBoreSightLocked)
    {
      boreSightEnabled := false;
      if !model.keepBoreSightLocked {
        boreSightLocked := false;
      }
      suspendMouseUpdates := true;
      windowOnScreen := false;
    }

    /** `showBoreSightWindow()` once the window and its display link exist. */
    method ShowBoreSightWindow()
      modifies this`boreSightEnabled, this`boreSightLocked, this`suspendMouseUpdates, this`windowOnScreen
      ensures Flags() == Shown(old(Flags()), model.keepBoreSightLocked)
    {
      suspendMouseUpdates := false;
      boreSightEnabled := true;
      if !model.keepBoreSightLocked {
        boreSightLocked := false;
      }
      windowOnScreen := true;
    }

    /** `toggleBoreSightWindow()`. */
    method ToggleBoreSightWindow()
      modifies this`boreSightEnabled, this`boreSightLocked, this`suspendMouseUpdates, this`windowOnScreen
      ensures Flags() == WindowToggled(old(Flags()), model.keepBoreSightLocked)
    {
      if boreSightEnabled {
        HideBoreSightWindow();
      } else {
        ShowBoreSightWindow();
      }
    }

    /** `toggleLockedBoreSight()` (the status message is not modelled). */
    method ToggleLockedBoreSight()
      modifies this`boreSightLocked
      ensures Flags() == LockToggled(old(Flags()))
    {
      boreSightLocked := !boreSightLocked;
    }

    /** `toggleCrosshairs()`. */
    method ToggleCrosshairs()
      modifies this`lastBorderState, this`lastGapState, this`lastCrosshairState,
               model`crossHairsShown, model`borderOn, model`gapShown
      ensures var t := L.CombinedToggle(old(model.ShownLayers()), old(SavedLayers()));
        model.ShownLayers() == t.shown && SavedLayers() == t.saved
    {
      var anyVisible := model.crossHairsShown || model.borderOn || model.gapShown;
      if anyVisible {
        lastBorderState := model.borderOn;
        lastGapState := model.gapShown;
        lastCrosshairState := model.crossHairsShown;

        model.crossHairsShown := false;
        model.borderOn := false;
        model.gapShown := false;
      } else {
        model.borderOn := lastBorderState;
        model.gapShown := lastGapState;
        model.crossHairsShown := lastCrosshairState;
      }
    }

    /** `toggleMouseOrigin()`. */
    method ToggleMouseOrigin()
      modifies model`mouseOriginShown
      ensures model.mouseOriginShown == !old(model.mouseOriginShown)
    {
      model.mouseOriginShown := !model.mouseOriginShown;
    }

    /** `toggleMouseCoordinatesWindow()`. */
    method ToggleMouseCoordinatesWindow()
      modifies model`mouseCoordinatesText
      ensures model.mouseCoordinatesText == !old(model.mouseCoordinatesText)
    {
      if model.mouseCoordinatesText {
        model.mouseCoordinatesText := false;
      } else {
        model.mouseCoordinatesText := true;
      }
    }

    /** `enableOverlayEditing(_:)`: the window takes mouse events only while editing. */
    method EnableOverlayEditing(enabled: bool)
      modifies this`windowIgnoresMouseEvents
      ensures windowIgnoresMouseEvents == !enabled
    {
      windowIgnoresMouseEvents := !enabled;
    }

    /** `initalizeMouseMonitor()`'s choice of the starting screen (the display link itself is not modelled). */
    method InitializeMouseMonitor(frames: seq<Rect>, main: Option<nat>, global: Point)
      modifies this`currentScreen
      ensures currentScreen ==
        TargetScreen(model.displayMode, model.fixedScreenIndex, frames, main, global)
    {
      currentScreen := TargetScreen(model.displayMode, model.fixedScreenIndex, frames, main, global);
    }

    /** `showSettingsWindow(_:)`'s handling of the overlay (the window itself is not modelled). */
    method ShowSettingsWindow()
      modifies this`lastWindowState, this`boreSightEnabled, this`boreSightLocked,
               this`suspendMouseUpdates, this`windowOnScreen
      ensures Flags() == SettingsOpened(old(Flags()), model.hideBoreSightWhenSettingsOpen,
                                        model.keepBoreSightLocked)
    {
      if model.hideBoreSightWhenSettingsOpen && boreSightEnabled {
        lastWindowState := Some(true);
        HideBoreSightWindow();
      } else if model.hideBoreSightWhenSettingsOpen && !boreSightEnabled {
        lastWindowState := None;
      }
    }

    /** `windowWillClose(_:)` when the closing window is the settings window. */
    method SettingsWindowWillClose()
      modifies this`lastWindowState, this`boreSightEnabled, this`boreSightLocked,
               this`suspendMouseUpdates, this`windowOnScreen
      ensures Flags() == SettingsClosed(old(Flags()), model.keepBoreSightLocked)
    {
      if lastWindowState == Some(true) && !boreSightEnabled {
        lastWindowState := None;
        ShowBoreSightWindow();
      }
    }

    /** Setting `hideBoreSightWhenSettingsOpen`, with its `didSet` hop taken at once. */
    method SetHideBoreSightWhenSettingsOpen(hideOnOpen: bool)
      modifies model`hideBoreSightWhenSettingsOpen, this`lastWindowState
      ensures model.hideBoreSightWhenSettingsOpen == hideOnOpen
      ensures Flags() == HideOnOpenChanged(old(Flags()), hideOnOpen)
    {
      model.hideBoreSightWhenSettingsOpen := hideOnOpen;
      if !model.hideBoreSightWhenSettingsOpen {
        lastWindowState := None;
      }
    }

    /** Setting `keepBoreSightLocked`, with its `didSet` hop taken at once. */
    method SetKeepBoreSightLocked(keepLocked: bool)
      modifies model`keepBoreSightLocked, this`boreSightLocked
      ensures model.keepBoreSightLocked == keepLocked
      ensures Flags() == KeepLockedChanged(old(Flags()), keepLocked)
    {
      model.keepBoreSightLocked := keepLocked;
      if !model.keepBoreSightLocked && !boreSightEnabled {
        boreSightLocked := false;
      }
    }

    /**
     * Setting `isAutomaticDisplay`, with the `displayMode` `didSet` hop
     * taken at once: the window moves onto the new target screen, if any.
     */
    method SetAutomaticDisplay(automatic: bool, frames: seq<Rect>, main: Option<nat>, global: Point)
      requires ValidRegistry(frames, main)
      modifies model`displayMode, this`windowFrame
      ensures model.IsAutomaticDisplay() == automatic
      ensures var t := TargetScreen(model.displayMode, model.fixedScreenIndex, frames, main, global);
        windowFrame == if t.Some? && t.value < |frames| then frames[t.value] else old(windowFrame)
    {
      model.SetAutomaticDisplay(automatic);
      var t := TargetScreen(model.displayMode, model.fixedScreenIndex, frames, main, global);
      if t.Some? && t.value < |frames| {
        windowFrame := frames[t.value];
      }
    }

    /**
     * `changingFixedScreen()`: size the model and the window to the fixed
     * screen and centre the origin on it. Swift traps on a negative index,
     * which the guard `index < NSScreen.screens.count` lets through.
     */
    method ChangingFixedScreen(frames: seq<Rect>)
      requires model.fixedScreenIndex >= 0
      modifies model`currentScreenSize, model`mouseOriginPosition, this`windowFrame
      ensures var i := model.fixedScreenIndex;
        if i < |frames| then
          model.currentScreenSize == frames[i].size &&
          model.mouseOriginPosition == Center(frames[i].size) && windowFrame == frames[i]
        else
          model.currentScreenSize == old(model.currentScreenSize) &&
          model.mouseOriginPosition == old(model.mouseOriginPosition) &&
          windowFrame == old(windowFrame)
    {
      var index := model.fixedScreenIndex;
      if index >= |frames| {
        return;
      }
      var screen := frames[index];
      model.currentScreenSize := screen.size;
      model.mouseOriginPosition := Point(screen.size.width / 2.0, screen.size.height / 2.0);
      windowFrame := screen;
    }

    /**
     * `updateMouseLocation()`, the per-refresh step. Nothing happens while
     * suspended, while locked, or when there is no screen to sample.
     * Otherwise the pointer becomes the sample's local point; in
     * followCursor mode a change of screen resizes and re-centres the
     * overlay; in fixedScreen mode the alpha becomes the presence fade
     * (Swift traps on a negative fixed index, which the guard lets through).
     * The alpha follows the corrected `TickAlpha`: the followCursor branch
     * makes the overlay opaque again, which the Swift branch omits
     * (`AlphaStuckAsWritten`).
     */
    method UpdateMouseLocation(frames: seq<Rect>, main: Option<nat>, global: Point)
      requires ValidRegistry(frames, main)
      requires model.displayMode == FixedScreen ==> model.fixedScreenIndex >= 0
      modifies this`currentScreen, this`windowFrame, this`windowAlpha,
               model`mouseLocation, model`currentScreenSize, model`mouseOriginPosition
      ensures var r := ScreenAndLocalPoint(frames, main, global);
        var skipped := suspendMouseUpdates || boreSightLocked || r.None?;
        var screenChanged := !skipped && model.displayMode == FollowCursor &&
                             old(currentScreen) != Some(r.value.screen);
        var i := model.fixedScreenIndex;
        (model.mouseLocation == if skipped then old(model.mouseLocation) else r.value.local) &&
        (if screenChanged then
           currentScreen == Some(r.value.screen) &&
           model.currentScreenSize == frames[r.value.screen].size &&
           model.mouseOriginPosition == Center(frames[r.value.screen].size) &&
           windowFrame == frames[r.value.screen]
         else
           currentScreen == old(currentScreen) &&
           model.currentScreenSize == old(model.currentScreenSize) &&
           model.mouseOriginPosition == old(model.mouseOriginPosition) &&
           windowFrame == old(windowFrame)) &&
        (windowAlpha ==
           if skipped then old(windowAlpha)
           else TickAlpha(model.displayMode, i, frames, global, old(windowAlpha)))
    {
      if suspendMouseUpdates {
        return;
      }
      var r := ScreenAndLocalPoint(frames, main, global);
      if !boreSightLocked && r.Some? {
        var sample := r.value;
        model.mouseLocation := sample.local;
        match model.displayMode {
          case FollowCursor =>
            windowAlpha := 1.0;
            if currentScreen != Some(sample.screen) {
              var frame := frames[sample.screen];
              currentScreen := Some(sample.screen);
              model.currentScreenSize := frame.size;
              model.mouseOriginPosition := Point(frame.size.width / 2.0, frame.size.height / 2.0);
              windowFrame := frame;
            }
          case FixedScreen =>
            var fixedIndex := model.fixedScreenIndex;
            if fixedIndex >= |frames| {
              return;
            }
            if InTolerance(AdjustedFrame(frames, fixedIndex), global) {
              windowAlpha := 1.0;
            } else {
              windowAlpha := 0.0;
            }
        }
      }
    }
  }
}
