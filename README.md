# BoreSight core, modelled in Dafny

BoreSight is a macOS menu-bar app. It draws a full-screen crosshair overlay
and reads out where the pointer is relative to a movable origin. This project
models the logic behind the overlay and proves properties of it. The model
covers four areas:

- **Pointer and screen geometry.** The model picks the screen under the
  global pointer. Frames are an ordered `seq<Rect>` over `real` and are
  grown by 1 point of tolerance. `CGRect.contains` includes the min edges
  and excludes the max edges. When no frame matches, the main screen is the
  fallback; it is an optional index. The model also covers the
  screen-local translation, the pointer-minus-origin distance (the pointer
  is Y-up, the origin is stored Y-down), the quadrant and its angle offset,
  and the corner offset of the coordinate label.
- **The overlay state machine of `AppDelegate`.** A `class` keeps the
  enabled, locked and suspended flags, the remembered window state, the
  combined-toggle snapshot, the current screen, and the window's frame,
  alpha and ordering. Its methods are the app's transitions, including the
  per-refresh `updateMouseLocation` step. Each flag transition is stated
  against a pure function on `WindowFlags`. Lemmas about those functions
  cover toggling twice, opening and closing the settings window, and the
  consistency invariant.
- **The overlay view `FullScreenCrosshairs`.** Another `class` holds the
  view's hover and drag state and its own hover snapshot of the layers. The
  edge clamps, the closed on-screen test, the origin reset on appear, the
  magnifier and the label placement are pure functions in `Layout` and
  `CrosshairsView`.
- **Persistence codecs.** The model includes the `#RRGGBBAA` colour codec at
  byte level, the `{x, y}` dictionary for points, and the
  `UserDefaults` store as a `map<string, Value>` that a `Defaults` class
  updates.

The older file `BoreSight/CrosshairModel.swift` duplicates the shared logic
of `BoreSight/Models/CrosshairModel.swift`. Each piece is modelled once, and
both copies are cited.

Modules:

- `Wrappers`: `Option`.
- `Geometry`: points, sizes, rectangles, `insetBy` and `contains`.
- `Settings`: the enums and their raw values.
- `Screens`: screen selection.
- `Readout`: distance, quadrant, angle and label offset.
- `Layers`: the two layer snapshots.
- `Codecs`: hex, points and the defaults store.
- `Crosshair`: `class CrosshairModel`.
- `Layout`: the view geometry.
- `App`: `class AppDelegate` and its flag functions.
- `CrosshairsView`: `class FullScreenCrosshairs` and the magnifier.

## Model

| member | source | states |
|---|---|---|
| Geometry.InsetBy | BoreSight/Models/CrosshairModel.swift:428 | every edge moves outwards by -dx / -dy (the 1-point tolerance is `InsetBy(r, -1, -1)`) |
| Geometry.Translate | BoreSight/Models/CrosshairModel.swift:444-447 | the local point plus the frame origin is the global point |
| Geometry.Center | BoreSight/AppDelegate.swift:337 | twice the centre is the size, on both axes |
| Settings.ModeFor | BoreSight/Models/CrosshairModel.swift:168-171 | the mode chosen by the `isAutomaticDisplay` setter reads back as the flag given |
| Settings.ModeForIsAutomatic | BoreSight/CrosshairModel.swift:146-149 | reading the flag and then setting it gives back the same display mode |
| Settings.ParseTextPosition | BoreSight/Models/CrosshairModel.swift:30-35 | a parsed position has the given raw value, and each raw value parses to its case |
| Settings.ParseDisplayMode | BoreSight/Models/CrosshairModel.swift:25-28 | a parsed mode has the given raw value, and each raw value parses to its case |
| Screens.FirstMatchFrom | BoreSight/Models/CrosshairModel.swift:427-429 | the result is the first frame at or after k whose tolerant frame holds the point; None means no frame from k does |
| Screens.FirstMatch | BoreSight/CrosshairModel.swift:392-394 | the result is the first tolerant match in list order; None exactly when no frame matches |
| Screens.FirstMatchUnique | BoreSight/Models/CrosshairModel.swift:442-449 | the first match is unique |
| Screens.TargetScreen | BoreSight/Models/CrosshairModel.swift:422-438 | fixed mode gives `screens[i]` exactly for a valid index and main otherwise; follow mode gives the first tolerant match, else main |
| Screens.ScreenAndLocalPoint | BoreSight/Models/CrosshairModel.swift:440-454 | the screen is the first tolerant match, or main when nothing matches; the result is None only without a main screen; local = global - frame origin |
| Screens.LocalPointInTolerance | BoreSight/CrosshairModel.swift:405-419 | when a frame matches, the local point lies in [-1, w+1) x [-1, h+1) |
| Screens.TargetScreenIsSampleScreen | BoreSight/CrosshairModel.swift:387-403 | in follow mode the target screen and the sampled screen agree |
| Screens.SoleMatchSelected | BoreSight/Models/CrosshairModel.swift:442-449 | when exactly one frame holds the point, that screen and its local point are returned |
| Screens.BoundaryGoesToFirstScreen | BoreSight/Models/CrosshairModel.swift:442-449 | a point on the shared edge of two side-by-side 1920x1080 screens goes to the first one in list order |
| Screens.LowestFrom | BoreSight/AppDelegate.swift:350-351 | the result is the first index of minimal origin.y among all frames |
| Screens.LowestScreen | BoreSight/AppDelegate.swift:350-351 | the bottom screen: the first frame of minimal origin.y; None only for no screens |
| Readout.OriginYUp | BoreSight/Models/CrosshairModel.swift:480 | the base point has the origin's x and the flipped y |
| Readout.Distance | BoreSight/Models/CrosshairModel.swift:501-507 | dx and dy are the pointer minus the Y-up origin |
| Readout.Quadrant | BoreSight/Models/CrosshairModel.swift:509-521 | result in 1..4; 2, 3, 4 exactly for strictly above-left, below-left, below-right; 1 for strictly above-right or on either axis |
| Readout.QuadrantOfDistance | BoreSight/Models/CrosshairModel.swift:480 | the quadrant of the pointer against the Y-up origin is read off the signs of dx and dy |
| Readout.QuadrantOffset | BoreSight/Models/CrosshairModel.swift:484-494 | offset 0 in quadrant 1, pi in 2 and 3, 2 pi in 4 |
| Readout.Theta | BoreSight/Models/CrosshairModel.swift:473-499 | off both axes the angle lies in the open quarter-turn of its quadrant; on an axis it is the raw atan value |
| Readout.ThetaInOpenTurn | BoreSight/Models/CrosshairModel.swift:478-494 | off both axes the angle lies in (0, 2 pi) |
| Readout.WorkedExample | BoreSight/Models/CrosshairModel.swift:473-507 | pointer (600, 600), origin (500, 500), height 1000: distance (100, 100), quadrant 1, angle = atan(1) |
| Readout.TextOffset | BoreSight/Models/CrosshairModel.swift:456-471 | \|width\| = 80 + offset + 3.2 zoom, \|height\| = 30 + offset + zoom; for non-negative offset and zoom, width < 0 exactly for left corners and height < 0 exactly for top corners |
| Readout.TextOffsetMirror | BoreSight/CrosshairModel.swift:421-436 | left and right corners mirror the width; top and bottom corners mirror the height |
| Layers.CombinedToggle | BoreSight/AppDelegate.swift:475-494 | with any layer visible, all three are saved and hidden; otherwise the saved layers come back |
| Layers.CombinedToggleTwice | BoreSight/AppDelegate.swift:475-498 | two combined toggles restore the three flags from every starting state |
| Layers.HoverStep | BoreSight/Views/FullScreenCrosshairs.swift:264-279 | hover enter with no button down saves and hides; exit with no button down restores; with a button held nothing changes |
| Layers.HoverEnterExitRestores | BoreSight/Views/FullScreenCrosshairs.swift:264-279 | enter then exit with no button down restores the three flags exactly |
| Layers.HoverSnapshotWinsOverToggle | BoreSight/Views/FullScreenCrosshairs.swift:17-19 | a combined toggle during a hover does not disturb the view's own snapshot, which is restored on exit |
| Codecs.DigitValue | BoreSight/Extensions/UserDefaultsExtensions.swift:50 | exactly 0-9, A-F and a-f are hex digits, with values below 16 |
| Codecs.DigitChar | BoreSight/Extensions/UserDefaultsExtensions.swift:73 | the upper-case digit decodes back to n |
| Codecs.Byte2 | BoreSight/Extensions/UserDefaultsExtensions.swift:73 | `%02X` gives two hex digits |
| Codecs.ValueOfPair | BoreSight/Extensions/UserDefaultsExtensions.swift:50-54 | two digits are a big-endian byte, below 256 |
| Codecs.ValueOfByte2 | BoreSight/Extensions/UserDefaultsExtensions.swift:73 | `%02X` of a byte reads back as that byte |
| Codecs.ValueOfAppendDigit | BoreSight/Extensions/UserDefaultsExtensions.swift:50 | one more digit multiplies the value by 16 and adds the digit |
| Codecs.ValueOfAppendPair | BoreSight/Extensions/UserDefaultsExtensions.swift:50 | one more pair multiplies the value by 256 and adds the byte |
| Codecs.HexRun | BoreSight/Extensions/UserDefaultsExtensions.swift:47-50 | the scanner reads the longest all-hex prefix |
| Codecs.ScanHex | BoreSight/Extensions/UserDefaultsExtensions.swift:50 | the scan fails exactly when the first character is not a hex digit; an all-hex string scans to its value |
| Codecs.DecodeHex | BoreSight/Extensions/UserDefaultsExtensions.swift:39-63 | a colour only for "#" followed by exactly 8 characters whose first is a hex digit, and always then |
| Codecs.EncodeHex | BoreSight/Extensions/UserDefaultsExtensions.swift:67-74 | 9 characters: "#" and 8 upper-case hex digits |
| Codecs.ComponentsOfWord | BoreSight/Extensions/UserDefaultsExtensions.swift:51-54 | mask and shift give back the four bytes of the 32-bit word |
| Codecs.DecodeBigEndian | BoreSight/CrosshairModel.swift:466-469 | for 8 hex digits the components are the big-endian pairs RR, GG, BB, AA |
| Codecs.HexRoundTrip | BoreSight/CrosshairModel.swift:481-490 | decoding the encoding of (r, g, b, a) gives (r, g, b, a) |
| Codecs.ColourHex | BoreSight/Extensions/UserDefaultsExtensions.swift:67-74 | no string exactly when the colour has no device-RGB form; the string decodes back to the colour |
| Codecs.WithColour | BoreSight/Extensions/UserDefaultsExtensions.swift:12-16 | without a hex string the store is unchanged; otherwise only the key is added or updated |
| Codecs.StoredColour | BoreSight/Extensions/UserDefaultsExtensions.swift:18-21 | no colour without a string under the key; otherwise the decoded string |
| Codecs.ColourRoundTrip | BoreSight/CrosshairModel.swift:439-451 | a colour set under a key reads back as that colour |
| Codecs.PointValue | BoreSight/Extensions/UserDefaultsExtensions.swift:26-29 | a dictionary with exactly the keys "x" and "y" |
| Codecs.PointOf | BoreSight/Extensions/UserDefaultsExtensions.swift:31-35 | a point exactly for a dictionary holding "x" and "y", made of those two values |
| Codecs.StoredPoint | BoreSight/Extensions/UserDefaultsExtensions.swift:31-35 | nothing is stored under the key, or the stored dictionary is read |
| Codecs.PointRoundTrip | BoreSight/Extensions/UserDefaultsExtensions.swift:26-35 | a point set under a key reads back as that point |
| Codecs.LoadTextPosition | BoreSight/Models/CrosshairModel.swift:367-370 | a position is loaded only from its raw value under "mouseCoordinatesTextPosition" |
| Codecs.PersistTextPositionAsWritten | BoreSight/Models/CrosshairModel.swift:242-246 | the raw value is stored under "mouseCoordinatesText", that key is added if missing, and every other key keeps its value |
| Codecs.TextPositionLostAsWritten | BoreSight/CrosshairModel.swift:220-224 | after the write as coded, the load is unchanged (from an empty store: nothing), and the "mouseCoordinatesText" flag becomes a string |
| Codecs.PersistTextPosition | BoreSight/CrosshairModel.swift:336-339 | the corrected write loads back as the written position and leaves other keys alone |
| Codecs.Defaults.SetColor | BoreSight/Extensions/UserDefaultsExtensions.swift:12-16 | the store takes the colour write, and a colour that has a hex form reads back |
| Codecs.Defaults.SetCGPoint | BoreSight/Extensions/UserDefaultsExtensions.swift:26-29 | the store gains the point's dictionary under the key, and it reads back |
| Codecs.Defaults.WriteTextPosition | BoreSight/Models/CrosshairModel.swift:242-246 | the store takes the corrected text-position write |
| Crosshair.CrosshairModel.constructor | BoreSight/Models/CrosshairModel.swift:41-270 | every modelled property starts at its declared default |
| Crosshair.CrosshairModel.ResetGapAppearance | BoreSight/CrosshairModel.swift:363-368 | gap on, size 30, no gap type, white border of thickness 1 and opacity 1 |
| Crosshair.CrosshairModel.ResetBorderAppearance | BoreSight/CrosshairModel.swift:370-373 | border on, thickness 1, white, opacity 1 |
| Crosshair.CrosshairModel.ResetCrosshairAppearance | BoreSight/CrosshairModel.swift:375-378 | crosshair on, red, width 2, opacity 1 |
| Crosshair.CrosshairModel.ResetLabelAppearance | BoreSight/CrosshairModel.swift:380-383 | label on, offset 0, zoom 0, bottom-right |
| Crosshair.CrosshairModel.ResetAppearance | BoreSight/Models/CrosshairModel.swift:393-420 | all appearance settings back to their defaults, and everything and the origin shown |
| Crosshair.CrosshairModel.SetAutomaticDisplay | BoreSight/Models/CrosshairModel.swift:168-171 | the setter maps to followCursor or fixedScreen, and the getter reads back the flag |
| Crosshair.CrosshairModel.SetMouseCoordinatesTextPosition | BoreSight/Models/CrosshairModel.swift:242-246 | the property is set, and the corrected write makes the next load return it |
| Layout.ClampAxis | BoreSight/Views/FullScreenCrosshairs.swift:373-384 | an inside value is unchanged; a box that fits ends within [0, limit]; the lower-edge branch comes first and wins |
| Layout.Clamp | BoreSight/Views/FullScreenCrosshairs.swift:368-409 | one definition for both clamps: an inside point is unchanged; when the box fits, the result keeps it on screen |
| Layout.ClampIdempotent | BoreSight/Views/FullScreenCrosshairs.swift:390-409 | when the box fits, clamping twice is clamping once |
| Layout.ClampAxisAlternates | BoreSight/Views/FullScreenCrosshairs.swift:395-406 | when the box is larger than the screen, a second clamp moves the point again, to the other edge |
| Layout.OriginOnAppear | BoreSight/Views/FullScreenCrosshairs.swift:225-233 | an on-screen origin is kept and an off-screen one is centred; afterwards it is on screen for W, H >= 0 |
| Layout.CropRect | BoreSight/Views/FullScreenCrosshairs.swift:314-319 | 120 x 60, centred on the pointer in the frame's Y-down space |
| Layout.MagnifierCenter | BoreSight/Views/FullScreenCrosshairs.swift:322-332 | 75 points above the pointer when it fits there, and always on screen when the magnifier fits |
| Layout.LabelPosition | BoreSight/Views/FullScreenCrosshairs.swift:210-220 | the label stays on screen when it fits, and sits at the offset pointer, flipped, when that is already on screen |
| App.Hidden | BoreSight/AppDelegate.swift:266-276 | disabled, suspended, off screen; the lock is kept only when keep-locked is set |
| App.Shown | BoreSight/AppDelegate.swift:278-299 | enabled, not suspended, on screen, with the same lock rule |
| App.WindowToggled | BoreSight/AppDelegate.swift:501-517 | flips enabled and keeps the consistency invariant |
| App.WindowToggledTwice | BoreSight/AppDelegate.swift:501-517 | two toggles restore visibility; the lock survives only with keep-locked |
| App.LockToggled | BoreSight/AppDelegate.swift:539-541 | flips only the lock |
| App.SettingsOpened | BoreSight/AppDelegate.swift:234-239 | with hide-on-open, an enabled overlay is hidden and remembered, a disabled one forgets; without it nothing changes |
| App.SettingsClosed | BoreSight/AppDelegate.swift:643-646 | re-shows and forgets only when the remembered state is true and the overlay is disabled |
| App.SettingsOpenCloseRestores | BoreSight/AppDelegate.swift:230-254 | opening with hide-on-open, then closing, gives back an enabled and unsuspended overlay |
| App.SettingsCloseKeepsHidden | BoreSight/AppDelegate.swift:638-650 | closing the settings does not show an overlay that was hidden before they opened, unless a stale remembered state survives when hide-on-open is off |
| App.HideOnOpenChanged | BoreSight/Models/CrosshairModel.swift:116-129 | turning hide-on-open off forgets the remembered state |
| App.KeepLockedChanged | BoreSight/Models/CrosshairModel.swift:132-149 | turning keep-locked off while hidden clears the lock |
| App.AdjustedFrame | BoreSight/AppDelegate.swift:346-353 | the fixed screen's frame, 2 points shorter exactly when it is the bottom screen |
| App.PresenceAlpha | BoreSight/AppDelegate.swift:355-361 | 1.0 exactly when the pointer is in the adjusted frame grown by 1, else 0.0 |
| App.PresenceAlphaBands | BoreSight/AppDelegate.swift:341-361 | the opaque region written out: the tolerant frame, shortened at the top on the bottom screen |
| App.TickAlphaAsWritten | BoreSight/AppDelegate.swift:333-361 | as written, only the fixed-screen branch sets alpha (to the presence fade, for an index in range); otherwise the previous alpha is kept |
| App.AlphaStuckAsWritten | BoreSight/AppDelegate.swift:355-361 | two side-by-side screens, fixed screen 1, pointer on screen 0: a fixed-mode step fades the overlay to 0, and a later follow-mode step leaves it at 0 |
| App.TickAlpha | BoreSight/AppDelegate.swift:333-361 | corrected: the presence fade in fixed mode for an index in range, the previous alpha for an index out of range, and 1.0 in follow mode |
| App.FollowModeRestoresOpacity | BoreSight/AppDelegate.swift:333-361 | with the correction, a follow-mode step after any fixed-mode step gives an opaque overlay, and a fixed-mode step keeps alpha at 0.0 or 1.0 |
| App.AppDelegate.constructor | BoreSight/AppDelegate.swift:94-126 | launch: the flags start as declared (lines 17-41); with a target screen, the model is sized to it, the window is put on its frame and shown, and the current screen is the target (line 311), which is also the screen the first pointer sample picks; with no target screen no window is shown |
| App.AppDelegate.HideBoreSightWindow | BoreSight/AppDelegate.swift:266-276 | the new flags are `Hidden` of the old ones |
| App.AppDelegate.ShowBoreSightWindow | BoreSight/AppDelegate.swift:278-299 | the new flags are `Shown` of the old ones |
| App.AppDelegate.ToggleBoreSightWindow | BoreSight/AppDelegate.swift:501-517 | the new flags are `WindowToggled` of the old ones |
| App.AppDelegate.ToggleLockedBoreSight | BoreSight/AppDelegate.swift:539-546 | the new flags are `LockToggled` of the old ones |
| App.AppDelegate.ToggleCrosshairs | BoreSight/AppDelegate.swift:475-498 | the model's layers and the delegate's snapshot are `CombinedToggle` of the old ones |
| App.AppDelegate.ToggleMouseOrigin | BoreSight/AppDelegate.swift:256-259 | the origin marker's visibility flips |
| App.AppDelegate.ToggleMouseCoordinatesWindow | BoreSight/AppDelegate.swift:519-529 | the label's visibility flips |
| App.AppDelegate.EnableOverlayEditing | BoreSight/AppDelegate.swift:261-263 | the window passes mouse events through exactly while editing is off |
| App.AppDelegate.InitializeMouseMonitor | BoreSight/AppDelegate.swift:304-321 | the current screen starts as the target screen |
| App.AppDelegate.ShowSettingsWindow | BoreSight/AppDelegate.swift:230-254 | the new flags are `SettingsOpened` of the old ones |
| App.AppDelegate.SettingsWindowWillClose | BoreSight/AppDelegate.swift:638-650 | the new flags are `SettingsClosed` of the old ones |
| App.AppDelegate.SetHideBoreSightWhenSettingsOpen | BoreSight/Models/CrosshairModel.swift:116-129 | the setting is stored and the flags become `HideOnOpenChanged` of the old ones |
| App.AppDelegate.SetKeepBoreSightLocked | BoreSight/Models/CrosshairModel.swift:132-149 | the setting is stored and the flags become `KeepLockedChanged` of the old ones |
| App.AppDelegate.SetAutomaticDisplay | BoreSight/Models/CrosshairModel.swift:152-171 | the mode reads back as set, and the window moves to the new target screen if there is one |
| App.AppDelegate.ChangingFixedScreen | BoreSight/AppDelegate.swift:621-633 | a valid index sizes the model and window to that screen and centres the origin; an index past the end changes nothing |
| App.AppDelegate.UpdateMouseLocation | BoreSight/AppDelegate.swift:323-367 | nothing changes when suspended, locked or without a sample; in follow mode, a new screen resizes, re-centres and moves the overlay and the same screen changes nothing; alpha becomes the corrected `TickAlpha`: the presence fade in fixed mode when the index is in range, untouched for an index out of range, and 1.0 in follow mode |
| CrosshairsView.Intersection | BoreSight/Views/FullScreenCrosshairs.swift:321 | the overlap of two rectangles: the points in both |
| CrosshairsView.MagnifierOf | BoreSight/Views/FullScreenCrosshairs.swift:308-365 | nothing unless both dragged and hovered; a placeholder without a captured frame; a lens exactly when the crop rectangle overlaps the frame, showing their overlap, centred as `MagnifierCenter` |
| CrosshairsView.PointerInFrameShowsLens | BoreSight/Views/FullScreenCrosshairs.swift:313-321 | a pointer inside the captured frame gives a lens whose crop holds the pointer's pixel |
| CrosshairsView.DragZeroesDistance | BoreSight/Views/FullScreenCrosshairs.swift:293-296 | an origin placed under the pointer gives distance (0, 0) |
| CrosshairsView.FullScreenCrosshairs.constructor | BoreSight/Views/FullScreenCrosshairs.swift:11-21 | the view observes the delegate's model, with its state as declared |
| CrosshairsView.FullScreenCrosshairs.Hover | BoreSight/Views/FullScreenCrosshairs.swift:253-286 | the hover flag follows the pointer unless dragging; the layers and the view's snapshot are `HoverStep` of the old ones; editing is on exactly while hovering |
| CrosshairsView.FullScreenCrosshairs.DragChanged | BoreSight/Views/FullScreenCrosshairs.swift:290-297 | dragging is set, the origin moves to (mouse.x, H - mouse.y), and the readout distance becomes (0, 0) |
| CrosshairsView.FullScreenCrosshairs.DragEnded | BoreSight/Views/FullScreenCrosshairs.swift:298-300 | dragging is cleared |
| CrosshairsView.FullScreenCrosshairs.OnAppear | BoreSight/Views/FullScreenCrosshairs.swift:225-233 | the origin becomes `OriginOnAppear` of the old one |
| CrosshairsView.FullScreenCrosshairs.OverlayMeasured | BoreSight/Views/FullScreenCrosshairs.swift:200-208 | the label's measured size is recorded |
| CrosshairsView.FullScreenCrosshairs.CoordinatesLabelPosition | BoreSight/Views/FullScreenCrosshairs.swift:210-220 | the label stays on screen whenever its measured size fits |
| CrosshairsView.FullScreenCrosshairs.CurrentMagnifier | BoreSight/Views/FullScreenCrosshairs.swift:312-313 | no magnifier unless dragging and hovering; a placeholder without a captured frame |

## Left out

- Screen capture (`ScreenCaptureManager`), its stream configuration, the settings view, the keyboard constants and the drawing of the layers are not part of this model. They are asynchronous, foreign or layout-only code. The captured frame the magnifier crops is a parameter, given as a pixel size.
- Window creation, the status-window animation, menu construction and title updates, keyboard shortcuts, the pasteboard and the display link's set-up and tear-down are not modelled. The `AppDelegate` constructor is the launch sequence (`applicationDidFinishLaunching` then `createBoreSightWindow`), with the pointer unchanged between the window's creation and the start of the display link. `InitializeMouseMonitor` models only the choice of the starting screen. `ShowBoreSightWindow` assumes the window and the display link already exist; the case where a later show has to create a missing window is not modelled.
- The global pointer (`NSEvent.mouseLocation`), the screen list (`NSScreen.screens`) and the main screen are parameters. Screens are identified by their index in the list. The main screen is assumed to be one of the listed screens (`ValidRegistry`).
- `CrosshairModel.init` restoring the persisted settings is not modelled, except the text-position read in `Codecs.LoadTextPosition`. The constructor gives the declared defaults. The `didSet` persistence writes are not modelled either, except the text-position write, which is the finding below. The settings tab, the alert flag's effects and `copyMouseCoordinatesToClipboard` are not modelled.
- App.AppDelegate.SetHideBoreSightWhenSettingsOpen: the `didSet` effect runs at once here. In the app it is deferred with `DispatchQueue.main.async`. The same holds for `SetKeepBoreSightLocked` and for the window move in `App.AppDelegate.SetAutomaticDisplay`.
- Readout.Theta: the value of `atan` is abstract. The raw angle is a parameter, constrained only to be sign-preserving and inside (-pi/2, pi/2). On an axis, dx = 0 divides by zero in floating point; that case is not modelled, and the contract then only says theta equals the raw value. `Angle.degrees` and the `%.2f` formatting are not modelled.
- All `CGFloat` geometry is exact `real` arithmetic. The marker's `round(...)` positioning is not modelled. Rectangles with negative sizes are not standardised the way CoreGraphics does.
- Codecs.DecodeHex: the length test counts Unicode scalars, while Swift's `hexColor.count` counts grapheme clusters. So a string that ends in a hex digit plus a combining mark, such as "#1234567e" followed by U+0301, has 8 characters in Swift and decodes to a colour, but the model returns `None`. `Scanner.scanHexInt64` also skips leading whitespace and accepts a "0x" prefix. The model reads only the longest run of hex digits. The conversion of components to and from `CGFloat` (`/ 255`, `Int(x * 255)`) is not modelled: a colour is four bytes (`Rgba`), and `Color.hex` of a colour without a device-RGB form is `None`.
- Codecs.StoredColour: `string(forKey:)` also turns a stored number into a string. The model reads only stored strings.
- App.AppDelegate.UpdateMouseLocation: applies the corrected follow-mode alpha of `App.TickAlpha` (1.0), where BoreSight/AppDelegate.swift:333-361 leaves the alpha as it was outside fixed mode; the as-written behaviour is `App.TickAlphaAsWritten`, and the second row under "## Findings" records the gap.
- Codecs.Defaults.WriteTextPosition: writes under the corrected key "mouseCoordinatesTextPosition" through `Codecs.PersistTextPosition`, where BoreSight/Models/CrosshairModel.swift:244 writes under "mouseCoordinatesText"; the as-written write is `Codecs.PersistTextPositionAsWritten`, and the first row under "## Findings" records the gap.
- Crosshair.CrosshairModel.SetMouseCoordinatesTextPosition: persists through the corrected `Codecs.Defaults.WriteTextPosition`, so its promise that the next load returns the position holds of the corrected program, not of the source as written, where the load keeps its old result (`Codecs.TextPositionLostAsWritten`).
- App.AppDelegate.UpdateMouseLocation: requires a non-negative fixed index in fixed mode. The Swift guard `fixedIndex < NSScreen.screens.count` lets a negative index through to an index that traps. The settings picker only offers non-negative indices. `App.AppDelegate.ChangingFixedScreen` has the same requirement, for the same reason.
- Layout.ClampIdempotent: requires the box to fit the screen. When the box is larger than the screen, the clamp is not idempotent (`Layout.ClampAxisAlternates`).
- Layout.ClampAxis: the lower-edge branch wins only when the box sticks out on the low side. A box larger than the screen that does not stick out there is clamped to the upper edge.
- CrosshairsView.MagnifierOf: `cropping(to:)` also rounds the crop to whole pixels. The model keeps the exact overlap.
- The older copy `BoreSight/CrosshairModel.swift` has no `everythingShown` or `mouseOriginShown` in `resetAppearance`. The four `Reset…Appearance` helpers model exactly that copy's resets. `Crosshair.CrosshairModel.ResetAppearance` models the newer copy.

## Findings

| source | as written | input that shows it | evidently intended | confidence | as-written member | corrected member |
|---|---|---|---|---|---|---|
| BoreSight/Models/CrosshairModel.swift:242-246 (also BoreSight/CrosshairModel.swift:220-224) | the `mouseCoordinatesTextPosition` observer saves the raw value under "mouseCoordinatesText", while `init` reads it from "mouseCoordinatesTextPosition" (lines 367-370) and reads "mouseCoordinatesText" as the label's Bool flag | choose "topLeft" as the label position from an empty store: the next load finds no position and falls back to bottomRight, and the label flag key now holds a string | save under "mouseCoordinatesTextPosition", so the chosen corner survives a relaunch and the flag key is untouched | not executed | Codecs.TextPositionLostAsWritten | Codecs.PersistTextPosition |
| BoreSight/AppDelegate.swift:333-361 | only the fixedScreen branch of `updateMouseLocation()` writes `boreSightWindow.alphaValue` (lines 358 and 360); nothing else in the app resets it | in fixedScreen mode with the pointer on another screen the alpha becomes 0.0; after a switch to followCursor mode every step keeps 0.0, so the overlay stays invisible on the screen it now follows | the overlay is opaque in followCursor mode | not executed | App.AlphaStuckAsWritten | App.TickAlpha |
