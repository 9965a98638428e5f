/**
 * The enumerations of the crosshair model and their persisted raw values
 * (the Swift `String` raw values of `GapType`, `CrosshairDisplayMode` and
 * `MouseCoordinateTextPosition`).
 */
module Settings {
  import opened Wrappers

  datatype GapType = NoGap | SquareGap | CircleGap

  datatype DisplayMode = FollowCursor | FixedScreen

  datatype TextPosition = TopLeft | TopRight | BottomLeft | BottomRight

  /** The two SwiftUI colours the model uses as defaults, or a picked colour. */
  datatype Colour = White | Red | Picked(red: real, green: real, blue: real, alpha: real)

  predicate IsLeft(p: TextPosition) { p == TopLeft || p == BottomLeft }
  predicate IsTop(p: TextPosition) { p == TopLeft || p == TopRight }

  /** The getter of `isAutomaticDisplay`. */
  predicate IsAutomatic(m: DisplayMode) { m == FollowCursor }

  /** The setter of `isAutomaticDisplay`: the mode it stores for a Boolean. */
  function ModeFor(automatic: bool): (m: DisplayMode)
    ensures IsAutomatic(m) == automatic
  {
    if automatic then FollowCursor else FixedScreen
  }

  /** Reading the mode back as a Boolean and storing it again changes nothing. */
  lemma ModeForIsAutomatic(m: DisplayMode)
    ensures ModeFor(IsAutomatic(m)) == m
  {
  }

  function TextPositionRaw(p: TextPosition): string
  {
    match p
    case TopLeft => "topLeft"
    case TopRight => "topRight"
    case BottomLeft => "bottomLeft"
    case BottomRight => "bottomRight"
  }

  /** `MouseCoordinateTextPosition(rawValue:)`. */
  function ParseTextPosition(s: string): (r: Option<TextPosition>)
    ensures r.Some? ==> TextPositionRaw(r.value) == s
    ensures forall p :: s == TextPositionRaw(p) ==> r == Some(p)
  {
    if s == "topLeft" then Some(TopLeft)
    else if s == "topRight" then Some(TopRight)
    else if s == "bottomLeft" then Some(BottomLeft)
    else if s == "bottomRight" then Some(BottomRight)
    else None
  }

  function DisplayModeRaw(m: DisplayMode): string
  {
    match m
    case FollowCursor => "followCursor"
    case FixedScreen => "fixedScreen"
  }

  /** `CrosshairDisplayMode(rawValue:)`. */
  function ParseDisplayMode(s: string): (r: Option<DisplayMode>)
    ensures r.Some? ==> DisplayModeRaw(r.value) == s
    ensures forall m :: s == DisplayModeRaw(m) ==> r == Some(m)
  {
    if s == "followCursor" then Some(FollowCursor)
    else if s == "fixedScreen" then Some(FixedScreen)
    else None
  }
}
