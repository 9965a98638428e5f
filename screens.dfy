/**
 * The display registry and the two screen searches of `CrosshairModel`
 * (`getTargetScreen` and `currentScreenAndLocalMousePoint`).
 *
 * `NSScreen.screens` is an ordered sequence of frames in the global,
 * Y-up desktop space; a screen is identified by its index in that
 * sequence, and `NSScreen.main` by an optional index.
 */
module Screens {
  import opened Wrappers
  import opened Geometry
  import opened Settings

  /** `NSScreen.main`, when present, is one of `NSScreen.screens`. */
  predicate ValidRegistry(frames: seq<Rect>, main: Option<nat>) {
    main.Some? ==> main.value < |frames|
  }

  /** Screen i is the one the `for s in NSScreen.screens` loop returns for p. */
  predicate IsFirstMatch(frames: seq<Rect>, p: Point, i: nat) {
    i < |frames| && InTolerance(frames[i], p) &&
    forall j :: 0 <= j < i ==> !InTolerance(frames[j], p)
  }

  /** No frame, grown by 1, contains p. */
  predicate NoMatch(frames: seq<Rect>, p: Point) {
    forall j :: 0 <= j < |frames| ==> !InTolerance(frames[j], p)
  }

  /** The early-return search loop, resumed at index k. */
  function FirstMatchFrom(frames: seq<Rect>, p: Point, k: nat): (r: Option<nat>)
    requires k <= |frames|
    ensures r.Some? ==> k <= r.value < |frames| && InTolerance(frames[r.value], p)
    ensures r.Some? ==> forall j :: k <= j < r.value ==> !InTolerance(frames[j], p)
    ensures r.None? ==> forall j :: k <= j < |frames| ==> !InTolerance(frames[j], p)
    decreases |frames| - k
  {
    if k == |frames| then None
    else if InTolerance(frames[k], p) then Some(k)
    else FirstMatchFrom(frames, p, k + 1)
  }

  /** The first screen, in list order, whose tolerant frame contains p. */
  function FirstMatch(frames: seq<Rect>, p: Point): (r: Option<nat>)
    ensures r.Some? ==> IsFirstMatch(frames, p, r.value)
    ensures r.None? <==> NoMatch(frames, p)
  {
    FirstMatchFrom(frames, p, 0)
  }

  /** The first match is the only index with its defining property. */
  lemma FirstMatchUnique(frames: seq<Rect>, p: Point, i: nat, k: nat)
    requires IsFirstMatch(frames, p, i) && IsFirstMatch(frames, p, k)
    ensures i == k
  {
  }

  /** `getTargetScreen()`: the screen the overlay should occupy. */
  function TargetScreen(mode: DisplayMode, fixedIndex: int, frames: seq<Rect>,
                        main: Option<nat>, p: Point): (r: Option<nat>)
    ensures mode == FixedScreen && 0 <= fixedIndex < |frames| ==> r == Some(fixedIndex)
    ensures mode == FixedScreen && !(0 <= fixedIndex < |frames|) ==> r == main
    ensures mode == FollowCursor ==>
      forall i: nat :: IsFirstMatch(frames, p, i) ==> r == Some(i)
    ensures mode == FollowCursor && NoMatch(frames, p) ==> r == main
    ensures ValidRegistry(frames, main) && r.Some? ==> r.value < |frames|
  {
    match mode
    case FollowCursor =>
      var m := FirstMatch(frames, p);
      if m.Some? then
        assert forall i: nat :: IsFirstMatch(frames, p, i) ==> i == m.value by {
          forall i: nat | IsFirstMatch(frames, p, i) ensures i == m.value {
            FirstMatchUnique(frames, p, i, m.value);
          }
        }
        m
      else main
    case FixedScreen =>
      if 0 <= fixedIndex < |frames| then Some(fixedIndex) else main
  }

  /** What `currentScreenAndLocalMousePoint()` returns: a screen and the point local to it. */
  datatype Sample = Sample(screen: nat, local: Point)

  /** `currentScreenAndLocalMousePoint()`. */
  function ScreenAndLocalPoint(frames: seq<Rect>, main: Option<nat>, global: Point): (r: Option<Sample>)
    requires ValidRegistry(frames, main)
    ensures r.Some? ==> r.value.screen < |frames| &&
                        r.value.local == Translate(global, frames[r.value.screen])
    ensures forall i: nat :: IsFirstMatch(frames, global, i) ==> r.Some? && r.value.screen == i
    ensures NoMatch(frames, global) ==> (r.Some? <==> main.Some?)
    ensures NoMatch(frames, global) && r.Some? ==> r.value.screen == main.value
  {
    match FirstMatch(frames, global)
    case Some(i) =>
      assert forall k: nat :: IsFirstMatch(frames, global, k) ==> k == i by {
        forall k: nat | IsFirstMatch(frames, global, k) ensures k == i {
          FirstMatchUnique(frames, global, k, i);
        }
      }
      Some(Sample(i, Translate(global, frames[i])))
    case None =>
      if main.Some? then Some(Sample(main.value, Translate(global, frames[main.value])))
      else None
  }

  /**
   * When the sample's screen matched the pointer, the local point lies in
   * [-1, w + 1) x [-1, h + 1) of that screen.
   */
  lemma LocalPointInTolerance(frames: seq<Rect>, main: Option<nat>, global: Point)
    requires ValidRegistry(frames, main)
    requires !NoMatch(frames, global)
    ensures var r := ScreenAndLocalPoint(frames, main, global);
      r.Some? &&
      var s := frames[r.value.screen].size;
      -1.0 <= r.value.local.x < s.width + 1.0 && -1.0 <= r.value.local.y < s.height + 1.0
  {
    var m := FirstMatch(frames, global);
    assert m.Some?;
    assert IsFirstMatch(frames, global, m.value);
  }

  /** In followCursor mode both searches pick the same screen. */
  lemma TargetScreenIsSampleScreen(frames: seq<Rect>, main: Option<nat>, global: Point, fixedIndex: int)
    requires ValidRegistry(frames, main)
    ensures var r := ScreenAndLocalPoint(frames, main, global);
      TargetScreen(FollowCursor, fixedIndex, frames, main, global) ==
        (if r.Some? then Some(r.value.screen) else None)
  {
    var m := FirstMatch(frames, global);
    if m.Some? {
      assert IsFirstMatch(frames, global, m.value);
    }
  }

  /** A point inside exactly one tolerant frame selects that screen. */
  lemma SoleMatchSelected(frames: seq<Rect>, main: Option<nat>, global: Point, i: nat)
    requires ValidRegistry(frames, main)
    requires i < |frames| && InTolerance(frames[i], global)
    requires forall j :: 0 <= j < |frames| && j != i ==> !InTolerance(frames[j], global)
    ensures ScreenAndLocalPoint(frames, main, global) ==
      Some(Sample(i, Translate(global, frames[i])))
  {
    assert IsFirstMatch(frames, global, i);
  }

  /**
   * Two side-by-side displays, A = (0, 0, 1920, 1080) and
   * B = (1920, 0, 1280, 1024): the boundary point (1920, 50) is in both
   * tolerance bands and resolves to A, the first in list order.
   */
  lemma BoundaryGoesToFirstScreen()
    ensures var frames := [Rect(Point(0.0, 0.0), Size(1920.0, 1080.0)),
                           Rect(Point(1920.0, 0.0), Size(1280.0, 1024.0))];
      ScreenAndLocalPoint(frames, None, Point(1920.0, 50.0)) ==
        Some(Sample(0, Point(1920.0, 50.0)))
  {
    var frames := [Rect(Point(0.0, 0.0), Size(1920.0, 1080.0)),
                   Rect(Point(1920.0, 0.0), Size(1280.0, 1024.0))];
    assert IsFirstMatch(frames, Point(1920.0, 50.0), 0);
  }

  /**
   * `NSScreen.screens.min(by: { $0.frame.origin.y < $1.frame.origin.y })`
   * resumed at k with the minimum-so-far `best`: Swift keeps the earlier
   * element on ties, so this is the first screen of lowest origin.y.
   */
  function LowestFrom(frames: seq<Rect>, best: nat, k: nat): (r: nat)
    requires best < k <= |frames|
    requires forall j :: 0 <= j < k ==> frames[best].origin.y <= frames[j].origin.y
    requires forall j :: 0 <= j < best ==> frames[j].origin.y > frames[best].origin.y
    ensures r < |frames|
    ensures forall j :: 0 <= j < |frames| ==> frames[r].origin.y <= frames[j].origin.y
    ensures forall j :: 0 <= j < r ==> frames[j].origin.y > frames[r].origin.y
    decreases |frames| - k
  {
    if k == |frames| then best
    else if frames[k].origin.y < frames[best].origin.y then LowestFrom(frames, k, k + 1)
    else LowestFrom(frames, best, k + 1)
  }

  /** The bottom screen, or None when there are no screens. */
  function LowestScreen(frames: seq<Rect>): (r: Option<nat>)
    ensures r.None? <==> |frames| == 0
    ensures r.Some? ==> r.value < |frames|
    ensures r.Some? ==> forall j :: 0 <= j < |frames| ==> frames[r.value].origin.y <= frames[j].origin.y
    ensures r.Some? ==> forall j :: 0 <= j < r.value ==> frames[j].origin.y > frames[r.value].origin.y
  {
    if |frames| == 0 then None else Some(LowestFrom(frames, 0, 1))
  }
}
