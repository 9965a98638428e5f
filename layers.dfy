/**
 * The three overlay layers that the combined toggle and the hover
 * suppression hide and restore together: crosshair, border and gap.
 * Both keep their own snapshot of the three flags; these functions are
 * what `AppDelegate.toggleCrosshairs` and the origin marker's hover
 * handler do to (shown flags, snapshot).
 */
module Layers {
  datatype Layers = Layers(crosshair: bool, border: bool, gap: bool)

  const AllHidden := Layers(false, false, false)

  predicate AnyVisible(l: Layers) { l.crosshair || l.border || l.gap }

  /** The shown flags and the snapshot after a transition. */
  datatype Step = Step(shown: Layers, saved: Layers)

  /** `toggleCrosshairs()`: hide everything, remembering it, or bring the snapshot back. */
  function CombinedToggle(shown: Layers, saved: Layers): (t: Step)
    ensures AnyVisible(shown) ==> t.saved == shown && !AnyVisible(t.shown)
    ensures !AnyVisible(shown) ==> t.shown == saved && t.saved == saved
  {
    if AnyVisible(shown) then Step(AllHidden, shown) else Step(saved, saved)
  }

  /** Two combined toggles in a row give back the flags of every starting state. */
  lemma CombinedToggleTwice(shown: Layers, saved: Layers)
    ensures var t := CombinedToggle(shown, saved);
      CombinedToggle(t.shown, t.saved).shown == shown
  {
  }

  /**
   * One hover event on the origin marker: entering with no button down
   * snapshots and hides the layers, leaving with no button down restores
   * the snapshot, and any event while a button is held changes nothing.
   */
  function HoverStep(hovering: bool, mouseIsDown: bool, shown: Layers, saved: Layers): (t: Step)
    ensures mouseIsDown ==> t == Step(shown, saved)
    ensures hovering && !mouseIsDown ==> t.saved == shown && !AnyVisible(t.shown)
    ensures !hovering && !mouseIsDown ==> t.shown == saved && t.saved == saved
  {
    if hovering && !mouseIsDown then Step(AllHidden, shown)
    else if !hovering && !mouseIsDown then Step(saved, saved)
    else Step(shown, saved)
  }

  /** Hover enter then exit, no button down: the three flags are exactly restored. */
  lemma HoverEnterExitRestores(shown: Layers, saved: Layers)
    ensures var t := HoverStep(true, false, shown, saved);
      HoverStep(false, false, t.shown, t.saved).shown == shown
  {
  }

  /**
   * A combined toggle fired while hovering does not disturb the hover
   * restore: the hover snapshot is separate, and it wins on exit.
   */
  lemma HoverSnapshotWinsOverToggle(shown: Layers, hoverSaved: Layers, appSaved: Layers)
    ensures var entered := HoverStep(true, false, shown, hoverSaved);
      var toggled := CombinedToggle(entered.shown, appSaved);
      HoverStep(false, false, toggled.shown, entered.saved).shown == shown
  {
  }
}
