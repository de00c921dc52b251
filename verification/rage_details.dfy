/**
 * Rage details (Fury warrior): the share of Rage wasted, computed from the
 * Rage tracker's totals, and the two suggestion thresholds built on it.
 */
module RageDetails {
  import opened Thresholds

  /** The totals the Rage tracker exposes; its accounting is outside this model. */
  datatype RageTracker = RageTracker(wasted: nat, generated: nat)

  /**
   * `wasted / (wasted + generated) || 0`: with no Rage at all the division is
   * NaN, which `|| 0` turns into 0.
   */
  function WastedPercent(t: RageTracker): (r: real)
    ensures 0.0 <= r <= 1.0
    ensures t.wasted + t.generated == 0 ==> r == 0.0
    ensures t.wasted + t.generated > 0 ==> r * ((t.wasted + t.generated) as real) == t.wasted as real
    ensures t.wasted == 0 <==> r == 0.0
    ensures t.generated == 0 && t.wasted > 0 <==> r == 1.0
  {
    var total := t.wasted + t.generated;
    if total == 0 then 0.0 else (t.wasted as real) / (total as real)
  }

  /** Rage efficiency, `1 - wastedPercent`, flagged below 95%, 90% and 85%. */
  function EfficiencySuggestionThresholds(t: RageTracker): (th: Threshold)
    ensures th.actual + WastedPercent(t) == 1.0
    ensures 0.0 <= th.actual <= 1.0
    ensures th.comparison == IsLessThan && th.style == Percentage
    ensures TiersOrdered(th)
  {
    Threshold(1.0 - WastedPercent(t), IsLessThan, Tiers(0.95, 0.9, 0.85), Percentage)
  }

  /** Rage waste, `wastedPercent`, flagged above 5%, 10% and 15%. */
  function SuggestionThresholds(t: RageTracker): (th: Threshold)
    ensures th.actual == WastedPercent(t)
    ensures th.comparison == IsGreaterThan && th.style == Percentage
    ensures TiersOrdered(th)
  {
    Threshold(WastedPercent(t), IsGreaterThan, Tiers(0.05, 0.1, 0.15), Percentage)
  }

  /**
   * The two thresholds mirror each other: efficiency falls below a tier
   * exactly when waste rises above the complementary tier.
   */
  lemma ThresholdsMirror(t: RageTracker)
    ensures var waste := SuggestionThresholds(t);
      var efficiency := EfficiencySuggestionThresholds(t);
      && efficiency.actual == 1.0 - waste.actual
      && (efficiency.actual < efficiency.tiers.minor <==> waste.actual > waste.tiers.minor)
      && (efficiency.actual < efficiency.tiers.average <==> waste.actual > waste.tiers.average)
      && (efficiency.actual < efficiency.tiers.major <==> waste.actual > waste.tiers.major)
  {
  }
}
