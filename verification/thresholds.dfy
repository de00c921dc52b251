/**
 * The threshold configuration every analyzer hands to the suggestion
 * evaluator: an observed value, a comparison direction, three tier cutoffs and
 * a display style. Only the data is modelled here; how the evaluator grades a
 * value against the tiers is outside this model.
 */
module Thresholds {

  /** `isGreaterThan` tiers flag values above them, `isLessThan` tiers values below them. */
  datatype Comparison = IsGreaterThan | IsLessThan

  datatype Tiers = Tiers(minor: real, average: real, major: real)

  /** `ThresholdStyle.PERCENTAGE` or `ThresholdStyle.NUMBER`: affects display only. */
  datatype ThresholdStyle = Percentage | Number

  datatype Threshold = Threshold(actual: real, comparison: Comparison, tiers: Tiers, style: ThresholdStyle)

  /**
   * The tiers grow in severity in the comparison's direction: non-decreasing
   * cutoffs for "greater than", non-increasing cutoffs for "less than".
   */
  predicate TiersOrdered(t: Threshold) {
    match t.comparison
    case IsGreaterThan => t.tiers.minor <= t.tiers.average <= t.tiers.major
    case IsLessThan => t.tiers.minor >= t.tiers.average >= t.tiers.major
  }
}
