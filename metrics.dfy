/**
 * The metric model: the three percentage metrics, which are kept in [0, 100],
 * and the budget, which is not clamped.
 */
module Metrics {

  const MIN_PERCENT: int := 0
  const MAX_PERCENT: int := 100

  /** The four metrics a decision can change, in the order a decision evaluates them. */
  datatype Metric = PublicTrust | SystemResilience | DiplomaticStability | Budget

  /** Position of a metric in the evaluation order. */
  function Rank(m: Metric): nat {
    match m
    case PublicTrust => 0
    case SystemResilience => 1
    case DiplomaticStability => 2
    case Budget => 3
  }

  /** The label an analysis item carries for a metric. */
  function Label(m: Metric): string {
    match m
    case PublicTrust => "Public Trust"
    case SystemResilience => "System Resilience"
    case DiplomaticStability => "Diplomatic Stability"
    case Budget => "Budget"
  }

  predicate InPercentRange(v: int) {
    MIN_PERCENT <= v <= MAX_PERCENT
  }

  /**
   * `Math.max(lo, Math.min(value, hi))`. When the bounds are ordered the result
   * is the nearest point of [lo, hi] to `value`.
   */
  function Clamp(value: int, lo: int, hi: int): (r: int)
    ensures lo <= hi ==> lo <= r <= hi
    ensures lo <= value <= hi ==> r == value
    ensures value < lo ==> r == lo
    ensures lo <= hi < value ==> r == hi
    ensures hi < lo ==> r == lo
  {
    var smaller := if value < hi then value else hi;
    if lo > smaller then lo else smaller
  }
}
