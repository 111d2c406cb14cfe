/**
 * The read-only scenario catalog: scenarios keyed by id, their options, and
 * the signed deltas an option applies.
 */
module Catalog {
  import opened Wrappers
  import opened Metrics

  type ScenarioId = string

  /** Each field is the signed delta for one metric; `None` means the field is absent. */
  datatype Consequences = Consequences(
    publicTrust: Option<int>,
    systemResilience: Option<int>,
    diplomaticStability: Option<int>,
    budget: Option<int>)

  datatype ScenarioOption = ScenarioOption(
    text: string,
    consequences: Consequences,
    feedback: string,
    nextScenario: ScenarioId)

  datatype Scenario = Scenario(title: string, description: string, options: seq<ScenarioOption>)

  type Scenarios = map<ScenarioId, Scenario>

  /** The consequence field for a metric. */
  function Consequence(c: Consequences, m: Metric): Option<int> {
    match m
    case PublicTrust => c.publicTrust
    case SystemResilience => c.systemResilience
    case DiplomaticStability => c.diplomaticStability
    case Budget => c.budget
  }

  /**
   * A consequence field tested for truthiness: an absent field and a field
   * holding 0 are both false, so both are skipped.
   */
  predicate Truthy(d: Option<int>) {
    d.Some? && d.value != 0
  }
}
