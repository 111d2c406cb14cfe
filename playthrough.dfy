/**
 * Sequences of decisions: what a run of choices does to the state, and the
 * bound on how many decisions a session can make before it terminates.
 */
module Playthrough {
  import opened Wrappers
  import opened Metrics
  import opened Catalog
  import opened Engine

  /** The state after choosing `options` in order, starting from `s`. */
  function Play(s: GameState, options: seq<ScenarioOption>): GameState
    decreases |options|
  {
    if options == [] then s
    else Decide(Play(s, options[..|options| - 1]), options[|options| - 1]).state
  }

  /** The sum of the budget deltas of `options`, an absent one counting as 0. */
  function BudgetDeltas(options: seq<ScenarioOption>): int
    decreases |options|
  {
    if options == [] then 0
    else BudgetDeltas(options[..|options| - 1]) + options[|options| - 1].consequences.budget.GetOr(0)
  }

  /** Every decision advances the mission counter by exactly one. */
  lemma {:induction false} PlayAdvancesMission(s: GameState, options: seq<ScenarioOption>)
    ensures Play(s, options).missionNumber == s.missionNumber + |options|
    decreases |options|
  {
    if options != [] {
      PlayAdvancesMission(s, options[..|options| - 1]);
    }
  }

  /** The percentage metrics stay in [0, 100] along any run of decisions. */
  lemma {:induction false} PlayKeepsPercentages(s: GameState, options: seq<ScenarioOption>)
    requires PercentagesInRange(s)
    ensures PercentagesInRange(Play(s, options))
    decreases |options|
  {
    if options != [] {
      PlayKeepsPercentages(s, options[..|options| - 1]);
    }
  }

  /** The budget is never clamped: after a run it is the start budget plus every delta. */
  lemma {:induction false} PlayBudget(s: GameState, options: seq<ScenarioOption>)
    ensures Play(s, options).budget == s.budget + BudgetDeltas(options)
    decreases |options|
  {
    if options != [] {
      PlayBudget(s, options[..|options| - 1]);
    }
  }

  /** The role is never changed by a decision. */
  lemma {:induction false} PlayKeepsRole(s: GameState, options: seq<ScenarioOption>)
    ensures Play(s, options).role == s.role
    decreases |options|
  {
    if options != [] {
      PlayKeepsRole(s, options[..|options| - 1]);
    }
  }

  /** The debrief after the (k+1)-th decision of `options`, started from `s`. */
  function DebriefAt(s: GameState, options: seq<ScenarioOption>, k: nat): Decision
    requires k < |options|
  {
    Decide(Play(s, options[..k]), options[k])
  }

  /**
   * A session that loaded `firstId` without terminating and then made the
   * decisions `options`, each debrief but the last offering the next mission.
   */
  predicate Proceeded(s: GameState, firstId: ScenarioId, options: seq<ScenarioOption>) {
    && !IsTerminal(firstId, s.missionNumber)
    && forall k: nat :: k < |options| - 1 ==> !DebriefAt(s, options, k).finalDebrief
  }

  /** At most MAX_MISSIONS - start + 1 decisions are made before the session terminates. */
  lemma DecisionBound(s: GameState, firstId: ScenarioId, options: seq<ScenarioOption>)
    requires Proceeded(s, firstId, options)
    ensures |options| <= MAX_MISSIONS - s.missionNumber + 1
  {
    if |options| >= 2 {
      var k := |options| - 2;
      PlayAdvancesMission(s, options[..k]);
      assert !DebriefAt(s, options, k).finalDebrief;
    }
  }

  /** The decision that reaches the bound always leads to the final debrief. */
  lemma LastDebriefIsFinal(s: GameState, options: seq<ScenarioOption>)
    requires |options| >= 1 && |options| == MAX_MISSIONS - s.missionNumber + 1
    ensures DebriefAt(s, options, |options| - 1).finalDebrief
  {
    PlayAdvancesMission(s, options[..|options| - 1]);
  }
}
