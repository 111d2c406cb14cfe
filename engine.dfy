/**
 * The decision engine: the game-state record, terminal detection, the effect
 * of choosing an option, and the outcome of loading a scenario by id.
 */
module Engine {
  import opened Wrappers
  import opened Metrics
  import opened Catalog

  const MAX_MISSIONS: int := 10
  const START_ID: ScenarioId := "START"
  const END_ID: ScenarioId := "END"

  /** The saved session: the player's role, the 1-based mission counter, the id to resume at, and the metrics. */
  datatype GameState = GameState(
    role: string,
    missionNumber: int,
    currentScenario: Option<ScenarioId>,
    publicTrust: int,
    systemResilience: int,
    diplomaticStability: int,
    budget: int)

  function Value(s: GameState, m: Metric): int {
    match m
    case PublicTrust => s.publicTrust
    case SystemResilience => s.systemResilience
    case DiplomaticStability => s.diplomaticStability
    case Budget => s.budget
  }

  predicate PercentagesInRange(s: GameState) {
    InPercentRange(s.publicTrust) && InPercentRange(s.systemResilience) && InPercentRange(s.diplomaticStability)
  }

  /** One line of the debrief: which metric moved, by how much, and from what to what. */
  datatype AnalysisItem = AnalysisItem(metricLabel: string, value: int, oldValue: int, newValue: int, isBudget: bool)

  /**
   * What a decision produces: the new state, the analysis items, the id of the
   * scenario to load next, the option's feedback text, and whether the debrief
   * offers the final debrief instead of the next mission.
   */
  datatype Decision = Decision(
    state: GameState,
    items: seq<AnalysisItem>,
    nextScenarioId: ScenarioId,
    feedback: string,
    finalDebrief: bool)

  // ===== Terminal detection =====

  /** Upper-casing of one character; only the letters a..z are mapped. */
  function UpperChar(c: char): char {
    if 'a' <= c <= 'z' then (c as int - 32) as char else c
  }

  function ToUpper(s: string): string {
    seq(|s|, i requires 0 <= i < |s| => UpperChar(s[i]))
  }

  /** The three-letter spellings of END in any mix of cases. */
  predicate SpellsEnd(id: ScenarioId) {
    |id| == 3
    && (id[0] == 'E' || id[0] == 'e')
    && (id[1] == 'N' || id[1] == 'n')
    && (id[2] == 'D' || id[2] == 'd')
  }

  lemma UpperIsEnd(id: ScenarioId)
    ensures ToUpper(id) == END_ID <==> SpellsEnd(id)
  {
    if SpellsEnd(id) {
      assert ToUpper(id)[0] == 'E' && ToUpper(id)[1] == 'N' && ToUpper(id)[2] == 'D';
    }
    var u := ToUpper(id);
    if u == END_ID {
      assert |id| == 3;
      assert UpperChar(id[0]) == u[0] == 'E';
      assert UpperChar(id[1]) == u[1] == 'N';
      assert UpperChar(id[2]) == u[2] == 'D';
    }
  }

  /**
   * The end-of-simulation test: the id is END in any case, or the mission
   * counter has passed the last mission.
   */
  function IsTerminal(id: ScenarioId, missionNumber: int): (t: bool)
    ensures t <==> SpellsEnd(id) || missionNumber > MAX_MISSIONS
  {
    UpperIsEnd(id);
    ToUpper(id) == END_ID || missionNumber > MAX_MISSIONS
  }

  /** END is recognised in any case, and only as the whole id; the counter alone can also terminate. */
  lemma TerminalExamples()
    ensures IsTerminal("END", 1) && IsTerminal("end", 1) && IsTerminal("End", 1)
    ensures !IsTerminal("ENDING", 1) && !IsTerminal("START", MAX_MISSIONS)
    ensures IsTerminal("START", MAX_MISSIONS + 1)
  {
  }

  /** The id the session resumes at: the saved one when it is a non-empty string, otherwise START. */
  function ScenarioToLoad(s: GameState): (id: ScenarioId)
    ensures s.currentScenario.Some? && s.currentScenario.value != "" ==> id == s.currentScenario.value
    ensures s.currentScenario.None? || s.currentScenario.value == "" ==> id == START_ID
  {
    match s.currentScenario
    case Some(saved) => if saved != "" then saved else START_ID
    case None => START_ID
  }

  // ===== Decision application =====

  /** The analysis item for one metric: none when its consequence is skipped. */
  function ItemFor(m: Metric, delta: Option<int>, before: int, after: int): seq<AnalysisItem> {
    if Truthy(delta) then [AnalysisItem(Label(m), delta.value, before, after, m == Budget)] else []
  }

  /**
   * The metrics a decision reports, in evaluation order: every metric whose
   * consequence is present and non-zero, even when the clamp absorbs it.
   */
  function ReportedMetrics(c: Consequences): (ms: seq<Metric>)
    ensures forall m :: m in ms <==> Truthy(Consequence(c, m))
    ensures forall i, j :: 0 <= i < j < |ms| ==> Rank(ms[i]) < Rank(ms[j])
  {
    (if Truthy(c.publicTrust) then [PublicTrust] else [])
    + (if Truthy(c.systemResilience) then [SystemResilience] else [])
    + (if Truthy(c.diplomaticStability) then [DiplomaticStability] else [])
    + (if Truthy(c.budget) then [Budget] else [])
  }

  /**
   * Choosing `option` in state `s`: each percentage metric with a truthy
   * consequence is moved by it and clamped to [0, 100], a truthy budget
   * consequence is added unclamped, the next id is taken from the option, the
   * mission counter goes up by one and the session resumes at the next id.
   */
  function Decide(s: GameState, option: ScenarioOption): (d: Decision)
    ensures forall m :: m != Budget ==>
      Value(d.state, m) == if Truthy(Consequence(option.consequences, m))
                           then Clamp(Value(s, m) + Consequence(option.consequences, m).value, MIN_PERCENT, MAX_PERCENT)
                           else Value(s, m)
    ensures PercentagesInRange(s) ==> PercentagesInRange(d.state)
    ensures d.state.budget == s.budget + option.consequences.budget.GetOr(0)
    ensures d.state.role == s.role
    ensures d.state.missionNumber == s.missionNumber + 1
    ensures d.state.currentScenario == Some(option.nextScenario)
    ensures d.nextScenarioId == option.nextScenario && d.feedback == option.feedback
    ensures d.finalDebrief <==> IsTerminal(option.nextScenario, s.missionNumber + 1)
  {
    var c := option.consequences;
    var trust := if Truthy(c.publicTrust)
      then Clamp(s.publicTrust + c.publicTrust.value, MIN_PERCENT, MAX_PERCENT) else s.publicTrust;
    var resilience := if Truthy(c.systemResilience)
      then Clamp(s.systemResilience + c.systemResilience.value, MIN_PERCENT, MAX_PERCENT) else s.systemResilience;
    var diplomacy := if Truthy(c.diplomaticStability)
      then Clamp(s.diplomaticStability + c.diplomaticStability.value, MIN_PERCENT, MAX_PERCENT) else s.diplomaticStability;
    var budget := if Truthy(c.budget) then s.budget + c.budget.value else s.budget;
    var items := ItemFor(PublicTrust, c.publicTrust, s.publicTrust, trust)
      + ItemFor(SystemResilience, c.systemResilience, s.systemResilience, resilience)
      + ItemFor(DiplomaticStability, c.diplomaticStability, s.diplomaticStability, diplomacy)
      + ItemFor(Budget, c.budget, s.budget, budget);
    var next := option.nextScenario;
    var state := s.(publicTrust := trust, systemResilience := resilience, diplomaticStability := diplomacy,
                    budget := budget, missionNumber := s.missionNumber + 1, currentScenario := Some(next));
    Decision(state, items, next, option.feedback, IsTerminal(next, state.missionNumber))
  }

  /** `item` reports metric `m` moving from its value in `before` to its value in `after`. */
  predicate Reports(item: AnalysisItem, m: Metric, c: Consequences, before: GameState, after: GameState) {
    && item.metricLabel == Label(m)
    && Consequence(c, m).Some?
    && item.value == Consequence(c, m).value
    && item.oldValue == Value(before, m)
    && item.newValue == Value(after, m)
    && item.isBudget == (m == Budget)
  }

  /**
   * The debrief lists one item for each metric whose consequence is present
   * and non-zero, even when the clamp leaves the value where it was, in the
   * order trust, resilience, diplomacy, budget, each with its delta and its old
   * and new value.
   */
  lemma DecisionReport(s: GameState, option: ScenarioOption)
    ensures |Decide(s, option).items| == |ReportedMetrics(option.consequences)|
    ensures forall i :: 0 <= i < |Decide(s, option).items| ==>
      Reports(Decide(s, option).items[i], ReportedMetrics(option.consequences)[i], option.consequences, s, Decide(s, option).state)
  {
    // The items and the metrics are both built from four one-metric pieces; match them piece by piece.
    var c, d := option.consequences, Decide(s, option);
    var item := (m: Metric) => ItemFor(m, Consequence(c, m), Value(s, m), Value(d.state, m));
    var only := (m: Metric) => if Truthy(Consequence(c, m)) then [m] else [];
    forall m | true ensures ReportsAll(item(m), only(m), c, s, d.state) { }
    assert d.items == item(PublicTrust) + item(SystemResilience) + item(DiplomaticStability) + item(Budget);
    assert ReportedMetrics(c) == only(PublicTrust) + only(SystemResilience) + only(DiplomaticStability) + only(Budget);
    ReportsConcat(item(PublicTrust), only(PublicTrust), item(SystemResilience), only(SystemResilience), c, s, d.state);
    ReportsConcat(item(PublicTrust) + item(SystemResilience), only(PublicTrust) + only(SystemResilience),
                  item(DiplomaticStability), only(DiplomaticStability), c, s, d.state);
    ReportsConcat(item(PublicTrust) + item(SystemResilience) + item(DiplomaticStability),
                  only(PublicTrust) + only(SystemResilience) + only(DiplomaticStability),
                  item(Budget), only(Budget), c, s, d.state);
  }

  /** Item by item, `items` reports the metrics `ms`. */
  predicate ReportsAll(items: seq<AnalysisItem>, ms: seq<Metric>, c: Consequences, before: GameState, after: GameState) {
    |items| == |ms| && forall i :: 0 <= i < |items| ==> Reports(items[i], ms[i], c, before, after)
  }

  lemma ReportsConcat(a: seq<AnalysisItem>, ma: seq<Metric>, b: seq<AnalysisItem>, mb: seq<Metric>,
                      c: Consequences, before: GameState, after: GameState)
    requires ReportsAll(a, ma, c, before, after) && ReportsAll(b, mb, c, before, after)
    ensures ReportsAll(a + b, ma + mb, c, before, after)
  {
    forall i | 0 <= i < |a + b| ensures Reports((a + b)[i], (ma + mb)[i], c, before, after) {
      if i < |a| {
        assert (a + b)[i] == a[i] && (ma + mb)[i] == ma[i];
      } else {
        assert (a + b)[i] == b[i - |a|] && (ma + mb)[i] == mb[i - |a|];
      }
    }
  }

  /** A truthy delta is reported even when the clamp absorbs it: trust 100 raised by 10 stays 100. */
  lemma ClampAbsorbedIsReported()
    ensures Decide(GameState("Analyst", 1, None, 100, 50, 50, 50),
                   ScenarioOption("go", Consequences(Some(10), None, None, None), "ok", "M2")).items
         == [AnalysisItem("Public Trust", 10, 100, 100, false)]
  {
  }

  // ===== Scenario loading =====

  /** A presented option and whether its button is disabled for insufficient funds. */
  datatype Button = Button(option: ScenarioOption, disabled: bool)

  datatype LoadOutcome =
    | Ended
    | NotFound(id: ScenarioId)
    | Presented(scenario: Scenario, buttons: seq<Button>)

  /** An option is unavailable when its budget consequence is truthy and would leave the budget negative. */
  function IsDisabled(budget: int, option: ScenarioOption): (r: bool)
    ensures r <==> option.consequences.budget.GetOr(0) != 0 && budget + option.consequences.budget.GetOr(0) < 0
  {
    Truthy(option.consequences.budget) && budget + option.consequences.budget.value < 0
  }

  function Buttons(budget: int, options: seq<ScenarioOption>): seq<Button> {
    seq(|options|, i requires 0 <= i < |options| => Button(options[i], IsDisabled(budget, options[i])))
  }

  /**
   * Loading `id` in state `s`: the terminal test comes first, then the catalog
   * lookup, then every option is presented with its disabled flag.
   */
  function LoadOutcomeOf(s: GameState, catalog: Scenarios, id: ScenarioId): (r: LoadOutcome)
    ensures r.Ended? <==> IsTerminal(id, s.missionNumber)
    ensures r.NotFound? <==> !IsTerminal(id, s.missionNumber) && id !in catalog
    ensures r.NotFound? ==> r.id == id
    ensures r.Presented? ==> id in catalog && r.scenario == catalog[id]
    ensures r.Presented? ==> |r.buttons| == |r.scenario.options|
    ensures r.Presented? ==> forall i :: 0 <= i < |r.buttons| ==>
      r.buttons[i].option == r.scenario.options[i] && r.buttons[i].disabled == IsDisabled(s.budget, r.scenario.options[i])
  {
    if IsTerminal(id, s.missionNumber) then Ended
    else if id !in catalog then NotFound(id)
    else Presented(catalog[id], Buttons(s.budget, catalog[id].options))
  }

  // ===== Properties relating the operations =====

  /** The terminal test comes before the lookup, so a terminal id or counter ends the session even for a catalogued id. */
  lemma TerminalBeforeLookup(s: GameState, catalog: Scenarios, id: ScenarioId)
    requires id in catalog
    requires SpellsEnd(id) || s.missionNumber > MAX_MISSIONS
    ensures LoadOutcomeOf(s, catalog, id) == Ended
  {
  }

  /** A disabled option is exactly one whose truthy budget delta would make the budget negative. */
  lemma DisabledIffOverdraws(s: GameState, option: ScenarioOption)
    ensures IsDisabled(s.budget, option) <==> Truthy(option.consequences.budget) && Decide(s, option).state.budget < 0
  {
  }

  /** Choosing an enabled option never takes a non-negative budget below zero. */
  lemma EnabledKeepsSolvent(s: GameState, option: ScenarioOption)
    requires s.budget >= 0 && !IsDisabled(s.budget, option)
    ensures Decide(s, option).state.budget >= 0
  {
  }

  /**
   * The debrief's choice between the final debrief and the next mission uses
   * the same test, on the same state, as the load that follows it.
   */
  lemma DebriefAgreesWithLoad(s: GameState, option: ScenarioOption, catalog: Scenarios)
    ensures Decide(s, option).finalDebrief <==>
      LoadOutcomeOf(Decide(s, option).state, catalog, Decide(s, option).nextScenarioId).Ended?
  {
  }
}
