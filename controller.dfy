/**
 * The game controller: the session object whose state the page's handlers
 * change in place, and the start-up sequence.
 */
module Controller {
  import opened Wrappers
  import opened Metrics
  import opened Catalog
  import opened Engine
  import opened Dashboard
  import opened Storage

  /** What the dashboard shows after an update. */
  datatype View = View(
    role: string,
    missionNumber: int,
    status: SystemStatus,
    statusText: string,
    trustColor: BarColor,
    resilienceColor: BarColor,
    diplomacyColor: BarColor,
    budgetColor: BarColor)

  /** Start-up either finds no saved session (the page then leaves for the start screen) or loads a scenario. */
  datatype InitOutcome = MissingSession | Started(load: LoadOutcome)

  class Simulator {
    var gameState: GameState
    const allScenarios: Scenarios
    var storage: Store

    constructor (catalog: Scenarios, store: Store, saved: GameState)
      ensures allScenarios == catalog && storage == store && gameState == saved
    {
      allScenarios := catalog;
      storage := store;
      gameState := saved;
    }

    /** Saves the final snapshot and clears the session entries; the page then leaves for the end screen. */
    method EndSimulation()
      modifies this
      ensures gameState == old(gameState)
      ensures storage == EndStore(old(storage), gameState)
    {
      storage := storage[FINAL_STATE_KEY := gameState];
      storage := storage - {GAME_STATE_KEY};
      storage := storage - {CURRENT_SCENARIO_KEY};
    }

    /** One button per option, in order, disabled when the option's budget delta is unaffordable. */
    method PresentOptions(options: seq<ScenarioOption>) returns (buttons: seq<Button>)
      ensures |buttons| == |options|
      ensures forall i :: 0 <= i < |options| ==>
        buttons[i].option == options[i] && buttons[i].disabled == IsDisabled(gameState.budget, options[i])
    {
      buttons := [];
      var i := 0;
      while i < |options|
        invariant 0 <= i <= |options|
        invariant |buttons| == i
        invariant forall j :: 0 <= j < i ==>
          buttons[j].option == options[j] && buttons[j].disabled == IsDisabled(gameState.budget, options[j])
      {
        var option := options[i];
        var disabled := false;
        if Truthy(option.consequences.budget) {
          var futureBudget := gameState.budget + option.consequences.budget.value;
          if futureBudget < 0 {
            disabled := true;
          }
        }
        buttons := buttons + [Button(option, disabled)];
        i := i + 1;
      }
    }

    /** Ends the simulation on a terminal id or counter, reports a missing id, or presents the scenario. */
    method LoadScenario(scenarioId: ScenarioId) returns (outcome: LoadOutcome)
      modifies this
      ensures gameState == old(gameState)
      ensures outcome == LoadOutcomeOf(gameState, allScenarios, scenarioId)
      ensures storage == if outcome.Ended? then EndStore(old(storage), gameState) else old(storage)
    {
      if ToUpper(scenarioId) == END_ID || gameState.missionNumber > MAX_MISSIONS {
        EndSimulation();
        return Ended;
      }
      if scenarioId !in allScenarios {
        return NotFound(scenarioId);
      }
      var scenario := allScenarios[scenarioId];
      var buttons := PresentOptions(scenario.options);
      assert buttons == Buttons(gameState.budget, scenario.options);
      outcome := Presented(scenario, buttons);
    }

    /**
     * Applies the option's consequences field by field, records the analysis
     * items, takes the next id before advancing the mission counter, saves the
     * session and decides what the debrief offers next.
     */
    method MakeDecision(option: ScenarioOption) returns (debrief: Decision)
      modifies this
      ensures debrief == Decide(old(gameState), option)
      ensures gameState == debrief.state
      ensures PercentagesInRange(old(gameState)) ==> PercentagesInRange(gameState)
      ensures storage == old(storage)[GAME_STATE_KEY := gameState]
    {
      var consequences := option.consequences;
      var analysisItems: seq<AnalysisItem> := [];

      if Truthy(consequences.publicTrust) {
        var oldVal := gameState.publicTrust;
        gameState := gameState.(publicTrust := Clamp(oldVal + consequences.publicTrust.value, MIN_PERCENT, MAX_PERCENT));
        analysisItems := analysisItems
          + [AnalysisItem(Label(PublicTrust), consequences.publicTrust.value, oldVal, gameState.publicTrust, false)];
      }
      if Truthy(consequences.systemResilience) {
        var oldVal := gameState.systemResilience;
        gameState := gameState.(systemResilience := Clamp(oldVal + consequences.systemResilience.value, MIN_PERCENT, MAX_PERCENT));
        analysisItems := analysisItems
          + [AnalysisItem(Label(SystemResilience), consequences.systemResilience.value, oldVal, gameState.systemResilience, false)];
      }
      if Truthy(consequences.diplomaticStability) {
        var oldVal := gameState.diplomaticStability;
        gameState := gameState.(diplomaticStability := Clamp(oldVal + consequences.diplomaticStability.value, MIN_PERCENT, MAX_PERCENT));
        analysisItems := analysisItems
          + [AnalysisItem(Label(DiplomaticStability), consequences.diplomaticStability.value, oldVal, gameState.diplomaticStability, false)];
      }
      if Truthy(consequences.budget) {
        var oldVal := gameState.budget;
        gameState := gameState.(budget := gameState.budget + consequences.budget.value);
        analysisItems := analysisItems
          + [AnalysisItem(Label(Budget), consequences.budget.value, oldVal, gameState.budget, true)];
      }

      var nextScenarioId := option.nextScenario;
      gameState := gameState.(missionNumber := gameState.missionNumber + 1);
      gameState := gameState.(currentScenario := Some(nextScenarioId));

      storage := storage[GAME_STATE_KEY := gameState];

      var finalDebrief := ToUpper(nextScenarioId) == END_ID || gameState.missionNumber > MAX_MISSIONS;
      debrief := Decision(gameState, analysisItems, nextScenarioId, option.feedback, finalDebrief);
    }

    /**
     * The debrief's button: the final debrief ends the simulation, otherwise the
     * captured next id is loaded. `debrief` must be the one issued for the
     * current state.
     */
    method Proceed(debrief: Decision) returns (outcome: LoadOutcome)
      requires debrief.finalDebrief == IsTerminal(debrief.nextScenarioId, gameState.missionNumber)
      modifies this
      ensures gameState == old(gameState)
      ensures outcome == LoadOutcomeOf(gameState, allScenarios, debrief.nextScenarioId)
      ensures storage == if outcome.Ended? then EndStore(old(storage), gameState) else old(storage)
    {
      if debrief.finalDebrief {
        EndSimulation();
        outcome := Ended;
      } else {
        outcome := LoadScenario(debrief.nextScenarioId);
      }
    }

    /** The role, the capped mission number, the status and its text (later tests overriding earlier ones) and the bar colours. */
    method UpdateUI() returns (view: View)
      ensures view.role == gameState.role
      ensures view.missionNumber == DisplayedMission(gameState.missionNumber)
      ensures view.status == DeriveStatus(gameState)
      ensures view.statusText == StatusText(view.status)
      ensures view.trustColor == MetricColor(gameState, PublicTrust)
      ensures view.resilienceColor == MetricColor(gameState, SystemResilience)
      ensures view.diplomacyColor == MetricColor(gameState, DiplomaticStability)
      ensures view.budgetColor == MetricColor(gameState, Budget)
    {
      var shownMission := if gameState.missionNumber > MAX_MISSIONS then MAX_MISSIONS else gameState.missionNumber;

      var trust, resilience, diplomacy, budget :=
        gameState.publicTrust, gameState.systemResilience, gameState.diplomaticStability, gameState.budget;
      var status, statusText := Nominal, "NOMINAL";
      if trust < WARNING_PERCENT || resilience < WARNING_PERCENT || diplomacy < WARNING_PERCENT || budget < WARNING_BUDGET {
        status, statusText := InstabilityWarning, "INSTABILITY WARNING";
      }
      if trust < DISASTER_PERCENT || resilience < DISASTER_PERCENT || diplomacy < DISASTER_PERCENT || budget <= 0 {
        status, statusText := CompleteDisaster, "COMPLETE DISASTER";
      }

      view := View(gameState.role, shownMission, status, statusText,
                   GetBarColor(Clamp(trust, MIN_PERCENT, MAX_PERCENT), false),
                   GetBarColor(Clamp(resilience, MIN_PERCENT, MAX_PERCENT), false),
                   GetBarColor(Clamp(diplomacy, MIN_PERCENT, MAX_PERCENT), false),
                   GetBarColor(budget, true));
    }
  }

  /**
   * Start-up with the catalog already fetched: without a saved session the
   * page leaves for the start screen; otherwise it resumes at the saved
   * scenario, or at START when none is saved.
   */
  method InitGame(catalog: Scenarios, store: Store) returns (sim: Simulator?, outcome: InitOutcome)
    ensures outcome.MissingSession? <==> GAME_STATE_KEY !in store
    ensures outcome.MissingSession? ==> sim == null
    ensures outcome.Started? ==>
      && sim != null && fresh(sim)
      && sim.allScenarios == catalog
      && sim.gameState == store[GAME_STATE_KEY]
      && outcome.load == LoadOutcomeOf(store[GAME_STATE_KEY], catalog, ScenarioToLoad(store[GAME_STATE_KEY]))
      && sim.storage == if outcome.load.Ended? then EndStore(store, sim.gameState) else store
  {
    if GAME_STATE_KEY !in store {
      return null, MissingSession;
    }
    sim := new Simulator(catalog, store, store[GAME_STATE_KEY]);
    var scenarioToLoad := ScenarioToLoad(sim.gameState);
    var load := sim.LoadScenario(scenarioToLoad);
    outcome := Started(load);
  }

  /**
   * A client of the specifications above: a session resumes at START with a
   * budget of 40, takes the option costing 50, and the debrief offers mission 2.
   */
  method ExampleSession() {
    var option := ScenarioOption("go", Consequences(None, None, None, Some(-50)), "ok", "M2");
    var catalog := map["START" := Scenario("Briefing", "First decision", [option])];
    var saved := GameState("Analyst", 1, None, 50, 50, 50, 40);
    var sim, outcome := InitGame(catalog, map[GAME_STATE_KEY := saved]);
    assert ScenarioToLoad(saved) == "START";
    assert outcome == Started(Presented(catalog["START"], [Button(option, true)]));
    var debrief := sim.MakeDecision(option);
    assert sim.gameState.budget == -10 && sim.gameState.missionNumber == 2;
    assert !debrief.finalDebrief && debrief.nextScenarioId == "M2";
    var next := sim.Proceed(debrief);
    assert next == NotFound("M2");
    assert sim.storage[GAME_STATE_KEY] == sim.gameState;
  }
}
