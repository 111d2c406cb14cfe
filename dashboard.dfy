/**
 * What the dashboard derives from the game state: the system status, the
 * colour of each metric bar, and the mission number shown.
 */
module Dashboard {
  import opened Wrappers
  import opened Metrics
  import opened Catalog
  import opened Engine

  const WARNING_PERCENT: int := 40
  const WARNING_BUDGET: int := 30
  const DISASTER_PERCENT: int := 15

  datatype SystemStatus = Nominal | InstabilityWarning | CompleteDisaster

  /** The text shown for each status; distinct statuses show distinct texts. */
  function StatusText(st: SystemStatus): (text: string)
    ensures text == "NOMINAL" <==> st == Nominal
    ensures text == "INSTABILITY WARNING" <==> st == InstabilityWarning
    ensures text == "COMPLETE DISASTER" <==> st == CompleteDisaster
  {
    match st
    case Nominal => "NOMINAL"
    case InstabilityWarning => "INSTABILITY WARNING"
    case CompleteDisaster => "COMPLETE DISASTER"
  }

  /**
   * The status starts as NOMINAL, the warning test may replace it, and the
   * disaster test, evaluated last, may replace that.
   */
  function DeriveStatus(s: GameState): (st: SystemStatus)
    ensures st == CompleteDisaster <==>
      s.publicTrust < DISASTER_PERCENT || s.systemResilience < DISASTER_PERCENT
      || s.diplomaticStability < DISASTER_PERCENT || s.budget <= 0
    ensures st == InstabilityWarning <==>
      !(s.publicTrust < DISASTER_PERCENT || s.systemResilience < DISASTER_PERCENT
        || s.diplomaticStability < DISASTER_PERCENT || s.budget <= 0)
      && (s.publicTrust < WARNING_PERCENT || s.systemResilience < WARNING_PERCENT
          || s.diplomaticStability < WARNING_PERCENT || s.budget < WARNING_BUDGET)
    ensures st == Nominal <==>
      !(s.publicTrust < WARNING_PERCENT || s.systemResilience < WARNING_PERCENT
        || s.diplomaticStability < WARNING_PERCENT || s.budget < WARNING_BUDGET)
  {
    var st := Nominal;
    var st := if s.publicTrust < WARNING_PERCENT || s.systemResilience < WARNING_PERCENT
                 || s.diplomaticStability < WARNING_PERCENT || s.budget < WARNING_BUDGET
              then InstabilityWarning else st;
    if s.publicTrust < DISASTER_PERCENT || s.systemResilience < DISASTER_PERCENT
       || s.diplomaticStability < DISASTER_PERCENT || s.budget <= 0
    then CompleteDisaster else st
  }

  datatype BarColor = Green | Yellow | Red | Cyan

  /** Percentage bars are green, yellow or red; the budget bar is cyan, yellow or red. */
  function GetBarColor(value: int, isBudget: bool): (c: BarColor)
    ensures isBudget ==>
      && (c == Red <==> value < 20)
      && (c == Yellow <==> 20 <= value < 50)
      && (c == Cyan <==> 50 <= value)
    ensures !isBudget ==>
      && (c == Green <==> 70 <= value)
      && (c == Yellow <==> 40 <= value < 70)
      && (c == Red <==> value < 40)
  {
    if isBudget then
      var color := Cyan;
      var color := if value < 50 then Yellow else color;
      if value < 20 then Red else color
    else if value >= 70 then Green
    else if value >= 40 then Yellow
    else Red
  }

  /**
   * The colour of a metric's bar. A percentage metric is clamped to [0, 100]
   * before it is classified, the budget is classified as it is; the clamp
   * never changes the colour.
   */
  function MetricColor(s: GameState, m: Metric): (c: BarColor)
    ensures c == GetBarColor(Value(s, m), m == Budget)
  {
    var display := if m == Budget then Value(s, m) else Clamp(Value(s, m), MIN_PERCENT, MAX_PERCENT);
    GetBarColor(display, m == Budget)
  }

  /** The mission number shown never exceeds the last mission. */
  function DisplayedMission(missionNumber: int): (shown: int)
    ensures shown <= MAX_MISSIONS
    ensures missionNumber <= MAX_MISSIONS ==> shown == missionNumber
    ensures missionNumber > MAX_MISSIONS ==> shown == MAX_MISSIONS
  {
    if missionNumber > MAX_MISSIONS then MAX_MISSIONS else missionNumber
  }

  /** One percentage metric under 15 makes a disaster whatever the others are. */
  lemma LowTrustIsDisaster()
    ensures DeriveStatus(GameState("Analyst", 1, None, 10, 90, 90, 90)) == CompleteDisaster
  {
  }

  /** A budget under 30 alone makes a warning. */
  lemma LowBudgetIsWarning()
    ensures DeriveStatus(GameState("Analyst", 1, None, 50, 50, 50, 25)) == InstabilityWarning
  {
  }

  /**
   * From a budget of 40, an option costing 50 takes the budget to -10 and the
   * status to disaster; the same option is shown disabled for insufficient funds.
   */
  lemma OverdraftExample()
    ensures var s := GameState("Analyst", 1, None, 50, 50, 50, 40);
            var option := ScenarioOption("go", Consequences(None, None, None, Some(-50)), "ok", "M2");
            var d := Decide(s, option);
            && d.state.budget == -10
            && d.state.missionNumber == 2
            && d.state.currentScenario == Some("M2")
            && DeriveStatus(d.state) == CompleteDisaster
            && IsDisabled(s.budget, option)
  {
  }
}
