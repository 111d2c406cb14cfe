# Classified Mission Simulator — decision engine in Dafny

This project models the decision engine of the Classified Mission Simulator dashboard (`app.js`).
A player holds a role and four metrics: public trust, system resilience, diplomatic stability and budget.
The player moves through at most ten missions. Each mission is a scenario from a read-only catalog, and each scenario offers options.
Choosing an option does four things:
- it moves the three percentage metrics, each clamped to [0, 100];
- it moves the budget, with no clamp;
- it records an analysis item for each metric whose consequence is present and non-zero, even when the clamp absorbs it;
- it advances the mission counter by one and sets the scenario to load next.

A scenario whose id is `END` in any case, or a mission counter past 10, ends the simulation.
Ending saves a final snapshot and clears the session from storage.

Modules, one per component of the page script:

- `Wrappers`: `Option`. A consequence field of a scenario option may be absent.
- `Metrics`: `Clamp`, the `Metric` enumeration and the analysis labels.
- `Catalog`: scenarios, options and consequences. `Truthy` is the page's truthiness test on a consequence field (absent and `0` are both false).
- `Engine`: the `GameState` record, the terminal test, `Decide` (the effect of one decision) and `LoadOutcomeOf` (the outcome of loading an id).
- `Playthrough`: runs of decisions. Proves the mission counter, the range and budget facts along a run, and the bound on how many decisions a session makes.
- `Dashboard`: the system status, the bar colours and the capped mission number.
- `Storage`: the key-value storage and what ending the simulation does to it.
- `Controller`: the session object `Simulator`, whose methods change `gameState` and `storage` in place as the page's handlers do, and `InitGame`.

Each imperative method is proved equal to its pure counterpart:
- `MakeDecision` to `Decide`;
- `LoadScenario` and `Proceed` to `LoadOutcomeOf`;
- `UpdateUI` to `DeriveStatus`, `MetricColor` and `DisplayedMission`;
- `EndSimulation` to `EndStore`.

The properties are proved about those counterparts.

Interfaces kept abstract:
- The catalog is a `map` given to `InitGame`. Fetching it is outside the model.
- Storage is a `map` from keys to the game states serialised under them.
- The two redirects of the page become the outcomes `MissingSession` and `Ended`.

## Model

| member | source | states |
|---|---|---|
| `Metrics.Clamp` | app.js:366-368 | with lo ≤ hi the result lies in [lo, hi]; a value already in range is returned unchanged; below lo gives lo; above hi gives hi; with lo > hi the result is lo |
| `Engine.UpperIsEnd` | app.js:91 | the id upper-cases to `END` exactly when it is a three-letter spelling of END in any mix of cases |
| `Engine.IsTerminal` | app.js:91-94 | the simulation ends exactly when the id spells END in some case, or the mission number exceeds 10 |
| `Engine.TerminalExamples` | app.js:91 | `END`, `end` and `End` terminate; `ENDING` does not, nor `START` at mission 10; mission 11 does |
| `Engine.ScenarioToLoad` | app.js:79 | the session resumes at the saved scenario id when it is a non-empty string, and at `START` otherwise |
| `Engine.ReportedMetrics` | app.js:146-165 | a metric is listed exactly when its consequence is truthy (present and non-zero), whether or not the clamp lets its value move; the list is strictly in the order trust, resilience, diplomacy, budget |
| `Engine.Decide` | app.js:138-173 | each percentage metric becomes clamp(old + delta, 0, 100) when its delta is truthy and is unchanged otherwise; percentages in range stay in range; budget becomes old + delta with an absent delta counting as 0, without clamp; role unchanged; mission number +1; current scenario and next id are the option's next scenario; the debrief is final exactly when the next id and the incremented counter are terminal |
| `Engine.DecisionReport` | app.js:146-165 | the analysis items are exactly one per metric with a truthy consequence, in the fixed order, including one whose value the clamp leaves unchanged. Each item carries its metric's label, its delta and its old and new value. Only the budget item has isBudget |
| `Engine.ClampAbsorbedIsReported` | app.js:146-149 | trust 100 raised by 10 records the item Public Trust, +10, 100 → 100 |
| `Engine.IsDisabled` | app.js:121-127 | an option is disabled exactly when its budget delta is non-zero and budget + delta < 0 |
| `Engine.LoadOutcomeOf` | app.js:88-131 | the simulation ends exactly when the id or counter is terminal. The result is not-found exactly when the test passes and the id is not in the catalog. Otherwise the catalogued scenario is shown with one button per option, in order, each disabled per `IsDisabled` |
| `Engine.TerminalBeforeLookup` | app.js:89-94 | a terminal id or counter ends the session even when the id is in the catalog |
| `Engine.DisabledIffOverdraws` | app.js:121-127 | an option is disabled exactly when its budget delta is truthy and choosing it would leave a negative budget |
| `Engine.EnabledKeepsSolvent` | app.js:120-127 | choosing an enabled option from a non-negative budget leaves the budget non-negative |
| `Engine.DebriefAgreesWithLoad` | app.js:207-214 | the debrief offers the final debrief exactly when loading the captured next id on the post-decision state would end the simulation |
| `Playthrough.PlayAdvancesMission` | app.js:172 | after k decisions the mission number is the start number plus k |
| `Playthrough.PlayKeepsPercentages` | app.js:146-160 | the three percentage metrics stay in [0, 100] along any run of decisions |
| `Playthrough.PlayBudget` | app.js:161-165 | after a run the budget is the start budget plus the sum of all budget deltas, none clamped |
| `Playthrough.PlayKeepsRole` | app.js:138-173 | no decision changes the role |
| `Playthrough.DecisionBound` | app.js:207-215 | if the first load did not terminate and every debrief but the last led to another mission, at most 10 − start + 1 decisions were made |
| `Playthrough.LastDebriefIsFinal` | app.js:207-210 | the decision that reaches that bound always leads to the final debrief |
| `Dashboard.DeriveStatus` | app.js:279-293 | COMPLETE DISASTER exactly when a percentage is below 15 or budget ≤ 0; INSTABILITY WARNING exactly when not a disaster and a percentage is below 40 or budget below 30; NOMINAL exactly when no warning condition holds |
| `Dashboard.LowTrustIsDisaster` | app.js:289-293 | trust 10 with everything else at 90 is COMPLETE DISASTER |
| `Dashboard.LowBudgetIsWarning` | app.js:283-287 | percentages at 50 with budget 25 is INSTABILITY WARNING |
| `Dashboard.OverdraftExample` | app.js:161-173 | from budget 40 an option costing 50 gives budget −10, mission 2, next scenario M2 and COMPLETE DISASTER, and the same option is shown disabled |
| `Dashboard.StatusText` | app.js:279-290 | NOMINAL, INSTABILITY WARNING and COMPLETE DISASTER are the texts of the three statuses, one each |
| `Dashboard.GetBarColor` | app.js:338-357 | budget: red below 20, yellow in [20, 50), cyan from 50; percentages: green from 70, yellow in [40, 70), red below 40 |
| `Dashboard.MetricColor` | app.js:314-321 | clamping a percentage to [0, 100] before classifying it never changes its colour |
| `Dashboard.DisplayedMission` | app.js:263 | the shown mission number is the mission number capped at 10 |
| `Storage.EndStore` | app.js:373-383 | the final snapshot is stored under cmsFinalState. Neither cmsGameState nor cmsCurrentScenario remains. Every other key keeps its entry |
| `Controller.Simulator.EndSimulation` | app.js:373-383 | storage becomes `EndStore` of the old storage and the current state; the game state is unchanged |
| `Controller.Simulator.PresentOptions` | app.js:115-131 | one button per option, in order, each disabled exactly as `IsDisabled` says for the current budget |
| `Controller.Simulator.LoadScenario` | app.js:88-132 | the outcome is `LoadOutcomeOf` on the current state; storage is ended only on the terminal outcome; the game state is unchanged |
| `Controller.Simulator.MakeDecision` | app.js:138-184 | the field-by-field update yields exactly `Decide` of the old state: its new state, items, next id and debrief choice. Percentages in range stay in range. The new state is saved under cmsGameState |
| `Controller.Simulator.Proceed` | app.js:206-215 | for the debrief of the current state, the button's branch gives the same outcome as loading the captured next id |
| `Controller.Simulator.UpdateUI` | app.js:257-298 | the step-by-step status assignment equals `DeriveStatus`, and the status text assigned beside it is that status's `StatusText`; the mission shown is capped; each bar colour equals `MetricColor` |
| `Controller.InitGame` | app.js:51-82 | a session is missing exactly when no cmsGameState entry exists. Otherwise the saved state is loaded and `ScenarioToLoad` of it is loaded, with the outcome of `LoadOutcomeOf` |

## Left out

- Fetching and parsing `missions.json` (app.js:53-64): I/O. The catalog is a parameter of `InitGame`, and fetch failure is not modelled.
- JSON serialisation of the saved state (app.js:69, 176, 375): storage holds `GameState` values directly.
- Page navigation (app.js:73, 382): it becomes the outcomes `MissingSession` and `Ended`.
- DOM work: element references, titles and descriptions, button creation and its "Insufficient Funds" text, the debrief's button labels and classes, analysis cards, animation delays, CSS class strings (app.js:16-43, 96-100, 104-105, 110-118, 124, 128-130, 194-251, 295-297, 324-329). This is presentation only.
- The bar width `value / max * 100` in `updateBar` (app.js:311-315): it is fractional and display-only.
- Disabling every button while a decision is processed (app.js:143): a guard against double clicks, not logic.
- `IsTerminal`: JavaScript's `toUpperCase` is modelled only as mapping a–z to A–Z. Its other case mappings are not modelled.
- `LoadOutcomeOf`: a catalog lookup of an id such as `toString`, which a JavaScript object inherits from its prototype, is not modelled. The catalog is a plain map.
- Metrics that are missing or not integers in the saved state (the `NaN` effect of `budget += delta` on `undefined`): every metric is an integer. So `gameState.budget || 0` (app.js:122) equals the budget.
- `updateUI`'s `if (!gameState) return` (app.js:258): the state is always an object there.
- An empty stored string under cmsGameState (app.js:68 would treat it as absent): storage entries are game states, so presence is the only test.
- What is stored under cmsCurrentScenario: the model only removes that key.
- `Proceed` requires the debrief it is given to be the one issued for the current state. On the page nothing changes the state between the debrief and the click on its button.
- The `updateUI` calls after loading and deciding (app.js:81, 179) only redraw. `UpdateUI` models what they compute.

Two behaviours of the code a reader might not expect:
- A consequence of exactly `0` is skipped like an absent one. No analysis item is recorded for it.
- The disabled test compares the budget itself with 0. The budget is not floored.
