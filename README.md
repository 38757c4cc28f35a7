# Smart plant monitoring — a verified model

This project models the decision and control logic of a smart plant-watering
system. The system has two parts.

- **Backend.** It simulates a pot of soil. A timer tick evaporates moisture,
  resamples the temperature and lets an adaptive model start the pump. The
  running pump raises moisture until a cut-off, then feeds a good outcome back
  to the model. Every tick records a sample in a history of at most 50. HTTP
  commands toggle the pump and the AI flag, set the auto mode, and read the status,
  the statistics and the latest 24 samples.
- **The adaptive model (`PlantAIModel`).** It has one learned value, the
  moisture threshold. Feedback and temperature move it. The model also keeps an
  observation log capped at 100 and a log of every decision it takes.
- **Frontend.** It keeps its own simulation, with different constants: the pump
  adds 8 per tick and switches itself off only at 85. It has a rule-based check
  that toggles the pump in auto mode. It also has the chart windowing and the
  dashboard's classification of readings.

Modules, one per source file:

| module | file | source |
|---|---|---|
| `Common` | common.dfy | shared: instants, samples, bounded logs, `Math.round` |
| `Environment` | environment.dfy | evaporation, temperature resample and the 24-hour backfill, shared by backend and frontend |
| `PlantAI` | train_model.dfy | backend/trainModel.js |
| `Server` | server.dfy | backend/server.js |
| `PlantDataHook` | plant_data.dfy | frontend/src/hooks/usePlantData.js |
| `AISimulation` | ai_simulation.dfy | frontend/src/hooks/useAISimulation.js |
| `MoistureChart` | moisture_chart.dfy | frontend/src/components/charts/MoistureChart.jsx |
| `DataPanel` | data_panel.dfy | frontend/src/components/ui/DataPanel.jsx |

## How the model is built

**Classes with a value view.**
- `PlantAIModel` and the server's simulation state are updated in place, so
  they are classes. Each keeps the source's fields, and its methods modify them
  step by step.
- Each class also exposes its fields as a value: `State()` returns a
  `ModelState`, and `Current()` returns a `World`, which is the simulation
  state together with the model.
- Each method's contract says that the new value equals a pure transition of
  the old one. For example, `SimulateEnvironment` ensures
  `Current() == Tick(old(Current()), …)`, where `Tick` chains the five steps of
  the tick in source order.
- The system's promises are proved as lemmas about those transitions. They
  cover the moisture band, the pump rules, the bounded logs and the feedback.
- `RunPreservesInv` carries the invariant over any sequence of ticks and
  requests.

**Pure frontend code.**
- The frontend updaters become `PlantData → PlantData` functions over the
  record.
- The chart's two loops, the countdown that generates points and the in-place
  overwrite of the tail, stay loops. Each is proved equal to a specification
  function.

**Randomness and the clock.**
- Every `Math.random()` draw is a parameter `u` with `0 <= u < 1`.
- Every `new Date()` read is a parameter `now`, in milliseconds, with one read
  per tick or request. So a manual switch-on of the backend pump reports
  exactly zero hours since watering, which is what the code computes when the
  clock reset and the read happen in the same millisecond.

**Numbers.**
- Numbers are mathematical reals.
- `Math.round(x)` is `Round(x) = ⌊x + 1/2⌋`, and `Math.round(x * 10) / 10` is
  `Round1`.

**`/api/status` elapsed time.** The source divides the elapsed milliseconds by
`1000*60*60*10`, rounds, then divides by 10. The value it hands to the model is
therefore a hundredth of the elapsed hours, rounded to one decimal, not the
hours its comment names. `Server.StatusHours` models the code as written and
states that relation.

**Overdue watering.** The threshold is scaled by 0.7 after more than 48 hours
without water. That makes watering less likely, although the comment beside it
expects it to make watering more likely. The model follows the code, and
`PlantAI.WaterDecisionFactors` states the direction.

**Two frontend decisions.** The decay tick stores a decision taken on the
unrounded new moisture, while the rule-based check reads the shown moisture,
which is clamped and rounded to one decimal. The two therefore disagree when the
unrounded moisture lies in [34.95, 35): the stored decision says water, the check
starts no pump. `AISimulation.StoredDecisionDisagreesWithCheck` shows one such
tick.

## Model

| member | source | states |
|---|---|---|
| Common.HoursSince | backend/server.js:70-71 | elapsed hours are the elapsed milliseconds over 3 600 000; zero for the same instant, non-negative forward in time |
| Common.Round | backend/trainModel.js:76-77 | `Math.round` gives the integer within half of its argument |
| Common.Round1 | backend/server.js:110-111 | rounding to one decimal moves a value by at most 0.05 |
| Common.Round1Between | frontend/src/hooks/usePlantData.js:84 | a value clamped between two whole bounds stays between them once rounded to one decimal |
| Common.AppendCapped | backend/server.js:115-118 | push then one shift past the capacity keeps the latest entries of the log plus the new one, its length grows by one until capped |
| Common.AppendCappedFifo | backend/trainModel.js:15-26 | a log within capacity stays within it, the new entry is last and the older survivors keep their order, only the oldest evicted |
| Environment.TempEffect | backend/server.js:51 | the evaporation factor is 1.5 exactly above 26 degrees, else 1.0 |
| Environment.MoistureLoss | backend/server.js:51-52 | one tick's loss lies in [0.3, 0.85), at least 0.45 when hot and below 0.7 when not |
| Environment.ResampledTemperature | backend/server.js:62 | the new temperature lies in [20, 32) |
| Environment.Decay | backend/server.js:54-59 | evaporation never raises moisture, does nothing with the pump on or at the floor, otherwise gives `max(20, m - loss)`, and never takes moisture at or above 20 below 20 |
| Environment.BackfillSample | backend/server.js:35-40 | a backfill sample lies `i` hours back, with moisture in [25, 69), temperature in [20, 30) and the pump off |
| Environment.GenerateInitialData | backend/server.js:28-44 | the countdown loop yields 24 samples, the `k`-th from the `k`-th pair of draws, strictly chronological and ending now |
| PlantAI.Reinforce | backend/trainModel.js:29-37 | a good outcome gives `max(25, t - 2)`, a bad one `min(45, t + 3)`, no outcome leaves the threshold alone |
| PlantAI.ReinforceStaysInBand | backend/trainModel.js:29-37 | the reinforcement step keeps a threshold within [25, 45] inside it, and a good outcome never raises it, a bad one never lowers it |
| PlantAI.TemperatureNudge | backend/trainModel.js:40-44 | the threshold rises by 5 above 28 degrees, falls by 3 below 18, and is otherwise unchanged |
| PlantAI.Adapt | backend/trainModel.js:28-44 | without feedback only the temperature nudge applies, and between 18 and 28 degrees only the reinforcement step |
| PlantAI.AdaptBounds | backend/trainModel.js:28-44 | from [25, 45] one adaptation lands in [22, 50]: the nudge is not re-clamped |
| PlantAI.AdaptLeavesBand | backend/trainModel.js:40-44 | there are inputs taking the stored threshold to 50 and to 22, outside [25, 45] |
| PlantAI.RepeatGoodOutcomeDescends | backend/trainModel.js:29-32 | `n` good outcomes in mild weather lower the threshold to `max(25, t - 2n)` |
| PlantAI.TenGoodOutcomesFromInitial | backend/trainModel.js:29-32 | ten good outcomes take the initial 35 down to the floor of 25 |
| PlantAI.AdjustedMoisture | backend/trainModel.js:54-55 | above 26 degrees moisture is discounted by at most a fifth, otherwise taken as it is |
| PlantAI.AdjustedThreshold | backend/trainModel.js:58-61 | after more than 48 hours the threshold drops to no less than 70% of itself, otherwise it is kept |
| PlantAI.WaterDecision | backend/trainModel.js:54-61 | for non-negative readings the model always waters below 70% of the threshold and never once the discounted moisture reaches it |
| PlantAI.WaterDecisionClosedForm | backend/trainModel.js:54-61 | the decision is `moisture * (0.8 if hot else 1) < threshold * (0.7 if overdue else 1)` |
| PlantAI.WaterDecisionIsBaseDecision | backend/trainModel.js:51-61 | in mild weather within 48 hours the decision is the plain comparison with the threshold |
| PlantAI.WaterDecisionMonotone | backend/trainModel.js:54-61 | drier soil is watered whenever moister soil would be |
| PlantAI.WaterDecisionFactors | backend/trainModel.js:54-58 | for any temperatures on either side of 26 and any times on either side of 48 hours, heat only makes watering more likely and being overdue only less likely |
| PlantAI.ConfidencePercent | backend/trainModel.js:76 | a confidence in [0.3, 0.95] is reported as a whole percentage in [30, 95] |
| PlantAI.Sum | backend/trainModel.js:103 | a series of one repeated value sums to that value times its length |
| PlantAI.Mean | backend/trainModel.js:103 | the mean of a series of one repeated value is that value |
| PlantAI.SumOfSquares | backend/trainModel.js:104-105 | the squared deviations vanish on a series equal to the mean throughout |
| PlantAI.Variance | backend/trainModel.js:104-106 | a constant series has variance zero |
| PlantAI.SumOfSquaresNonNegative | backend/trainModel.js:104-106 | the sum of squared deviations is never negative |
| PlantAI.VarianceNonNegative | backend/trainModel.js:103-106 | the population variance is never negative |
| PlantAI.Temperatures | backend/trainModel.js:102 | the temperature map keeps the log's length and order |
| PlantAI.CountInRange | backend/trainModel.js:138-141 | the count of decisions with moisture in [30, 70] is at most the window's length |
| PlantAI.CountInRangeExtremes | backend/trainModel.js:137-143 | a window entirely in range counts fully, one entirely out of range counts zero |
| PlantAI.InitialModel | backend/trainModel.js:4-10 | the initial model respects its observation capacity |
| PlantAI.Updated | backend/trainModel.js:13-44 | an update logs the new observation last, grows the log by one or keeps a full log's length, keeps the capacity, and leaves the decision log and the weights alone |
| PlantAI.UpdatedEffect | backend/trainModel.js:13-44 | an update keeps at most 100 observations with the new one last and the older ones in order, adapts the threshold, and leaves the decision log and the weights alone |
| PlantAI.CalculateTemperatureStability | backend/trainModel.js:99-109 | stability is 0.7 with fewer than five observations, always within [0, 1], and 1 when the last five temperatures are equal |
| PlantAI.CalculateConfidence | backend/trainModel.js:87-97 | confidence lies in [0.3, 0.95] |
| PlantAI.GetDecisionReason | backend/trainModel.js:111-122 | the reason follows the priority: watering for dryness below 25, then heat above 28, then more than 48 hours, else optimal; holding when above 60, then cool below 16, else acceptable |
| PlantAI.ReasonDeterminesDecision | backend/trainModel.js:111-122 | no reason is given both for watering and for holding |
| PlantAI.DecisionRecord | backend/trainModel.js:65-72 | the logged record has the advice's decision, and its confidence and threshold round to the reported ones |
| PlantAI.Advice | backend/trainModel.js:50-85 | the advice's decision is the closed-form rule, its confidence a percentage in [30, 95] and its reason the one for that decision |
| PlantAI.Decided | backend/trainModel.js:65-72 | deciding adds one entry to the decision log and changes no other field |
| PlantAI.DecidedEffect | backend/trainModel.js:65-72 | asking for a decision appends exactly one record carrying the threshold in force and the advised decision, and changes neither the threshold nor the observations |
| PlantAI.CalculateAccuracy | backend/trainModel.js:133-144 | still learning below ten decisions; otherwise ten times the in-range count of the last ten, a percentage in [0, 100] |
| PlantAI.GetModelStats | backend/trainModel.js:124-131 | the statistics hold the rounded threshold, the observation count, the latest at most five decisions in order and the accuracy |
| PlantAI.ScenarioCriticalDryness | backend/trainModel.js:111-116 | dry soil on a hot day with the initial threshold is watered, for critical dryness rather than for the heat |
| PlantAI.ScenarioSufficientMoisture | backend/trainModel.js:50-122 | moist soil on a mild day is held, with moisture sufficient |
| PlantAI.PlantAIModel.constructor | backend/trainModel.js:4-10 | a new model has threshold 35 and empty logs |
| PlantAI.PlantAIModel.UpdateModel | backend/trainModel.js:13-47 | the fields after the update are `Updated` of the fields before |
| PlantAI.PlantAIModel.ShouldWater | backend/trainModel.js:50-85 | returns `Advice` of the fields before, and the fields after are `Decided` of those before |
| Server.PumpStep | backend/server.js:88 | the pump adds 6, never beyond 85 and never lowering moisture within the band |
| Server.StepsKeepBand | backend/server.js:54-88 | evaporation and the pump both keep moisture within [20, 85] |
| Server.StartAndStopInOneTick | backend/server.js:79-90 | a pump started at 69 or more reaches the cut-off in its first step |
| Server.StatusHours | backend/server.js:123-126 | the status clock is a hundredth of the elapsed hours, rounded to one decimal |
| Server.Evaporated | backend/server.js:50-59 | evaporation never raises moisture, leaves it alone with the pump on, never takes it below 20, and changes nothing else |
| Server.Resampled | backend/server.js:61-62 | the new temperature lies in [20, 32) and nothing else changes |
| Server.AutoStarted | backend/server.js:64-84 | the model is consulted only in auto mode with the AI on and the pump off, logging one decision; a start happens below 75 and restamps the watering clock; moisture, modes, history and the model's other fields are untouched |
| Server.Pumped | backend/server.js:86-102 | an idle pump changes nothing; a pump still on after the step is below 75; the step raises moisture up to 85; only moisture and the pump flag change in the simulation, and no decision is logged |
| Server.TickSample | backend/server.js:105-113 | the sample is stamped now, carries the pump state, and keeps a moisture inside [20, 85] inside it after rounding |
| Server.Recorded | backend/server.js:104-118 | recording puts the tick's sample last, grows the history by one or keeps a full one's length, and changes nothing else |
| Server.Tick | backend/server.js:49-119 | a tick leaves the modes and the model's weights alone, never forgets a decision, and ends with a sample stamped now |
| Server.TickPreservesInv | backend/server.js:49-119 | a tick keeps moisture within [20, 85], the history within 50 and the observations within 100 |
| Server.TickEnvironment | backend/server.js:51-62 | the tick's temperature is the fresh draw, the modes never change, and when nothing else acts moisture is evaporated by the loss of the previous temperature |
| Server.TickPumpStart | backend/server.js:64-84 | the pump starts exactly when it was off in auto mode with the AI on, the model says water and moisture is below 75; a start resets the watering clock; the model logs a decision exactly when consulted |
| Server.PumpedEffect | backend/server.js:86-102 | the running pump steps moisture; at 75 it switches off and gives the model exactly one good-outcome observation, last, with the older observations kept in order and within capacity, and an adapted threshold; otherwise the model is untouched |
| Server.TickPumpBelowCutoff | backend/server.js:86-102 | after a tick, a running pump means moisture below 75 |
| Server.RecordedEffect | backend/server.js:104-118 | recording appends one sample with the rounded readings and the pump state, last, keeps at most 50 and evicts only the oldest |
| Server.TickRecords | backend/server.js:104-118 | every tick ends with its own sample last, carrying the tick's final state |
| Server.ToggledPump | backend/server.js:147-161 | the toggle flips the pump, changes moisture and history not at all, logs no decision, and a switch-off leaves the clock and the model alone |
| Server.ToggledPumpEffect | backend/server.js:147-161 | the toggle flips the pump; a switch-on resets the clock and feeds a good outcome with zero elapsed hours, last, keeping the older observations in order; a switch-off changes only the flag |
| Server.ModeSet | backend/server.js:173-177 | auto mode holds exactly when the mode is "auto"; nothing else changes |
| Server.AIToggled | backend/server.js:179-182 | the AI flag flips and nothing else changes |
| Server.StatusAdvice | backend/server.js:122-132 | the status decision is the model's rule at a hundredth of the elapsed hours |
| Server.StatusRead | backend/server.js:122-132 | a status read leaves the simulation alone and adds one decision to the model, changing nothing else in it |
| Server.StatusReadEffect | backend/server.js:122-132 | a status read logs exactly one decision and changes nothing else |
| Server.LatestHistory | backend/server.js:188-190 | the history view is the last `min(24, n)` samples in order |
| Server.Apply | backend/server.js:49-190 | only a tick moves the moisture or records a sample, the history and statistics reads change nothing, and no event forgets a decision |
| Server.Run | backend/server.js:49-190 | without a tick the moisture and history stay as they were, and the decision log never shrinks |
| Server.ApplyPreservesInv | backend/server.js:147-190 | every tick and request keeps the invariant |
| Server.RunPreservesInv | backend/server.js:49-190 | any sequence of ticks and requests keeps the invariant |
| Server.PlantSimulation.constructor | backend/server.js:14-46 | the start state: 65, 22 degrees, pump off, both modes on, watered now, a fresh model and the 24-sample backfill |
| Server.PlantSimulation.SimulateEnvironment | backend/server.js:49-119 | the state after the tick is `Tick` of the state before, and the invariant holds |
| Server.PlantSimulation.Evaporate | backend/server.js:51-59 | the state after is `Evaporated` of the state before |
| Server.PlantSimulation.Resample | backend/server.js:62 | the state after is `Resampled` of the state before |
| Server.PlantSimulation.AutoStart | backend/server.js:65-84 | the state after is `AutoStarted` of the state before |
| Server.PlantSimulation.RunPump | backend/server.js:87-102 | the state after is `Pumped` of the state before |
| Server.PlantSimulation.RecordSample | backend/server.js:105-118 | the state after is `Recorded` of the state before |
| Server.PlantSimulation.Status | backend/server.js:122-132 | returns `StatusAdvice` and leaves `StatusRead` of the state before |
| Server.PlantSimulation.TogglePump | backend/server.js:147-171 | the state after is `ToggledPump` of the state before, and the reply is the new pump state |
| Server.PlantSimulation.SetMode | backend/server.js:173-177 | the state after is `ModeSet` of the state before |
| Server.PlantSimulation.ToggleAI | backend/server.js:179-182 | the state after is `AIToggled` of the state before |
| Server.PlantSimulation.Stats | backend/server.js:184-186 | returns the model's statistics |
| Server.PlantSimulation.History | backend/server.js:188-190 | returns the latest 24 samples |
| PlantDataHook.Initial | frontend/src/hooks/usePlantData.js:6-23 | the initial record is inside the band, pump off, both modes on, history empty |
| PlantDataHook.LoadInitialHistory | frontend/src/hooks/usePlantData.js:28-47 | only the history changes, to the 24 chronological backfill samples |
| PlantDataHook.ShiftThenPush | frontend/src/hooks/usePlantData.js:61-65 | the new sample is last after the newest old ones, and the history grows by one only below 50 |
| PlantDataHook.ShiftThenPushIsCapped | frontend/src/hooks/usePlantData.js:61-65 | shifting at 50 before the push is the backend's bounded log: at most 50, new sample last, oldest evicted |
| PlantDataHook.RoundedConfidence | frontend/src/hooks/usePlantData.js:77 | a confidence of at least 30 is shown as at least 30, one of at most 70 as at most 70 |
| PlantDataHook.LocalDecisionFor | frontend/src/hooks/usePlantData.js:76-81 | water exactly below 35, confidence at least 30 (at most 70 from moisture 20), and the matching reason |
| PlantDataHook.DecayTick | frontend/src/hooks/usePlantData.js:52-95 | with the pump on nothing changes; otherwise only moisture, temperature, history and the decision may change |
| PlantDataHook.DecayTickEffect | frontend/src/hooks/usePlantData.js:52-95 | the decay tick keeps the invariant; it is the identity with the pump on or at the floor; otherwise moisture strictly falls to the rounded clamp, the temperature is the rounded resample, one sample with the unclamped moisture is appended, the decision is the local rule on the unclamped moisture, and the switches and clock are unchanged |
| PlantDataHook.EvaporatedMoisture | frontend/src/hooks/usePlantData.js:54-84 | moisture above 20 losing at least 0.3 is shown strictly lower and not below 20 |
| PlantDataHook.DecaySampleBelowFloor | frontend/src/hooks/usePlantData.js:70-84 | the history can record 19.6 while the shown moisture is 20 |
| PlantDataHook.PumpTick | frontend/src/hooks/usePlantData.js:106-138 | the pump tick never switches the pump on and changes only moisture, the pump flag and the history |
| PlantDataHook.PumpTickEffect | frontend/src/hooks/usePlantData.js:106-138 | the pump tick keeps the invariant; pumping strictly raises moisture up to 85 and records one active sample; at 85 or more it only switches the pump off; off below 85 nothing changes; the pump switches itself off only at 85 |
| PlantDataHook.PumpSampleAboveCeiling | frontend/src/hooks/usePlantData.js:120-127 | the history can record 88 while the shown moisture is 85 |
| PlantDataHook.TogglePump | frontend/src/hooks/usePlantData.js:144-165 | the pump flips; the watering time is restamped only on a switch-on; nothing else changes |
| PlantDataHook.SetAutoMode | frontend/src/hooks/usePlantData.js:167-172 | auto mode takes the given value and nothing else changes |
| PlantDataHook.ToggleAI | frontend/src/hooks/usePlantData.js:174-179 | the AI flag flips and nothing else changes |
| PlantDataHook.Apply | frontend/src/hooks/usePlantData.js:52-179 | only the two ticks move the moisture or record a sample, and neither touches the mode or the AI switch |
| PlantDataHook.Run | frontend/src/hooks/usePlantData.js:52-179 | without a tick moisture and history stay as they were; ticks alone leave both switches as they were |
| PlantDataHook.ApplyPreservesInv | frontend/src/hooks/usePlantData.js:52-179 | every updater keeps moisture within [20, 85] and the history within 50 |
| PlantDataHook.RunPreservesInv | frontend/src/hooks/usePlantData.js:52-179 | any sequence of updaters keeps the invariant |
| AISimulation.ShouldWater | frontend/src/hooks/useAISimulation.js:13-16 | the start rule holds exactly when the dashboard's moisture rule (`LocalDecisionFor`) waters for the moisture the check reads, the pump is off and it is below 35 degrees |
| AISimulation.ShouldStopWatering | frontend/src/hooks/useAISimulation.js:18-20 | the stop rule never fires below 60, always from 80, and in between exactly above 30 degrees |
| AISimulation.Check | frontend/src/hooks/useAISimulation.js:6-28 | nothing outside auto mode; a start exactly for an off pump below 35 moisture and 35 degrees; a stop exactly for a running pump at 80 or at 60 above 30 degrees |
| AISimulation.BandsDisjoint | frontend/src/hooks/useAISimulation.js:13-20 | no reading both starts and stops the pump; a running pump is left alone between 35 and 60 |
| AISimulation.StoredDecisionDisagreesWithCheck | frontend/src/hooks/usePlantData.js:70-84 | a tick from 35.3 stores a decision to water on the unrounded 34.96 and shows 35.0, at which the check starts no pump |
| AISimulation.CheckPlant | frontend/src/hooks/useAISimulation.js:22-28 | outside auto mode the record is unchanged; the pump flips exactly when the check acts |
| AISimulation.CheckPlantEffect | frontend/src/hooks/useAISimulation.js:22-28 | a check toggles the pump at most once, exactly when it acts, in the direction of the action, and keeps the invariant |
| MoistureChart.Points | frontend/src/components/charts/MoistureChart.jsx:36 | 24 points exactly for "24h", otherwise 72 |
| MoistureChart.LatestMoisture | frontend/src/components/charts/MoistureChart.jsx:60-63 | the series ends on 65 without data, and inside [20, 85] when the data lies in it |
| MoistureChart.MockTime | frontend/src/components/charts/MoistureChart.jsx:40-47 | a point lies never after now, exactly at now only for `i == 0`, `i` hours back for "24h" |
| MoistureChart.BaselineAboveFloor | frontend/src/components/charts/MoistureChart.jsx:66 | the generated baseline stays within (25, 65] |
| MoistureChart.MockMoisture | frontend/src/components/charts/MoistureChart.jsx:59-73 | the current point takes the latest real moisture; earlier points lie in [25, 80) |
| MoistureChart.MockPoint | frontend/src/components/charts/MoistureChart.jsx:40-80 | a generated point has its step's instant, the pump off, a temperature in [20, 30), the latest real moisture rounded at `i == 0` and a moisture in [25, 80] before |
| MoistureChart.TimeBasedData | frontend/src/components/charts/MoistureChart.jsx:35-84 | exactly `Points(range)` points, the `k`-th generated `Points - 1 - k` steps back |
| MoistureChart.TimeBasedDataShape | frontend/src/components/charts/MoistureChart.jsx:35-84 | the generated series is chronological, ends now on the latest real moisture or 65, and its earlier points lie in [25, 80] with pump off |
| MoistureChart.GenerateTimeBasedData | frontend/src/components/charts/MoistureChart.jsx:35-84 | the countdown loop yields `TimeBasedData` |
| MoistureChart.DisplayData | frontend/src/components/charts/MoistureChart.jsx:87-110 | the display has `Points(range)` entries, its last `min(n, Points)` are the raw data's latest in order and the rest are generated |
| MoistureChart.DisplayDataCases | frontend/src/components/charts/MoistureChart.jsx:90-110 | enough data is shown as its latest `Points` samples, no data as the generated series, and any data ends on its latest sample |
| MoistureChart.ChartOf | frontend/src/components/charts/MoistureChart.jsx:112-117 | labels and values have the display's length and follow it elementwise |
| MoistureChart.TransformData | frontend/src/components/charts/MoistureChart.jsx:87-131 | the slice and in-place tail overwrite yield the chart of `DisplayData`, the overwrite guard always holding |
| DataPanel.GetMoistureStatus | frontend/src/components/ui/DataPanel.jsx:3-8 | the four statuses partition moisture at 60, 40 and 25 |
| DataPanel.GetStatusColor | frontend/src/components/ui/DataPanel.jsx:10-15 | one of the four status colours |
| DataPanel.GetStatusIcon | frontend/src/components/ui/DataPanel.jsx:17-22 | one of the three icons |
| DataPanel.TemperatureLabel | frontend/src/components/ui/DataPanel.jsx:70-74 | hot exactly above 28, cool exactly below 18, otherwise normal |
| DataPanel.StatusMonotone | frontend/src/components/ui/DataPanel.jsx:3-8 | moister soil never gets a worse status |
| DataPanel.ColorMatchesStatus | frontend/src/components/ui/DataPanel.jsx:3-15 | two readings share a colour exactly when they share a status |
| DataPanel.IconFollowsStatus | frontend/src/components/ui/DataPanel.jsx:3-22 | the droplet covers the two top statuses, the warning is Low and the alarm Critical |

## Left out

**Transport, timers and logging.**
- HTTP transport, CORS and JSON parsing.
- The response bodies' formatting (the rounded and labelled copies of the state).
- `setInterval` scheduling and `console.log` output.

  Ticks and requests are modelled as transitions applied in sequence.

**Clock labels.**
- `toLocaleTimeString` and `toLocaleDateString` labels. An instant stands for
  its label, so samples, `lastWatered` and chart labels carry instants.

**Randomness and time.**
- `Math.random()` and `new Date()` are parameters.
- At most one clock read per tick or request. So the timestamps inside one
  backend tick all coincide, as do the clock reset and the elapsed-time read of
  a manual switch-on.

**React.**
- React state, effects and callbacks.
- The interleaving of the frontend's concurrent intervals. The AI check reads
  the record captured by its effect, while `togglePump` updates the latest
  record; the model applies both to the same record.

**Other files.**
- The three.js scene and plant animation: rendering only.
- The Chart.js registration, options and dataset styling: configuration only.
- `App.jsx` and `ControlPanel.jsx`: composition and rendering only.
- The dashboard's JSX beyond the classification functions.

**Floating point.** IEEE double rounding is not modelled. Arithmetic is on
reals, with `Round`/`Round1` written out.

**Decisions about specific members.**
- The chart's `Number(x.toFixed(1))` is modelled as `Round1`. It
  differs from the source only on binary-float ties.
- The chart's generated points are each given their own four draws,
  and the ones it does not consume are ignored. The source draws only as many
  as the taken branches need, from one shared stream.
- PlantAI.CalculateConfidence: its contract states the bounds [0.3, 0.95], not
  the formula, which the function body carries.
- PlantAI.CalculateTemperatureStability: its contract states the value 0.7 for
  short logs and the bounds [0, 1], not the variance formula.
- DataPanel.GetStatusColor and DataPanel.GetStatusIcon: their own contracts
  only name the range of values. The band structure is stated by
  `ColorMatchesStatus` and `IconFollowsStatus` against `GetMoistureStatus`.
- The `learningRate` and `temperatureWeight` fields are kept but never read,
  as in the source.
