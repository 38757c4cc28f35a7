/** The backend control loop: the authoritative simulation state, the periodic
    tick that evaporates, resamples the temperature, lets the AI start the pump,
    runs the pump with its automatic shut-off and feedback, and records a sample;
    and the command handlers of the HTTP interface, as state transitions. */
module Server {
  import opened Common
  import opened Environment
  import opened PlantAI

  const HistoryCapacity: nat := 50
  /** `/api/history` serves this many of the latest samples. */
  const HistoryView: nat := 24
  /** The pump's step per tick and its ceiling. */
  const PumpRate: real := 6.0
  const PumpCeiling: real := 85.0
  /** The pump switches off once moisture reaches this level. */
  const PumpCutoff: real := 75.0
  /** The AI may only start the pump below this level. */
  const AutoStartLimit: real := 75.0

  /** One tick of the running pump: six points more, capped at 85. */
  function PumpStep(moisture: real): (m: real)
    ensures m <= PumpCeiling
    ensures moisture <= PumpCeiling - PumpRate ==> m == moisture + PumpRate
    ensures moisture <= PumpCeiling ==> m >= moisture
  {
    Min(PumpCeiling, moisture + PumpRate)
  }

  /** The moisture band the loop keeps. */
  predicate InBand(moisture: real) {
    MoistureFloor <= moisture <= PumpCeiling
  }

  /** Evaporation and the pump both keep moisture inside [20, 85]. */
  lemma StepsKeepBand(moisture: real, pumpOn: bool, temperature: real, u: real)
    requires InBand(moisture) && IsDraw(u)
    ensures InBand(Decay(moisture, pumpOn, MoistureLoss(temperature, u)))
    ensures InBand(PumpStep(moisture))
  {
  }

  /** The pump starts and stops in the same tick whenever it starts at 69 or more:
      the one step already reaches the cut-off. */
  lemma StartAndStopInOneTick(moisture: real)
    requires 69.0 <= moisture < AutoStartLimit
    ensures PumpStep(moisture) >= PumpCutoff
  {
  }

  /** `/api/status`'s elapsed time: `Math.round(ms / (1000*60*60*10)) / 10`, which is a
      hundredth of the elapsed hours rounded to one decimal, not the hours its comment names. */
  function StatusHours(since: Time, now: Time): (h: real)
    ensures h == Round1(HoursSince(since, now) / 100.0)
  {
    Round((now - since) as real / 36000000.0) as real / 10.0
  }

  /** The simulation's own fields, as a value. */
  datatype SimState = SimState(
    moisture: real,
    temperature: real,
    pumpStatus: bool,
    lastWatered: Time,
    isAutoMode: bool,
    aiEnabled: bool,
    historicalData: seq<Sample>)

  /** Everything the server holds: the simulation and its decision model. */
  datatype World = World(sim: SimState, model: ModelState)

  /** The loop's invariant: moisture inside [20, 85] and both logs inside their capacity. */
  predicate Inv(w: World) {
    InBand(w.sim.moisture) && |w.sim.historicalData| <= HistoryCapacity && ValidModel(w.model)
  }

  /** Evaporation with the tick's first draw, from the temperature before the resample. */
  function Evaporated(w: World, lossDraw: real): (r: World)
    requires IsDraw(lossDraw)
    ensures r.sim.moisture <= w.sim.moisture
    ensures w.sim.pumpStatus ==> r.sim.moisture == w.sim.moisture
    ensures w.sim.moisture >= MoistureFloor ==> r.sim.moisture >= MoistureFloor
    ensures r.sim.(moisture := w.sim.moisture) == w.sim && r.model == w.model
  {
    w.(sim := w.sim.(moisture := Decay(w.sim.moisture, w.sim.pumpStatus, MoistureLoss(w.sim.temperature, lossDraw))))
  }

  /** The temperature resample with the tick's second draw. */
  function Resampled(w: World, temperatureDraw: real): (r: World)
    requires IsDraw(temperatureDraw)
    ensures 20.0 <= r.sim.temperature < 32.0
    ensures r.sim.(temperature := w.sim.temperature) == w.sim && r.model == w.model
  {
    w.(sim := w.sim.(temperature := ResampledTemperature(temperatureDraw)))
  }

  /** The model is consulted only in auto mode, with the AI enabled and the pump off. */
  predicate AsksModel(s: SimState) {
    s.isAutoMode && s.aiEnabled && !s.pumpStatus
  }

  /** The AI gate: when the model is consulted it logs a decision, and the pump starts,
      resetting the watering clock, when it says water and moisture is below 75. */
  function AutoStarted(w: World, now: Time): (r: World)
    ensures !AsksModel(w.sim) ==> r == w
    ensures r.sim.pumpStatus && !w.sim.pumpStatus ==> r.sim.moisture < AutoStartLimit && r.sim.lastWatered == now
    ensures r.sim.(pumpStatus := w.sim.pumpStatus, lastWatered := w.sim.lastWatered) == w.sim
    ensures r.model.(decisionHistory := w.model.decisionHistory) == w.model
    ensures |r.model.decisionHistory| == |w.model.decisionHistory| + (if AsksModel(w.sim) then 1 else 0)
  {
    if AsksModel(w.sim) then
      var hours := HoursSince(w.sim.lastWatered, now);
      var advice := Advice(w.model, w.sim.moisture, w.sim.temperature, hours);
      var model := Decided(w.model, w.sim.moisture, w.sim.temperature, hours, now);
      if advice.shouldWater && w.sim.moisture < AutoStartLimit then
        World(w.sim.(pumpStatus := true, lastWatered := now), model)
      else
        w.(model := model)
    else w
  }

  /** The running pump adds its step; at 75 or more it switches off and feeds a good
      outcome back to the model. */
  function Pumped(w: World, now: Time): (r: World)
    ensures !w.sim.pumpStatus ==> r == w
    ensures r.sim.pumpStatus ==> w.sim.pumpStatus && r.sim.moisture < PumpCutoff
    ensures w.sim.pumpStatus && w.sim.moisture <= PumpCeiling ==> w.sim.moisture <= r.sim.moisture <= PumpCeiling
    ensures r.sim.(moisture := w.sim.moisture, pumpStatus := w.sim.pumpStatus) == w.sim
    ensures r.model.decisionHistory == w.model.decisionHistory
  {
    if w.sim.pumpStatus then
      var moisture := PumpStep(w.sim.moisture);
      if moisture >= PumpCutoff then
        World(w.sim.(moisture := moisture, pumpStatus := false),
          Updated(w.model, moisture, w.sim.temperature, HoursSince(w.sim.lastWatered, now), Some(true), now))
      else
        w.(sim := w.sim.(moisture := moisture))
    else w
  }

  /** The tick's history sample, rounded to one decimal: stamped now, with the pump
      state, and with a moisture inside [20, 85] when the state's is. */
  function TickSample(s: SimState, now: Time): (x: Sample)
    ensures x.time == now && x.pumpActive == s.pumpStatus
    ensures InBand(s.moisture) ==> InBand(x.moisture)
  {
    var moisture := Round1(s.moisture);
    assert InBand(s.moisture) ==> InBand(moisture) by {
      if InBand(s.moisture) { Round1Between(s.moisture, 20, 85); }
    }
    Sample(now, moisture, Round1(s.temperature), s.pumpStatus)
  }

  /** Appends the tick's sample, evicting the oldest past 50. */
  function Recorded(w: World, now: Time): (r: World)
    ensures |r.sim.historicalData| == |w.sim.historicalData| + 1 || |r.sim.historicalData| == |w.sim.historicalData| >= HistoryCapacity
    ensures r.sim.historicalData[|r.sim.historicalData| - 1] == TickSample(w.sim, now)
    ensures r.sim.(historicalData := w.sim.historicalData) == w.sim && r.model == w.model
  {
    w.(sim := w.sim.(historicalData := AppendCapped(w.sim.historicalData, TickSample(w.sim, now), HistoryCapacity)))
  }

  /** One tick of `simulateEnvironment`, step by step. */
  function Tick(w: World, lossDraw: real, temperatureDraw: real, now: Time): (r: World)
    requires IsDraw(lossDraw) && IsDraw(temperatureDraw)
    ensures r.sim.isAutoMode == w.sim.isAutoMode && r.sim.aiEnabled == w.sim.aiEnabled
    ensures |r.model.decisionHistory| >= |w.model.decisionHistory|
    ensures |r.sim.historicalData| > 0 && r.sim.historicalData[|r.sim.historicalData| - 1].time == now
    ensures r.model.learningRate == w.model.learningRate && r.model.temperatureWeight == w.model.temperatureWeight
  {
    Recorded(Pumped(AutoStarted(Resampled(Evaporated(w, lossDraw), temperatureDraw), now), now), now)
  }

  /** The tick keeps the loop's invariant. */
  lemma TickPreservesInv(w: World, lossDraw: real, temperatureDraw: real, now: Time)
    requires Inv(w) && IsDraw(lossDraw) && IsDraw(temperatureDraw)
    ensures Inv(Tick(w, lossDraw, temperatureDraw, now))
  {
    var w1 := Evaporated(w, lossDraw);
    StepsKeepBand(w.sim.moisture, w.sim.pumpStatus, w.sim.temperature, lossDraw);
    var w3 := AutoStarted(Resampled(w1, temperatureDraw), now);
    assert InBand(w3.sim.moisture) && ValidModel(w3.model);
    var w4 := Pumped(w3, now);
    StepsKeepBand(w3.sim.moisture, false, 0.0, 0.0);
    if w3.sim.pumpStatus && PumpStep(w3.sim.moisture) >= PumpCutoff {
      UpdatedEffect(w3.model, PumpStep(w3.sim.moisture), w3.sim.temperature,
        HoursSince(w3.sim.lastWatered, now), Some(true), now);
    }
    assert Inv(w4);
    AppendCappedFifo(w4.sim.historicalData, TickSample(w4.sim, now), HistoryCapacity);
  }

  /** Evaporation and the resample: moisture falls only with the pump off, by the loss
      computed from the temperature before the resample; the new temperature is the
      fresh draw; the modes never change in a tick. */
  lemma TickEnvironment(w: World, lossDraw: real, temperatureDraw: real, now: Time)
    requires IsDraw(lossDraw) && IsDraw(temperatureDraw)
    ensures var r := Tick(w, lossDraw, temperatureDraw, now);
      && r.sim.temperature == ResampledTemperature(temperatureDraw)
      && r.sim.isAutoMode == w.sim.isAutoMode && r.sim.aiEnabled == w.sim.aiEnabled
    ensures !w.sim.pumpStatus && !AsksModel(w.sim) ==>
      Tick(w, lossDraw, temperatureDraw, now).sim.moisture
        == Decay(w.sim.moisture, false, MoistureLoss(w.sim.temperature, lossDraw))
  {
  }

  /** The pump starts in a tick exactly when it was off, the model was consulted, said
      water, and the evaporated moisture is below 75; a start resets the watering clock.
      The model logs a decision exactly when it is consulted. */
  lemma TickPumpStart(w: World, lossDraw: real, temperatureDraw: real, now: Time)
    requires IsDraw(lossDraw) && IsDraw(temperatureDraw)
    ensures var w2 := Resampled(Evaporated(w, lossDraw), temperatureDraw);
      var w3 := AutoStarted(w2, now);
      var started := AsksModel(w.sim)
        && WaterDecision(w2.sim.moisture, w2.sim.temperature, HoursSince(w.sim.lastWatered, now), w.model.moistureThreshold)
        && w2.sim.moisture < AutoStartLimit;
      && (w3.sim.pumpStatus <==> w.sim.pumpStatus || started)
      && w3.sim.lastWatered == (if started then now else w.sim.lastWatered)
      && w3.sim.moisture == w2.sim.moisture
      && |w3.model.decisionHistory| == |w.model.decisionHistory| + (if AsksModel(w.sim) then 1 else 0)
      && w3.model.moistureThreshold == w.model.moistureThreshold
      && w3.model.historicalData == w.model.historicalData
  {
  }

  /** The running pump: a step of six capped at 85; at 75 it stops and the model is
      given exactly one new observation, a good outcome, and adapts its threshold;
      otherwise the model's observations and threshold are untouched. */
  lemma PumpedEffect(w: World, now: Time)
    requires ValidModel(w.model)
    ensures var r := Pumped(w, now);
      var stopped := w.sim.pumpStatus && PumpStep(w.sim.moisture) >= PumpCutoff;
      && r.sim.moisture == (if w.sim.pumpStatus then PumpStep(w.sim.moisture) else w.sim.moisture)
      && r.sim.pumpStatus == (w.sim.pumpStatus && !stopped)
      && r.sim.lastWatered == w.sim.lastWatered
      && r.model.decisionHistory == w.model.decisionHistory
      && (stopped ==>
        && ValidModel(r.model)
        && r.model.historicalData[|r.model.historicalData| - 1]
             == Observation(r.sim.moisture, w.sim.temperature, HoursSince(w.sim.lastWatered, now), now, Some(true))
        && r.model.historicalData[..|r.model.historicalData| - 1]
             == (if |w.model.historicalData| == ObservationCapacity then w.model.historicalData[1..] else w.model.historicalData)
        && r.model.moistureThreshold == Adapt(w.model.moistureThreshold, Some(true), w.sim.temperature))
      && (!stopped ==> r.model == w.model)
  {
    if w.sim.pumpStatus && PumpStep(w.sim.moisture) >= PumpCutoff {
      UpdatedEffect(w.model, PumpStep(w.sim.moisture), w.sim.temperature,
        HoursSince(w.sim.lastWatered, now), Some(true), now);
    }
  }

  /** After a tick the pump is on only below the cut-off: a step that reaches 75
      always switches it off in the same tick. */
  lemma TickPumpBelowCutoff(w: World, lossDraw: real, temperatureDraw: real, now: Time)
    requires IsDraw(lossDraw) && IsDraw(temperatureDraw)
    ensures var r := Tick(w, lossDraw, temperatureDraw, now);
      r.sim.pumpStatus ==> r.sim.moisture < PumpCutoff
  {
  }

  /** Recording appends exactly one sample, last, carrying the pump state and the
      moisture and temperature rounded to one decimal; the history never exceeds 50
      and only its oldest sample is evicted. Nothing else changes. */
  lemma RecordedEffect(w: World, now: Time)
    requires |w.sim.historicalData| <= HistoryCapacity
    ensures var r := Recorded(w, now);
      var h := r.sim.historicalData;
      && |h| <= HistoryCapacity
      && h[|h| - 1] == Sample(now, Round1(w.sim.moisture), Round1(w.sim.temperature), w.sim.pumpStatus)
      && h[..|h| - 1] == (if |w.sim.historicalData| == HistoryCapacity then w.sim.historicalData[1..] else w.sim.historicalData)
      && r.sim.(historicalData := w.sim.historicalData) == w.sim && r.model == w.model
  {
    AppendCappedFifo(w.sim.historicalData, TickSample(w.sim, now), HistoryCapacity);
  }

  /** Every tick records exactly one sample, carrying the tick's final state. */
  lemma TickRecords(w: World, lossDraw: real, temperatureDraw: real, now: Time)
    requires |w.sim.historicalData| <= HistoryCapacity && IsDraw(lossDraw) && IsDraw(temperatureDraw)
    ensures var r := Tick(w, lossDraw, temperatureDraw, now);
      var h := r.sim.historicalData;
      && |h| <= HistoryCapacity
      && h[|h| - 1] == Sample(now, Round1(r.sim.moisture), Round1(r.sim.temperature), r.sim.pumpStatus)
      && h[..|h| - 1] == (if |w.sim.historicalData| == HistoryCapacity then w.sim.historicalData[1..] else w.sim.historicalData)
  {
    var w4 := Pumped(AutoStarted(Resampled(Evaporated(w, lossDraw), temperatureDraw), now), now);
    assert w4.sim.historicalData == w.sim.historicalData;
    RecordedEffect(w4, now);
  }

  /** `/api/pump/toggle`: flips the pump. Switching it on resets the watering clock
      first and then feeds a good outcome back with the elapsed time measured against
      the reset clock. Switching it off touches nothing else. */
  function ToggledPump(w: World, now: Time): (r: World)
    ensures r.sim.pumpStatus == !w.sim.pumpStatus
    ensures r.sim.(pumpStatus := w.sim.pumpStatus, lastWatered := w.sim.lastWatered) == w.sim
    ensures r.model.decisionHistory == w.model.decisionHistory
    ensures !r.sim.pumpStatus ==> r.model == w.model && r.sim.lastWatered == w.sim.lastWatered
  {
    if !w.sim.pumpStatus then
      var sim := w.sim.(pumpStatus := true, lastWatered := now);
      World(sim, Updated(w.model, sim.moisture, sim.temperature, HoursSince(sim.lastWatered, now), Some(true), now))
    else
      w.(sim := w.sim.(pumpStatus := false))
  }

  /** A manual switch-on always reports zero hours since watering to the model, so the
      feedback never reflects the real interval; a switch-off changes only the flag. */
  lemma ToggledPumpEffect(w: World, now: Time)
    requires Inv(w)
    ensures var r := ToggledPump(w, now);
      && Inv(r)
      && r.sim.pumpStatus == !w.sim.pumpStatus
      && r.sim.moisture == w.sim.moisture && r.sim.historicalData == w.sim.historicalData
      && r.model.decisionHistory == w.model.decisionHistory
      && (r.sim.pumpStatus ==>
        && r.sim.lastWatered == now
        && r.model.historicalData[|r.model.historicalData| - 1]
             == Observation(w.sim.moisture, w.sim.temperature, 0.0, now, Some(true))
        && r.model.historicalData[..|r.model.historicalData| - 1]
             == (if |w.model.historicalData| == ObservationCapacity then w.model.historicalData[1..] else w.model.historicalData)
        && r.model.moistureThreshold == Adapt(w.model.moistureThreshold, Some(true), w.sim.temperature))
      && (!r.sim.pumpStatus ==> r == w.(sim := w.sim.(pumpStatus := false)))
  {
    if !w.sim.pumpStatus {
      UpdatedEffect(w.model, w.sim.moisture, w.sim.temperature, 0.0, Some(true), now);
    }
  }

  /** `/api/mode`: auto mode exactly when the requested mode is "auto". */
  function ModeSet(w: World, mode: string): (r: World)
    ensures r.sim.isAutoMode <==> mode == "auto"
    ensures r.model == w.model && r.sim.(isAutoMode := w.sim.isAutoMode) == w.sim
  {
    w.(sim := w.sim.(isAutoMode := mode == "auto"))
  }

  /** `/api/ai/toggle`: flips the AI flag and nothing else. */
  function AIToggled(w: World): (r: World)
    ensures r.sim.aiEnabled == !w.sim.aiEnabled
    ensures r.model == w.model && r.sim.(aiEnabled := w.sim.aiEnabled) == w.sim
  {
    w.(sim := w.sim.(aiEnabled := !w.sim.aiEnabled))
  }

  /** What `/api/status` reports as the decision, with its hundredth-of-hours clock. */
  function StatusAdvice(w: World, now: Time): (a: WaterAdvice)
    ensures a.shouldWater == WaterDecision(w.sim.moisture, w.sim.temperature,
      Round1(HoursSince(w.sim.lastWatered, now) / 100.0), w.model.moistureThreshold)
  {
    Advice(w.model, w.sim.moisture, w.sim.temperature, StatusHours(w.sim.lastWatered, now))
  }

  /** Reading the status is not free of effects: it logs a decision in the model. */
  function StatusRead(w: World, now: Time): (r: World)
    ensures r.sim == w.sim
    ensures r.model.(decisionHistory := w.model.decisionHistory) == w.model
    ensures |r.model.decisionHistory| == |w.model.decisionHistory| + 1
  {
    w.(model := Decided(w.model, w.sim.moisture, w.sim.temperature, StatusHours(w.sim.lastWatered, now), now))
  }

  /** A status read appends exactly one decision and changes nothing else. */
  lemma StatusReadEffect(w: World, now: Time)
    requires Inv(w)
    ensures var r := StatusRead(w, now);
      && Inv(r)
      && r.sim == w.sim
      && |r.model.decisionHistory| == |w.model.decisionHistory| + 1
      && r.model.decisionHistory[|w.model.decisionHistory|].decision == StatusAdvice(w, now).shouldWater
      && r.model.moistureThreshold == w.model.moistureThreshold
      && r.model.historicalData == w.model.historicalData
  {
    DecidedEffect(w.model, w.sim.moisture, w.sim.temperature, StatusHours(w.sim.lastWatered, now), now);
  }

  /** `/api/history`: the latest 24 samples, or all of them when there are fewer, oldest first. */
  function LatestHistory(h: seq<Sample>): (samples: seq<Sample>)
    ensures |samples| == IntMin(HistoryView, |h|)
    ensures forall k :: 0 <= k < |samples| ==> samples[k] == h[|h| - |samples| + k]
  {
    h[|h| - IntMin(HistoryView, |h|)..]
  }

  /** A request the server answers, or a timer tick with its two draws. */
  datatype Event =
    | TickEvent(lossDraw: real, temperatureDraw: real, now: Time)
    | TogglePumpRequest(now: Time)
    | ModeRequest(mode: string)
    | ToggleAIRequest
    | StatusRequest(now: Time)
    | HistoryRequest
    | StatsRequest

  predicate WellFormed(e: Event) {
    e.TickEvent? ==> IsDraw(e.lossDraw) && IsDraw(e.temperatureDraw)
  }

  /** The state after one event. Only a tick moves the moisture or records a sample,
      only the two reads are free of effects, and no event forgets a decision. */
  function Apply(w: World, e: Event): (r: World)
    requires WellFormed(e)
    ensures !e.TickEvent? ==> r.sim.moisture == w.sim.moisture && r.sim.historicalData == w.sim.historicalData
    ensures e.HistoryRequest? || e.StatsRequest? ==> r == w
    ensures |r.model.decisionHistory| >= |w.model.decisionHistory|
  {
    match e
    case TickEvent(lossDraw, temperatureDraw, now) => Tick(w, lossDraw, temperatureDraw, now)
    case TogglePumpRequest(now) => ToggledPump(w, now)
    case ModeRequest(mode) => ModeSet(w, mode)
    case ToggleAIRequest => AIToggled(w)
    case StatusRequest(now) => StatusRead(w, now)
    case HistoryRequest => w
    case StatsRequest => w
  }

  /** The state after a sequence of events, in order. Without a tick among them the
      moisture and the history stay as they were; the decision log never shrinks. */
  function Run(w: World, es: seq<Event>): (r: World)
    requires forall k :: 0 <= k < |es| ==> WellFormed(es[k])
    ensures (forall k :: 0 <= k < |es| ==> !es[k].TickEvent?) ==>
      r.sim.moisture == w.sim.moisture && r.sim.historicalData == w.sim.historicalData
    ensures |r.model.decisionHistory| >= |w.model.decisionHistory|
    decreases |es|
  {
    if es == [] then w else Run(Apply(w, es[0]), es[1..])
  }

  /** Every event keeps the invariant. */
  lemma ApplyPreservesInv(w: World, e: Event)
    requires Inv(w) && WellFormed(e)
    ensures Inv(Apply(w, e))
  {
    match e
    case TickEvent(lossDraw, temperatureDraw, now) => TickPreservesInv(w, lossDraw, temperatureDraw, now);
    case TogglePumpRequest(now) => ToggledPumpEffect(w, now);
    case StatusRequest(now) => StatusReadEffect(w, now);
    case _ =>
  }

  /** Whatever the server is asked and however long it runs, moisture stays inside
      [20, 85], the history inside 50 samples and the observation log inside 100. */
  lemma {:induction false} RunPreservesInv(w: World, es: seq<Event>)
    requires Inv(w)
    requires forall k :: 0 <= k < |es| ==> WellFormed(es[k])
    ensures Inv(Run(w, es))
    decreases |es|
  {
    if es != [] {
      ApplyPreservesInv(w, es[0]);
      RunPreservesInv(Apply(w, es[0]), es[1..]);
    }
  }

  class PlantSimulation {
    var moisture: real
    var temperature: real
    var pumpStatus: bool
    var lastWatered: Time
    var isAutoMode: bool
    var aiEnabled: bool
    var historicalData: seq<Sample>
    const ai: PlantAIModel

    /** The simulation's fields and its model, as a value. */
    function Current(): World
      reads this, ai
    {
      World(SimState(moisture, temperature, pumpStatus, lastWatered, isAutoMode, aiEnabled, historicalData), ai.State())
    }

    ghost predicate Valid()
      reads this, ai
    {
      Inv(Current())
    }

    /** The process start: moisture 65, 22 degrees, pump off, auto mode and AI on,
        watered `now`, a fresh decision model and the synthetic 24-hour backfill. */
    constructor (now: Time, moistureDraws: seq<real>, temperatureDraws: seq<real>)
      requires |moistureDraws| == BackfillLength && |temperatureDraws| == BackfillLength
      requires AllDraws(moistureDraws) && AllDraws(temperatureDraws)
      ensures Valid() && fresh(ai)
      ensures moisture == 65.0 && temperature == 22.0 && !pumpStatus && lastWatered == now
      ensures isAutoMode && aiEnabled
      ensures |historicalData| == BackfillLength && Chronological(historicalData)
      ensures forall k :: 0 <= k < |historicalData| ==>
        historicalData[k] == BackfillSample(now, BackfillLength - 1 - k, moistureDraws[k], temperatureDraws[k])
      ensures ai.State() == InitialModel()
    {
      var data := GenerateInitialData(now, moistureDraws, temperatureDraws);
      ai := new PlantAIModel();
      moisture := 65.0;
      temperature := 22.0;
      pumpStatus := false;
      lastWatered := now;
      isAutoMode := true;
      aiEnabled := true;
      historicalData := data;
    }

    /** One tick of `simulateEnvironment`, with `lossDraw` and `temperatureDraw` its two
        `Math.random()` draws and `now` the clock. */
    method SimulateEnvironment(lossDraw: real, temperatureDraw: real, now: Time)
      requires Valid() && IsDraw(lossDraw) && IsDraw(temperatureDraw)
      modifies this, ai
      ensures Current() == Tick(old(Current()), lossDraw, temperatureDraw, now)
      ensures Valid()
    {
      ghost var w := Current();
      Evaporate(lossDraw);
      Resample(temperatureDraw);
      AutoStart(now);
      RunPump(now);
      RecordSample(now);
      TickPreservesInv(w, lossDraw, temperatureDraw, now);
    }

    /** Evaporation with the first draw, from the temperature before the resample. */
    method Evaporate(lossDraw: real)
      requires IsDraw(lossDraw)
      modifies this`moisture
      ensures Current() == Evaporated(old(Current()), lossDraw)
    {
      var tempEffect := TempEffect(temperature);
      var moistureLoss := 0.3 * tempEffect + lossDraw * 0.4;
      if !pumpStatus && moisture > MoistureFloor {
        moisture := Max(MoistureFloor, moisture - moistureLoss);
      }
    }

    /** The temperature resample with the second draw. */
    method Resample(temperatureDraw: real)
      requires IsDraw(temperatureDraw)
      modifies this`temperature
      ensures Current() == Resampled(old(Current()), temperatureDraw)
    {
      temperature := 20.0 + temperatureDraw * 12.0;
    }

    /** The AI gate of the tick. */
    method AutoStart(now: Time)
      modifies this`pumpStatus, this`lastWatered, ai
      ensures Current() == AutoStarted(old(Current()), now)
    {
      if isAutoMode && aiEnabled && !pumpStatus {
        var timeSinceWatering := HoursSince(lastWatered, now);
        var aiDecision := ai.ShouldWater(moisture, temperature, timeSinceWatering, now);
        if aiDecision.shouldWater && moisture < AutoStartLimit {
          pumpStatus := true;
          lastWatered := now;
        }
      }
    }

    /** The pump step of the tick, with its shut-off and feedback. */
    method RunPump(now: Time)
      modifies this`moisture, this`pumpStatus, ai
      ensures Current() == Pumped(old(Current()), now)
    {
      if pumpStatus {
        moisture := Min(PumpCeiling, moisture + PumpRate);
        if moisture >= PumpCutoff {
          pumpStatus := false;
          var timeSinceWatering := HoursSince(lastWatered, now);
          ai.UpdateModel(moisture, temperature, timeSinceWatering, Some(true), now);
        }
      }
    }

    /** The tick's history sample. */
    method RecordSample(now: Time)
      modifies this`historicalData
      ensures Current() == Recorded(old(Current()), now)
    {
      var newDataPoint := Sample(now, Round1(moisture), Round1(temperature), pumpStatus);
      historicalData := historicalData + [newDataPoint];
      if |historicalData| > HistoryCapacity {
        historicalData := historicalData[1..];
      }
    }

    /** `/api/status`: the current decision, logged in the model. */
    method Status(now: Time) returns (advice: WaterAdvice)
      requires Valid()
      modifies ai
      ensures advice == StatusAdvice(old(Current()), now)
      ensures Current() == StatusRead(old(Current()), now)
      ensures Valid()
    {
      StatusReadEffect(Current(), now);
      var timeSinceWatering := Round((now - lastWatered) as real / 36000000.0) as real / 10.0;
      advice := ai.ShouldWater(moisture, temperature, timeSinceWatering, now);
    }

    /** `/api/pump/toggle`. */
    method TogglePump(now: Time) returns (status: bool)
      requires Valid()
      modifies this, ai
      ensures Current() == ToggledPump(old(Current()), now)
      ensures status == pumpStatus
      ensures Valid()
    {
      ghost var w := Current();
      ToggledPumpEffect(w, now);
      pumpStatus := !pumpStatus;
      if pumpStatus {
        lastWatered := now;
        var timeSinceWatering := HoursSince(lastWatered, now);
        ai.UpdateModel(moisture, temperature, timeSinceWatering, Some(true), now);
        assert Current() == ToggledPump(w, now);
      }
      status := pumpStatus;
    }

    /** `/api/mode`. */
    method SetMode(mode: string) returns (auto: bool)
      requires Valid()
      modifies this
      ensures Current() == ModeSet(old(Current()), mode)
      ensures auto == isAutoMode
      ensures Valid()
    {
      isAutoMode := mode == "auto";
      auto := isAutoMode;
    }

    /** `/api/ai/toggle`. */
    method ToggleAI() returns (enabled: bool)
      requires Valid()
      modifies this
      ensures Current() == AIToggled(old(Current()))
      ensures enabled == aiEnabled
      ensures Valid()
    {
      aiEnabled := !aiEnabled;
      enabled := aiEnabled;
    }

    /** `/api/stats`: the model's statistics; nothing changes. */
    method Stats() returns (stats: ModelStats)
      ensures stats == GetModelStats(ai.State())
    {
      stats := GetModelStats(ai.State());
    }

    /** `/api/history`. */
    method History() returns (samples: seq<Sample>)
      ensures samples == LatestHistory(historicalData)
    {
      var n := IntMin(HistoryView, |historicalData|);
      samples := historicalData[|historicalData| - n..];
    }
  }
}
