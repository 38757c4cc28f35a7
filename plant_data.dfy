/** The frontend's own simulation of the plant: a record replaced wholesale by
    updaters from the previous record. Its constants differ from the backend's:
    the pump adds 8 per tick and only switches itself off at 85. */
module PlantDataHook {
  import opened Common
  import opened Environment

  const HistoryCapacity: nat := 50
  const PumpRate: real := 8.0
  const PumpCeiling: real := 85.0
  /** The local decision waters below this moisture. */
  const WaterBelow: real := 35.0

  const BelowOptimal := "Soil moisture below optimal level"
  const Adequate := "Moisture levels adequate"

  /** The `aiDecision` shown in the dashboard. */
  datatype LocalDecision = LocalDecision(shouldWater: bool, confidence: int, reason: string)

  /** The hook's `plantData` record. `lastWatered` is the instant its label is made
      from; `timeSinceWatering` is a fixed label no updater changes. */
  datatype PlantData = PlantData(
    moisture: real,
    temperature: real,
    pumpStatus: bool,
    lastWatered: Time,
    isAutoMode: bool,
    aiDecision: LocalDecision,
    aiEnabled: bool,
    timeSinceWatering: string,
    historicalData: seq<Sample>)

  /** The moisture the updaters keep inside [20, 85] and the capped history. */
  predicate Inv(d: PlantData) {
    MoistureFloor <= d.moisture <= PumpCeiling && |d.historicalData| <= HistoryCapacity
  }

  /** The initial record, before the history is loaded. */
  function Initial(now: Time): (d: PlantData)
    ensures Inv(d) && d.historicalData == []
    ensures !d.pumpStatus && d.isAutoMode && d.aiEnabled
  {
    PlantData(65.0, 22.0, false, now, true, LocalDecision(false, 75, "Monitoring plant health"), true, "2h", [])
  }

  /** The initial-history effect: the same 24-hour backfill as the backend, stored
      into the record and nothing else. */
  method LoadInitialHistory(prev: PlantData, now: Time, moistureDraws: seq<real>, temperatureDraws: seq<real>)
    returns (next: PlantData)
    requires |moistureDraws| == BackfillLength && |temperatureDraws| == BackfillLength
    requires AllDraws(moistureDraws) && AllDraws(temperatureDraws)
    ensures next.(historicalData := prev.historicalData) == prev
    ensures |next.historicalData| == BackfillLength && Chronological(next.historicalData)
    ensures forall k :: 0 <= k < |next.historicalData| ==>
      next.historicalData[k] == BackfillSample(now, BackfillLength - 1 - k, moistureDraws[k], temperatureDraws[k])
  {
    var initialData := GenerateInitialData(now, moistureDraws, temperatureDraws);
    next := prev.(historicalData := initialData);
  }

  /** The copied history with one `shift()` when it already holds 50, then the `push`:
      the new sample last, after the newest of the old ones, growing by one only
      below 50. */
  function ShiftThenPush(h: seq<Sample>, x: Sample): (r: seq<Sample>)
    ensures |r| == if |h| >= HistoryCapacity then |h| else |h| + 1
    ensures r[|r| - 1] == x
    ensures r[..|r| - 1] == h[|h| + 1 - |r|..]
  {
    (if |h| >= HistoryCapacity then h[1..] else h) + [x]
  }

  /** Shifting before the push is the same bounded log as the backend's push-then-shift,
      as long as the history is inside its capacity. */
  lemma ShiftThenPushIsCapped(h: seq<Sample>, x: Sample)
    requires |h| <= HistoryCapacity
    ensures ShiftThenPush(h, x) == AppendCapped(h, x, HistoryCapacity)
    ensures var r := ShiftThenPush(h, x);
      && |r| <= HistoryCapacity && r[|r| - 1] == x
      && r[..|r| - 1] == (if |h| == HistoryCapacity then h[1..] else h)
  {
    var r := ShiftThenPush(h, x);
    assert r[..|r| - 1] == (if |h| == HistoryCapacity then h[1..] else h);
  }

  /** A confidence of at least 30 rounds to at least 30, one of at most 70 to at most 70. */
  lemma RoundedConfidence(c: real)
    requires c >= 30.0
    ensures Round(c) >= 30
    ensures c <= 70.0 ==> Round(c) <= 70
  {
    RoundMonotone(30.0, c);
    RoundWhole(30);
    if c <= 70.0 {
      RoundMonotone(c, 70.0);
      RoundWhole(70);
    }
  }

  /** The decay tick's rule-of-thumb decision on the unclamped new moisture. */
  function LocalDecisionFor(newMoisture: real): (d: LocalDecision)
    ensures d.shouldWater <==> newMoisture < WaterBelow
    ensures d.confidence >= 30
    ensures newMoisture >= 20.0 ==> d.confidence <= 70
    ensures d.reason == if d.shouldWater then BelowOptimal else Adequate
  {
    var confidence := Max(30.0, 100.0 - newMoisture * 1.5);
    RoundedConfidence(confidence);
    var shouldWater := newMoisture < WaterBelow;
    LocalDecision(shouldWater, Round(confidence), if shouldWater then BelowOptimal else Adequate)
  }

  /** The natural-environment updater: with the pump off and moisture above 20 it
      evaporates by the loss of the previous temperature, resamples the temperature,
      records the unclamped moisture in the history and decides; otherwise it returns
      the record unchanged. Both draws are `Math.random()` values and `now` the clock. */
  function DecayTick(prev: PlantData, lossDraw: real, temperatureDraw: real, now: Time): (next: PlantData)
    requires IsDraw(lossDraw) && IsDraw(temperatureDraw)
    ensures prev.pumpStatus ==> next == prev
    ensures next.(moisture := prev.moisture, temperature := prev.temperature,
                  historicalData := prev.historicalData, aiDecision := prev.aiDecision) == prev
  {
    if !prev.pumpStatus && prev.moisture > MoistureFloor then
      var newMoisture := prev.moisture - MoistureLoss(prev.temperature, lossDraw);
      var newTemp := ResampledTemperature(temperatureDraw);
      var sample := Sample(now, Round1(newMoisture), Round1(newTemp), false);
      prev.(moisture := Round1(Max(MoistureFloor, newMoisture)),
            temperature := Round1(newTemp),
            historicalData := ShiftThenPush(prev.historicalData, sample),
            aiDecision := LocalDecisionFor(newMoisture))
    else prev
  }

  /** The decay tick keeps the invariant; it does nothing with the pump on or at the
      floor; otherwise moisture strictly falls but not below 20, exactly one sample
      is recorded, last, and the switches and the watering clock stay as they were. */
  lemma DecayTickEffect(prev: PlantData, lossDraw: real, temperatureDraw: real, now: Time)
    requires Inv(prev) && IsDraw(lossDraw) && IsDraw(temperatureDraw)
    ensures var next := DecayTick(prev, lossDraw, temperatureDraw, now);
      && Inv(next)
      && (prev.pumpStatus || prev.moisture <= MoistureFloor ==> next == prev)
      && (!prev.pumpStatus && prev.moisture > MoistureFloor ==>
        var newMoisture := prev.moisture - MoistureLoss(prev.temperature, lossDraw);
        && next.moisture == Round1(Max(MoistureFloor, newMoisture))
        && MoistureFloor <= next.moisture < prev.moisture
        && next.historicalData == AppendCapped(prev.historicalData,
             Sample(now, Round1(newMoisture), next.temperature, false), HistoryCapacity)
        && next.aiDecision.shouldWater == (newMoisture < WaterBelow)
        && next.temperature == Round1(ResampledTemperature(temperatureDraw))
        && next.aiDecision == LocalDecisionFor(newMoisture)
        && next.(moisture := prev.moisture, temperature := prev.temperature,
                 historicalData := prev.historicalData, aiDecision := prev.aiDecision) == prev)
  {
    if !prev.pumpStatus && prev.moisture > MoistureFloor {
      var newMoisture := prev.moisture - MoistureLoss(prev.temperature, lossDraw);
      EvaporatedMoisture(prev.moisture, MoistureLoss(prev.temperature, lossDraw));
      var newTemp := ResampledTemperature(temperatureDraw);
      ShiftThenPushIsCapped(prev.historicalData, Sample(now, Round1(newMoisture), Round1(newTemp), false));
    }
  }

  /** Moisture above the floor that loses at least 0.3 is shown strictly lower, but
      not below 20, once clamped and rounded. */
  lemma EvaporatedMoisture(moisture: real, loss: real)
    requires MoistureFloor < moisture <= PumpCeiling && loss >= 0.3
    ensures MoistureFloor <= Round1(Max(MoistureFloor, moisture - loss)) < moisture
  {
    Round1Between(Max(MoistureFloor, moisture - loss), 20, 85);
    if moisture - loss <= MoistureFloor {
      RoundWhole(200);
      assert Round1(Max(MoistureFloor, moisture - loss)) == MoistureFloor;
    }
  }

  /** The history keeps the unclamped moisture: just above the floor, one tick
      records 19.6 in the history while the shown moisture stays at 20. */
  lemma DecaySampleBelowFloor(prev: PlantData, now: Time)
    requires prev.moisture == 20.1 && prev.temperature == 22.0 && !prev.pumpStatus
    ensures var next := DecayTick(prev, 0.5, 0.0, now);
      && next.moisture == 20.0
      && next.historicalData[|next.historicalData| - 1].moisture == 19.6
  {
    assert MoistureLoss(22.0, 0.5) == 0.5;
    assert Round(196.0) == 196;
    assert Round(200.0) == 200;
  }

  /** The pump updater: while on and below 85 it adds 8, records the unclamped sum with
      the current temperature and the pump active, and shows the sum capped at 85;
      at 85 or more it switches the pump off; otherwise nothing changes. */
  function PumpTick(prev: PlantData, now: Time): (next: PlantData)
    ensures next.pumpStatus ==> prev.pumpStatus
    ensures next.(moisture := prev.moisture, pumpStatus := prev.pumpStatus, historicalData := prev.historicalData) == prev
  {
    if prev.pumpStatus && prev.moisture < PumpCeiling then
      var newMoisture := prev.moisture + PumpRate;
      var sample := Sample(now, Round1(newMoisture), prev.temperature, true);
      prev.(moisture := Round1(Min(PumpCeiling, newMoisture)),
            historicalData := ShiftThenPush(prev.historicalData, sample))
    else if prev.moisture >= PumpCeiling then
      prev.(pumpStatus := false)
    else prev
  }

  /** The pump tick keeps the invariant; pumping strictly raises moisture towards 85
      and keeps the pump on, recording one sample, last; only at 85 does the pump
      switch itself off, changing nothing else; with the pump off below 85 nothing changes. */
  lemma PumpTickEffect(prev: PlantData, now: Time)
    requires Inv(prev)
    ensures var next := PumpTick(prev, now);
      && Inv(next)
      && (prev.pumpStatus && prev.moisture < PumpCeiling ==>
        && next.moisture == Round1(Min(PumpCeiling, prev.moisture + PumpRate))
        && prev.moisture < next.moisture <= PumpCeiling
        && next.pumpStatus
        && next.historicalData == AppendCapped(prev.historicalData,
             Sample(now, Round1(prev.moisture + PumpRate), prev.temperature, true), HistoryCapacity)
        && next.(moisture := prev.moisture, historicalData := prev.historicalData) == prev)
      && (prev.moisture >= PumpCeiling ==> next == prev.(pumpStatus := false))
      && (!prev.pumpStatus && prev.moisture < PumpCeiling ==> next == prev)
      && (prev.pumpStatus && !next.pumpStatus ==> prev.moisture == PumpCeiling)
  {
    if prev.pumpStatus && prev.moisture < PumpCeiling {
      var capped := Min(PumpCeiling, prev.moisture + PumpRate);
      Round1Between(capped, 20, 85);
      if capped == PumpCeiling {
        RoundWhole(850);
        assert Round1(capped) == PumpCeiling;
      }
      ShiftThenPushIsCapped(prev.historicalData, Sample(now, Round1(prev.moisture + PumpRate), prev.temperature, true));
    }
  }

  /** The history may record more than the ceiling: pumping from 80 records 88
      while the shown moisture is 85. */
  lemma PumpSampleAboveCeiling(prev: PlantData, now: Time)
    requires prev.moisture == 80.0 && prev.pumpStatus
    ensures var next := PumpTick(prev, now);
      && next.moisture == 85.0
      && next.historicalData[|next.historicalData| - 1].moisture == 88.0
  {
    assert Round(850.0) == 850;
    assert Round(880.0) == 880;
  }

  /** `togglePump`: flips the pump; switching it on also restamps the watering time. */
  function TogglePump(prev: PlantData, now: Time): (next: PlantData)
    ensures next.pumpStatus == !prev.pumpStatus
    ensures next.lastWatered == if next.pumpStatus then now else prev.lastWatered
    ensures next.(pumpStatus := prev.pumpStatus, lastWatered := prev.lastWatered) == prev
  {
    if !prev.pumpStatus then prev.(pumpStatus := true, lastWatered := now)
    else prev.(pumpStatus := false)
  }

  /** `setAutoMode`: sets the flag and nothing else. */
  function SetAutoMode(prev: PlantData, isAuto: bool): (next: PlantData)
    ensures next.isAutoMode == isAuto
    ensures next.(isAutoMode := prev.isAutoMode) == prev
  {
    prev.(isAutoMode := isAuto)
  }

  /** `toggleAI`: flips the flag and nothing else. */
  function ToggleAI(prev: PlantData): (next: PlantData)
    ensures next.aiEnabled == !prev.aiEnabled
    ensures next.(aiEnabled := prev.aiEnabled) == prev
  {
    prev.(aiEnabled := !prev.aiEnabled)
  }

  /** One of the hook's updates. */
  datatype Update =
    | Decay(lossDraw: real, temperatureDraw: real, now: Time)
    | Pump(now: Time)
    | Toggle(now: Time)
    | Auto(isAuto: bool)
    | FlipAI

  predicate WellFormed(u: Update) {
    u.Decay? ==> IsDraw(u.lossDraw) && IsDraw(u.temperatureDraw)
  }

  /** The record after one update. Only the two ticks move the moisture or record a
      sample, and neither touches the mode or the AI switch. */
  function Apply(d: PlantData, u: Update): (r: PlantData)
    requires WellFormed(u)
    ensures !u.Decay? && !u.Pump? ==> r.moisture == d.moisture && r.historicalData == d.historicalData
    ensures u.Decay? || u.Pump? ==> r.isAutoMode == d.isAutoMode && r.aiEnabled == d.aiEnabled
  {
    match u
    case Decay(lossDraw, temperatureDraw, now) => DecayTick(d, lossDraw, temperatureDraw, now)
    case Pump(now) => PumpTick(d, now)
    case Toggle(now) => TogglePump(d, now)
    case Auto(isAuto) => SetAutoMode(d, isAuto)
    case FlipAI => ToggleAI(d)
  }

  /** The updates applied in order. Without a tick among them the moisture and the
      history stay as they were; ticks alone leave the mode and the AI switch alone. */
  function Run(d: PlantData, us: seq<Update>): (r: PlantData)
    requires forall k :: 0 <= k < |us| ==> WellFormed(us[k])
    ensures (forall k :: 0 <= k < |us| ==> !us[k].Decay? && !us[k].Pump?) ==>
      r.moisture == d.moisture && r.historicalData == d.historicalData
    ensures (forall k :: 0 <= k < |us| ==> us[k].Decay? || us[k].Pump?) ==>
      r.isAutoMode == d.isAutoMode && r.aiEnabled == d.aiEnabled
    decreases |us|
  {
    if us == [] then d else Run(Apply(d, us[0]), us[1..])
  }

  lemma ApplyPreservesInv(d: PlantData, u: Update)
    requires Inv(d) && WellFormed(u)
    ensures Inv(Apply(d, u))
  {
    match u
    case Decay(lossDraw, temperatureDraw, now) => DecayTickEffect(d, lossDraw, temperatureDraw, now);
    case Pump(now) => PumpTickEffect(d, now);
    case _ =>
  }

  /** In whatever order the updates arrive, the shown moisture stays inside [20, 85]
      and the history inside 50 samples. */
  lemma {:induction false} RunPreservesInv(d: PlantData, us: seq<Update>)
    requires Inv(d)
    requires forall k :: 0 <= k < |us| ==> WellFormed(us[k])
    ensures Inv(Run(d, us))
    decreases |us|
  {
    if us != [] {
      ApplyPreservesInv(d, us[0]);
      RunPreservesInv(Apply(d, us[0]), us[1..]);
    }
  }
}
