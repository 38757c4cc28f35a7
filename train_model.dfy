/** The adaptive watering heuristic: one adaptive scalar, the moisture threshold,
    nudged by outcome feedback and by temperature, an observation log capped at
    100 entries and an uncapped log of the decisions taken. */
module PlantAI {
  import opened Common

  const InitialThreshold: real := 35.0
  const ThresholdFloor: real := 25.0
  const ThresholdCeiling: real := 45.0
  const ObservationCapacity: nat := 100
  /** How many observations the temperature stability looks back over. */
  const StabilityWindow: nat := 5
  /** How many decisions the accuracy looks back over. */
  const AccuracyWindow: nat := 10
  /** How many decisions the statistics report. */
  const RecentDecisions: nat := 5

  /** One `updateModel` call as logged. `pumpWasGood == None` is an omitted argument. */
  datatype Observation = Observation(
    moisture: real, temperature: real, timeSinceWatering: real, timestamp: Time, pumpWasGood: Option<bool>)

  /** One `shouldWater` call as logged, with the threshold in force at the time. */
  datatype Decision = Decision(
    moisture: real, temperature: real, decision: bool, confidence: real, threshold: real, timestamp: Time)

  /** What `shouldWater` returns: confidence as a whole percentage, the threshold rounded. */
  datatype WaterAdvice = WaterAdvice(shouldWater: bool, confidence: int, threshold: int, reason: string)

  /** `calculateAccuracy`: the string "Learning..." or an "N%" percentage. */
  datatype Accuracy = Learning | Percent(value: int)

  datatype ModelStats = ModelStats(threshold: int, dataPoints: nat, recentDecisions: seq<Decision>, accuracy: Accuracy)

  const CriticalDry := "CRITICAL: Soil too dry"
  const HotWeather := "Hot weather increasing water needs"
  const Overdue := "Extended period since last watering"
  const OptimalTime := "Optimal watering time based on soil moisture"
  const Sufficient := "Soil moisture sufficient"
  const CoolWeather := "Cool temperature reducing water needs"
  const Acceptable := "Within acceptable moisture range"

  /** The reinforcement step: a good outcome lowers the threshold by 2 and a bad one
      raises it by 3, always inside [25, 45]; no outcome leaves it alone. */
  function Reinforce(threshold: real, pumpWasGood: Option<bool>): (t: real)
    ensures pumpWasGood == None ==> t == threshold
    ensures pumpWasGood == Some(true) ==>
      t >= ThresholdFloor && t >= threshold - 2.0 && (t == ThresholdFloor || t == threshold - 2.0)
    ensures pumpWasGood == Some(false) ==>
      t <= ThresholdCeiling && t <= threshold + 3.0 && (t == ThresholdCeiling || t == threshold + 3.0)
  {
    match pumpWasGood
    case None => threshold
    case Some(good) => if good then Max(ThresholdFloor, threshold - 2.0) else Min(ThresholdCeiling, threshold + 3.0)
  }

  /** Whenever it runs, the reinforcement step keeps a threshold inside [25, 45];
      a good outcome never raises one that is inside it, a bad one never lowers it. */
  lemma ReinforceStaysInBand(threshold: real, pumpWasGood: Option<bool>)
    requires ThresholdFloor <= threshold <= ThresholdCeiling
    ensures ThresholdFloor <= Reinforce(threshold, pumpWasGood) <= ThresholdCeiling
    ensures pumpWasGood == Some(true) ==> Reinforce(threshold, pumpWasGood) <= threshold
    ensures pumpWasGood == Some(false) ==> Reinforce(threshold, pumpWasGood) >= threshold
  {
  }

  /** The temperature adjustment, applied after reinforcement and not clamped. */
  function TemperatureNudge(threshold: real, temperature: real): (t: real)
    ensures temperature > 28.0 ==> t == threshold + 5.0
    ensures temperature < 18.0 ==> t == threshold - 3.0
    ensures 18.0 <= temperature <= 28.0 ==> t == threshold
  {
    if temperature > 28.0 then threshold + 5.0
    else if temperature < 18.0 then threshold - 3.0
    else threshold
  }

  /** The whole adaptation of `updateModel`: reinforcement, then the temperature nudge. */
  function Adapt(threshold: real, pumpWasGood: Option<bool>, temperature: real): (t: real)
    ensures pumpWasGood == None ==> t == TemperatureNudge(threshold, temperature)
    ensures 18.0 <= temperature <= 28.0 ==> t == Reinforce(threshold, pumpWasGood)
  {
    TemperatureNudge(Reinforce(threshold, pumpWasGood), temperature)
  }

  /** Starting inside [25, 45], one adaptation ends inside [22, 50] and no tighter
      bound holds: the nudge is not re-clamped. */
  lemma AdaptBounds(threshold: real, pumpWasGood: Option<bool>, temperature: real)
    requires ThresholdFloor <= threshold <= ThresholdCeiling
    ensures 22.0 <= Adapt(threshold, pumpWasGood, temperature) <= 50.0
  {
    ReinforceStaysInBand(threshold, pumpWasGood);
  }

  /** The stored threshold can leave [25, 45]: at the ceiling, a bad outcome on a hot
      day gives 50, and at the floor a good outcome on a cool day gives 22. */
  lemma AdaptLeavesBand()
    ensures Adapt(ThresholdCeiling, Some(false), 30.0) == 50.0
    ensures Adapt(ThresholdFloor, Some(true), 15.0) == 22.0
  {
  }

  /** A good outcome at 22 degrees, `n` times over. */
  function RepeatGoodOutcome(threshold: real, n: nat): real
  {
    if n == 0 then threshold else Adapt(RepeatGoodOutcome(threshold, n - 1), Some(true), 22.0)
  }

  /** Repeated good outcomes in mild weather lower the threshold by 2 each time
      until it rests on the floor of 25; they never raise it. */
  lemma {:induction false} RepeatGoodOutcomeDescends(threshold: real, n: nat)
    requires threshold >= ThresholdFloor
    ensures RepeatGoodOutcome(threshold, n) == Max(ThresholdFloor, threshold - 2.0 * n as real)
    ensures RepeatGoodOutcome(threshold, n) <= threshold
  {
    if n > 0 {
      RepeatGoodOutcomeDescends(threshold, n - 1);
    }
  }

  /** Ten good outcomes at 22 degrees take the initial threshold of 35 down to the floor. */
  lemma TenGoodOutcomesFromInitial()
    ensures RepeatGoodOutcome(InitialThreshold, 10) == ThresholdFloor
  {
    RepeatGoodOutcomeDescends(InitialThreshold, 10);
  }

  /** `moisture * tempAdjustment`: above 26 degrees the measured moisture is
      discounted by a fifth, otherwise it is taken as it is. */
  function AdjustedMoisture(moisture: real, temperature: real): (m: real)
    ensures temperature <= 26.0 ==> m == moisture
    ensures moisture >= 0.0 ==> 0.8 * moisture <= m <= moisture
  {
    if temperature > 26.0 then moisture * 0.8 else moisture
  }

  /** `threshold * timeFactor`: more than 48 hours without water lowers the bar to 70%. */
  function AdjustedThreshold(threshold: real, timeSinceWatering: real): (t: real)
    ensures timeSinceWatering <= 48.0 ==> t == threshold
    ensures threshold >= 0.0 ==> 0.7 * threshold <= t <= threshold
  {
    if timeSinceWatering > 48.0 then threshold * 0.7 else threshold
  }

  /** The watering decision: temperature-adjusted moisture below the time-adjusted
      threshold. For non-negative readings it always waters below 70% of the
      threshold and never once even the discounted moisture reaches the threshold. */
  predicate WaterDecision(moisture: real, temperature: real, timeSinceWatering: real, threshold: real): (b: bool)
    ensures moisture >= 0.0 && threshold >= 0.0 ==>
      && (moisture < threshold * 0.7 ==> b)
      && (b ==> moisture * 0.8 < threshold)
  {
    AdjustedMoisture(moisture, temperature) < AdjustedThreshold(threshold, timeSinceWatering)
  }

  /** `shouldWater`'s closed form. */
  lemma WaterDecisionClosedForm(moisture: real, temperature: real, timeSinceWatering: real, threshold: real)
    ensures WaterDecision(moisture, temperature, timeSinceWatering, threshold) <==>
      moisture * (if temperature > 26.0 then 0.8 else 1.0) < threshold * (if timeSinceWatering > 48.0 then 0.7 else 1.0)
  {
  }

  /** In mild weather and within two days of watering, the decision is the plain
      comparison of moisture with the threshold (the unused `baseDecision`). */
  lemma WaterDecisionIsBaseDecision(moisture: real, temperature: real, timeSinceWatering: real, threshold: real)
    requires temperature <= 26.0 && timeSinceWatering <= 48.0
    ensures WaterDecision(moisture, temperature, timeSinceWatering, threshold) <==> moisture < threshold
  {
  }

  /** Drier soil is at least as likely to be watered: the decision is monotone in moisture. */
  lemma WaterDecisionMonotone(drier: real, moisture: real, temperature: real, timeSinceWatering: real, threshold: real)
    requires drier <= moisture
    requires WaterDecision(moisture, temperature, timeSinceWatering, threshold)
    ensures WaterDecision(drier, temperature, timeSinceWatering, threshold)
  {
  }

  /** Heat makes watering more likely and a long wait less likely: for non-negative
      moisture and threshold, a watering decision at any temperature up to 26 stays
      one at any temperature above it, and a watering decision after more than 48
      hours is also one at any time up to 48 hours. */
  lemma WaterDecisionFactors(moisture: real, threshold: real, cool: real, hot: real, timeSinceWatering: real,
                             recent: real, overdue: real, temperature: real)
    requires moisture >= 0.0 && threshold >= 0.0
    requires cool <= 26.0 < hot && recent <= 48.0 < overdue
    ensures WaterDecision(moisture, cool, timeSinceWatering, threshold) ==> WaterDecision(moisture, hot, timeSinceWatering, threshold)
    ensures WaterDecision(moisture, temperature, overdue, threshold) ==> WaterDecision(moisture, temperature, recent, threshold)
  {
  }

  /** A confidence in [0.3, 0.95] is reported as a whole percentage in [30, 95]. */
  lemma ConfidencePercent(c: real)
    requires 0.3 <= c <= 0.95
    ensures 30 <= Round(c * 100.0) <= 95
  {
    RoundMonotone(30.0, c * 100.0);
    RoundMonotone(c * 100.0, 95.0);
    RoundWhole(30);
    RoundWhole(95);
  }

  /** A series of one repeated value sums to that value times its length. */
  function Sum(xs: seq<real>): (s: real)
    ensures |xs| > 0 && (forall k :: 0 <= k < |xs| ==> xs[k] == xs[0]) ==> s == |xs| as real * xs[0]
  {
    if xs == [] then 0.0 else Sum(xs[..|xs| - 1]) + xs[|xs| - 1]
  }

  /** The squared deviations from `mean` vanish on a series equal to `mean` throughout. */
  function SumOfSquares(xs: seq<real>, mean: real): (s: real)
    ensures (forall k :: 0 <= k < |xs| ==> xs[k] == mean) ==> s == 0.0
  {
    if xs == [] then 0.0 else SumOfSquares(xs[..|xs| - 1], mean) + (xs[|xs| - 1] - mean) * (xs[|xs| - 1] - mean)
  }

  /** The mean of a series of one repeated value is that value. */
  function Mean(xs: seq<real>): (m: real)
    requires xs != []
    ensures (forall k :: 0 <= k < |xs| ==> xs[k] == xs[0]) ==> m == xs[0]
  {
    Sum(xs) / |xs| as real
  }

  /** The population variance `sum((x - avg)^2) / n`; a constant series has none. */
  function Variance(xs: seq<real>): (v: real)
    requires xs != []
    ensures (forall k :: 0 <= k < |xs| ==> xs[k] == xs[0]) ==> v == 0.0
  {
    SumOfSquares(xs, Mean(xs)) / |xs| as real
  }

  lemma {:induction false} SumOfSquaresNonNegative(xs: seq<real>, mean: real)
    ensures SumOfSquares(xs, mean) >= 0.0
  {
    if xs != [] {
      SumOfSquaresNonNegative(xs[..|xs| - 1], mean);
      var d := xs[|xs| - 1] - mean;
      assert d * d >= 0.0;
    }
  }

  lemma VarianceNonNegative(xs: seq<real>)
    requires xs != []
    ensures Variance(xs) >= 0.0
  {
    SumOfSquaresNonNegative(xs, Mean(xs));
  }

  /** Temperatures recorded by a log of observations, oldest first. */
  function Temperatures(log: seq<Observation>): (ts: seq<real>)
    ensures |ts| == |log|
    ensures forall k :: 0 <= k < |log| ==> ts[k] == log[k].temperature
  {
    seq(|log|, k requires 0 <= k < |log| => log[k].temperature)
  }

  /** The decisions of a log whose moisture lay in [30, 70]. */
  function CountInRange(ds: seq<Decision>): (n: nat)
    ensures n <= |ds|
  {
    if ds == [] then 0
    else CountInRange(ds[..|ds| - 1]) + (if 30.0 <= ds[|ds| - 1].moisture <= 70.0 then 1 else 0)
  }

  /** Every decision of the window can be in range, or none of them. */
  lemma {:induction false} CountInRangeExtremes(ds: seq<Decision>)
    ensures (forall k :: 0 <= k < |ds| ==> 30.0 <= ds[k].moisture <= 70.0) ==> CountInRange(ds) == |ds|
    ensures (forall k :: 0 <= k < |ds| ==> !(30.0 <= ds[k].moisture <= 70.0)) ==> CountInRange(ds) == 0
  {
    if ds != [] {
      CountInRangeExtremes(ds[..|ds| - 1]);
    }
  }

  /** The fields of a `PlantAIModel`, as a value. */
  datatype ModelState = ModelState(
    learningRate: real,
    moistureThreshold: real,
    temperatureWeight: real,
    historicalData: seq<Observation>,
    decisionHistory: seq<Decision>)

  /** The model as its constructor leaves it. */
  function InitialModel(): (ms: ModelState)
    ensures ValidModel(ms)
  {
    ModelState(0.1, InitialThreshold, 0.3, [], [])
  }

  /** The observation log respects its capacity. */
  predicate ValidModel(ms: ModelState) {
    |ms.historicalData| <= ObservationCapacity
  }

  /** `updateModel`: log the observation, then adapt the threshold. */
  function Updated(ms: ModelState, currentMoisture: real, temperature: real, timeSinceWatering: real,
                   pumpWasGood: Option<bool>, now: Time): (r: ModelState)
    ensures |r.historicalData| == |ms.historicalData| + 1 || |r.historicalData| == |ms.historicalData| >= ObservationCapacity
    ensures r.historicalData[|r.historicalData| - 1] == Observation(currentMoisture, temperature, timeSinceWatering, now, pumpWasGood)
    ensures ValidModel(ms) ==> ValidModel(r)
    ensures r.decisionHistory == ms.decisionHistory
    ensures r.learningRate == ms.learningRate && r.temperatureWeight == ms.temperatureWeight
  {
    ms.(historicalData := AppendCapped(ms.historicalData,
          Observation(currentMoisture, temperature, timeSinceWatering, now, pumpWasGood), ObservationCapacity),
        moistureThreshold := Adapt(ms.moistureThreshold, pumpWasGood, temperature))
  }

  /** An update keeps the observation log within 100 entries, puts the new record last,
      keeps the surviving older records in order, and moves the threshold only by
      `Adapt`; the decision log and the constant weights are untouched. */
  lemma UpdatedEffect(ms: ModelState, currentMoisture: real, temperature: real, timeSinceWatering: real,
                      pumpWasGood: Option<bool>, now: Time)
    requires ValidModel(ms)
    ensures var r := Updated(ms, currentMoisture, temperature, timeSinceWatering, pumpWasGood, now);
      && ValidModel(r)
      && r.historicalData[|r.historicalData| - 1] == Observation(currentMoisture, temperature, timeSinceWatering, now, pumpWasGood)
      && r.historicalData[..|r.historicalData| - 1] ==
           (if |ms.historicalData| == ObservationCapacity then ms.historicalData[1..] else ms.historicalData)
      && r.moistureThreshold == TemperatureNudge(Reinforce(ms.moistureThreshold, pumpWasGood), temperature)
      && r.decisionHistory == ms.decisionHistory
      && r.learningRate == ms.learningRate && r.temperatureWeight == ms.temperatureWeight
  {
    AppendCappedFifo(ms.historicalData, Observation(currentMoisture, temperature, timeSinceWatering, now, pumpWasGood), ObservationCapacity);
  }

  /** `calculateTemperatureStability`: 0.7 with fewer than five observations, otherwise
      `max(0, 1 - variance / 10)` over the temperatures of the last five, which is
      full stability when those five temperatures are all the same. */
  function CalculateTemperatureStability(ms: ModelState): (s: real)
    ensures |ms.historicalData| < StabilityWindow ==> s == 0.7
    ensures 0.0 <= s <= 1.0
    ensures var log := ms.historicalData;
      && |log| >= StabilityWindow
      && (forall k :: |log| - StabilityWindow <= k < |log| ==> log[k].temperature == log[|log| - 1].temperature)
      ==> s == 1.0
  {
    var log := ms.historicalData;
    if |log| < StabilityWindow then 0.7
    else
      var recent := Temperatures(log[|log| - StabilityWindow..]);
      VarianceNonNegative(recent);
      Max(0.0, 1.0 - Variance(recent) / 10.0)
  }

  /** `calculateConfidence`: distance from the threshold over 20, capped at 0.9, averaged
      with the temperature stability and floored at 0.3. Its temperature argument is unused. */
  function CalculateConfidence(ms: ModelState, moisture: real, temperature: real): (c: real)
    ensures 0.3 <= c <= 0.95
  {
    var distance := if moisture >= ms.moistureThreshold then moisture - ms.moistureThreshold else ms.moistureThreshold - moisture;
    var closeness := Min(distance / 20.0, 0.9);
    Max(0.3, (closeness + CalculateTemperatureStability(ms)) / 2.0)
  }

  /** `getDecisionReason`: a fixed priority table for each of the two decisions. */
  function GetDecisionReason(moisture: real, temperature: real, timeSinceWatering: real, decision: bool): (reason: string)
    ensures decision && moisture < 25.0 ==> reason == CriticalDry
    ensures decision && moisture >= 25.0 && temperature > 28.0 ==> reason == HotWeather
    ensures decision && moisture >= 25.0 && temperature <= 28.0 && timeSinceWatering > 48.0 ==> reason == Overdue
    ensures decision && moisture >= 25.0 && temperature <= 28.0 && timeSinceWatering <= 48.0 ==> reason == OptimalTime
    ensures !decision && moisture > 60.0 ==> reason == Sufficient
    ensures !decision && moisture <= 60.0 && temperature < 16.0 ==> reason == CoolWeather
    ensures !decision && moisture <= 60.0 && temperature >= 16.0 ==> reason == Acceptable
  {
    if decision then
      if moisture < 25.0 then CriticalDry
      else if temperature > 28.0 then HotWeather
      else if timeSinceWatering > 48.0 then Overdue
      else OptimalTime
    else
      if moisture > 60.0 then Sufficient
      else if temperature < 16.0 then CoolWeather
      else Acceptable
  }

  /** The reason names the decision: no reason is given both for watering and for holding. */
  lemma ReasonDeterminesDecision(m1: real, t1: real, h1: real, m2: real, t2: real, h2: real)
    ensures GetDecisionReason(m1, t1, h1, true) != GetDecisionReason(m2, t2, h2, false)
  {
  }

  /** The decision record `shouldWater` logs, with the threshold in force. It agrees
      with the advice returned: the same decision, and a confidence and a threshold
      that round to the reported ones. */
  function DecisionRecord(ms: ModelState, moisture: real, temperature: real, timeSinceWatering: real, now: Time): (d: Decision)
    ensures var a := Advice(ms, moisture, temperature, timeSinceWatering);
      && d.decision == a.shouldWater
      && Round(d.confidence * 100.0) == a.confidence
      && Round(d.threshold) == a.threshold
    ensures d.moisture == moisture && d.temperature == temperature && d.timestamp == now
  {
    Decision(moisture, temperature, WaterDecision(moisture, temperature, timeSinceWatering, ms.moistureThreshold),
      CalculateConfidence(ms, moisture, temperature), ms.moistureThreshold, now)
  }

  /** What `shouldWater` returns. */
  function Advice(ms: ModelState, moisture: real, temperature: real, timeSinceWatering: real): (a: WaterAdvice)
    ensures a.shouldWater == WaterDecision(moisture, temperature, timeSinceWatering, ms.moistureThreshold)
    ensures 30 <= a.confidence <= 95
    ensures a.reason == GetDecisionReason(moisture, temperature, timeSinceWatering, a.shouldWater)
  {
    var decision := WaterDecision(moisture, temperature, timeSinceWatering, ms.moistureThreshold);
    var confidence := CalculateConfidence(ms, moisture, temperature);
    ConfidencePercent(confidence);
    WaterAdvice(decision, Round(confidence * 100.0), Round(ms.moistureThreshold),
      GetDecisionReason(moisture, temperature, timeSinceWatering, decision))
  }

  /** The model after `shouldWater`: one more decision logged, nothing else touched. */
  function Decided(ms: ModelState, moisture: real, temperature: real, timeSinceWatering: real, now: Time): (r: ModelState)
    ensures |r.decisionHistory| == |ms.decisionHistory| + 1
    ensures r.(decisionHistory := ms.decisionHistory) == ms
  {
    ms.(decisionHistory := ms.decisionHistory + [DecisionRecord(ms, moisture, temperature, timeSinceWatering, now)])
  }

  /** Asking for a decision appends exactly one record, which carries the current
      threshold and the advice's decision, and changes nothing else: the threshold
      and the observation log stay as they were. */
  lemma DecidedEffect(ms: ModelState, moisture: real, temperature: real, timeSinceWatering: real, now: Time)
    ensures var r := Decided(ms, moisture, temperature, timeSinceWatering, now);
      && |r.decisionHistory| == |ms.decisionHistory| + 1
      && r.decisionHistory[..|ms.decisionHistory|] == ms.decisionHistory
      && r.decisionHistory[|ms.decisionHistory|].threshold == ms.moistureThreshold
      && r.decisionHistory[|ms.decisionHistory|].decision == Advice(ms, moisture, temperature, timeSinceWatering).shouldWater
      && r.moistureThreshold == ms.moistureThreshold && r.historicalData == ms.historicalData
  {
    var r := Decided(ms, moisture, temperature, timeSinceWatering, now);
    assert r.decisionHistory[..|ms.decisionHistory|] == ms.decisionHistory;
  }

  /** `calculateAccuracy`: still learning below ten decisions; otherwise the share of
      the last ten whose moisture lay in [30, 70], as a whole percentage. */
  function CalculateAccuracy(ms: ModelState): (a: Accuracy)
    ensures a == Learning <==> |ms.decisionHistory| < AccuracyWindow
    ensures a.Percent? ==>
      && 0 <= a.value <= 100
      && a.value == 10 * CountInRange(ms.decisionHistory[|ms.decisionHistory| - AccuracyWindow..])
  {
    var log := ms.decisionHistory;
    if |log| < AccuracyWindow then Learning
    else
      var recent := log[|log| - AccuracyWindow..];
      var good := CountInRange(recent);
      assert (good as real / |recent| as real) * 100.0 == (10 * good) as real;
      RoundWhole(10 * good);
      Percent(Round((good as real / |recent| as real) * 100.0))
  }

  /** `getModelStats`: the rounded threshold, the observation count, at most the five
      latest decisions in order, and the accuracy. */
  function GetModelStats(ms: ModelState): (stats: ModelStats)
    ensures stats.threshold == Round(ms.moistureThreshold)
    ensures stats.dataPoints == |ms.historicalData|
    ensures |stats.recentDecisions| == IntMin(RecentDecisions, |ms.decisionHistory|)
    ensures stats.recentDecisions == ms.decisionHistory[|ms.decisionHistory| - |stats.recentDecisions|..]
    ensures stats.accuracy == CalculateAccuracy(ms)
  {
    var log := ms.decisionHistory;
    var n := IntMin(RecentDecisions, |log|);
    ModelStats(Round(ms.moistureThreshold), |ms.historicalData|, log[|log| - n..], CalculateAccuracy(ms))
  }

  /** Dry soil on a warm day with the initial threshold: water, for critical dryness,
      which takes priority over the heat. */
  lemma ScenarioCriticalDryness(h: real)
    ensures WaterDecision(20.0, 30.0, h, InitialThreshold)
    ensures GetDecisionReason(20.0, 30.0, h, true) == CriticalDry
  {
  }

  /** Moist soil on a mild day one hour after watering: hold, soil moisture sufficient. */
  lemma ScenarioSufficientMoisture()
    ensures !WaterDecision(65.0, 22.0, 1.0, InitialThreshold)
    ensures GetDecisionReason(65.0, 22.0, 1.0, false) == Sufficient
  {
  }

  /** The decision model. Its fields change only through `UpdateModel` (feedback) and
      `ShouldWater` (which logs the decision it takes); everything else reads them. */
  class PlantAIModel {
    var learningRate: real
    var moistureThreshold: real
    var temperatureWeight: real
    var historicalData: seq<Observation>
    var decisionHistory: seq<Decision>

    /** The fields, as a value. */
    function State(): ModelState
      reads this
    {
      ModelState(learningRate, moistureThreshold, temperatureWeight, historicalData, decisionHistory)
    }

    constructor ()
      ensures State() == InitialModel()
    {
      learningRate := 0.1;
      moistureThreshold := InitialThreshold;
      temperatureWeight := 0.3;
      historicalData := [];
      decisionHistory := [];
    }

    /** Logs the observation, evicting the oldest past 100, then adapts the threshold:
        reinforcement inside [25, 45], then the unclamped temperature nudge. */
    method UpdateModel(currentMoisture: real, temperature: real, timeSinceWatering: real, pumpWasGood: Option<bool>, now: Time)
      modifies this
      ensures State() == Updated(old(State()), currentMoisture, temperature, timeSinceWatering, pumpWasGood, now)
    {
      historicalData := historicalData + [Observation(currentMoisture, temperature, timeSinceWatering, now, pumpWasGood)];
      if |historicalData| > ObservationCapacity {
        historicalData := historicalData[1..];
      }

      if pumpWasGood.Some? {
        if pumpWasGood.value {
          moistureThreshold := Max(ThresholdFloor, moistureThreshold - 2.0);
        } else {
          moistureThreshold := Min(ThresholdCeiling, moistureThreshold + 3.0);
        }
      }

      if temperature > 28.0 {
        moistureThreshold := moistureThreshold + 5.0;
      } else if temperature < 18.0 {
        moistureThreshold := moistureThreshold - 3.0;
      }
    }

    /** Decides and logs exactly one decision; returns the advice. */
    method ShouldWater(moisture: real, temperature: real, timeSinceWatering: real, now: Time) returns (advice: WaterAdvice)
      modifies this
      ensures advice == Advice(old(State()), moisture, temperature, timeSinceWatering)
      ensures State() == Decided(old(State()), moisture, temperature, timeSinceWatering, now)
    {
      var adjustedMoisture := AdjustedMoisture(moisture, temperature);
      var adjustedThreshold := AdjustedThreshold(moistureThreshold, timeSinceWatering);
      var finalDecision := adjustedMoisture < adjustedThreshold;
      var confidence := CalculateConfidence(State(), moisture, temperature);

      decisionHistory := decisionHistory + [Decision(moisture, temperature, finalDecision, confidence, moistureThreshold, now)];

      advice := WaterAdvice(finalDecision, Round(confidence * 100.0), Round(moistureThreshold),
        GetDecisionReason(moisture, temperature, timeSinceWatering, finalDecision));
    }
  }
}
