/** The frontend's rule-based watering check: every few seconds in auto mode it
    starts a dry pump or stops a running one through the hook's `togglePump`. */
module AISimulation {
  import opened Common
  import opened Environment
  import opened PlantDataHook

  /** What one check does with the pump. */
  datatype Action = NoAction | StartPump | StopPump

  /** Low moisture, the pump not yet running and not too hot for watering: the
      dashboard's moisture rule (`LocalDecisionFor`) applied to the moisture the
      check reads, with the pump off and below 35 degrees. */
  predicate ShouldWater(moisture: real, temperature: real, pumpStatus: bool): (b: bool)
    ensures b <==> LocalDecisionFor(moisture).shouldWater && !pumpStatus && temperature < 35.0
  {
    moisture < 35.0 && !pumpStatus && temperature < 35.0
  }

  /** The target is reached, or the soil is fairly moist on a hot day: never below
      60, always from 80. */
  predicate ShouldStopWatering(moisture: real, temperature: real): (b: bool)
    ensures b ==> moisture >= 60.0
    ensures moisture >= 80.0 ==> b
    ensures 60.0 <= moisture < 80.0 ==> (b <==> temperature > 30.0)
  {
    moisture >= 80.0 || (moisture >= 60.0 && temperature > 30.0)
  }

  /** One check: outside auto mode nothing; otherwise a start only for a pump that
      is off and a stop only for one that is on. The AI flag is not consulted. */
  function Check(isAutoMode: bool, moisture: real, temperature: real, pumpStatus: bool): (a: Action)
    ensures !isAutoMode ==> a == NoAction
    ensures a == StartPump <==> isAutoMode && !pumpStatus && moisture < 35.0 && temperature < 35.0
    ensures a == StopPump <==> isAutoMode && pumpStatus && (moisture >= 80.0 || (moisture >= 60.0 && temperature > 30.0))
    ensures a != NoAction <==>
      && isAutoMode
      && ((ShouldWater(moisture, temperature, pumpStatus) && !pumpStatus) || (ShouldStopWatering(moisture, temperature) && pumpStatus))
  {
    if !isAutoMode then NoAction
    else if ShouldWater(moisture, temperature, pumpStatus) && !pumpStatus then StartPump
    else if ShouldStopWatering(moisture, temperature) && pumpStatus then StopPump
    else NoAction
  }

  /** The start and stop bands are apart: no moisture is both dry enough to start the
      pump and moist enough to stop it, so a pump started at a check stays on at least
      until moisture has risen past 60. */
  lemma BandsDisjoint(moisture: real, temperature: real)
    ensures !(ShouldWater(moisture, temperature, false) && ShouldStopWatering(moisture, temperature))
    ensures 35.0 <= moisture < 60.0 ==> Check(true, moisture, temperature, true) == NoAction
  {
  }

  /** The decision a decay tick stores is taken on the unrounded moisture, while the
      check reads the shown, rounded one, so the two can disagree: from 35.3 at 22
      degrees with a loss draw of 0.1 the tick stores a decision to water and shows
      35.0, at which the check starts no pump. */
  lemma StoredDecisionDisagreesWithCheck(prev: PlantData, now: Time)
    requires prev.moisture == 35.3 && prev.temperature == 22.0 && !prev.pumpStatus && prev.isAutoMode
    ensures var next := DecayTick(prev, 0.1, 0.0, now);
      && next.aiDecision.shouldWater
      && next.moisture == 35.0
      && Check(next.isAutoMode, next.moisture, next.temperature, next.pumpStatus) == NoAction
  {
    assert MoistureLoss(22.0, 0.1) == 0.34;
    assert Round(349.6) == 350;
  }

  /** The check applied to the record: a start or a stop is one `togglePump`. */
  function CheckPlant(d: PlantData, now: Time): (next: PlantData)
    ensures !d.isAutoMode ==> next == d
    ensures next.pumpStatus != d.pumpStatus <==> Check(d.isAutoMode, d.moisture, d.temperature, d.pumpStatus) != NoAction
  {
    if Check(d.isAutoMode, d.moisture, d.temperature, d.pumpStatus) == NoAction then d
    else TogglePump(d, now)
  }

  /** A check toggles the pump at most once, exactly when it acts; a start turns the
      pump on and restamps the watering time, a stop turns it off; the invariant holds. */
  lemma CheckPlantEffect(d: PlantData, now: Time)
    requires Inv(d)
    ensures var a := Check(d.isAutoMode, d.moisture, d.temperature, d.pumpStatus);
      var next := CheckPlant(d, now);
      && Inv(next)
      && (a == NoAction ==> next == d)
      && (a == StartPump ==> next.pumpStatus && next.lastWatered == now)
      && (a == StopPump ==> !next.pumpStatus && next.lastWatered == d.lastWatered)
      && next.(pumpStatus := d.pumpStatus, lastWatered := d.lastWatered) == d
  {
  }
}
