/** The physics of the simulated pot, shared by the backend loop and the
    frontend-only simulation: evaporation, the temperature resample and the
    synthetic 24-hour backfill both of them start their history with. */
module Environment {
  import opened Common

  /** The moisture floor evaporation never goes below. */
  const MoistureFloor: real := 20.0

  /** Length of the synthetic backfill: one sample per hour for the last day. */
  const BackfillLength: nat := 24

  /** A `Math.random()` draw. */
  predicate IsDraw(u: real) {
    0.0 <= u < 1.0
  }

  /** Heat speeds up evaporation by half. */
  function TempEffect(temperature: real): (e: real)
    ensures e == 1.0 || e == 1.5
    ensures e == 1.5 <==> temperature > 26.0
  {
    if temperature > 26.0 then 1.5 else 1.0
  }

  /** Moisture lost in one tick: `0.3 * tempEffect + Math.random() * 0.4`. */
  function MoistureLoss(temperature: real, u: real): (loss: real)
    requires IsDraw(u)
    ensures 0.3 <= loss < 0.85
    ensures temperature > 26.0 ==> 0.45 <= loss
    ensures temperature <= 26.0 ==> loss < 0.7
  {
    0.3 * TempEffect(temperature) + u * 0.4
  }

  /** The per-tick temperature: a fresh uniform draw `20 + Math.random() * 12`,
      independent of the previous temperature. */
  function ResampledTemperature(u: real): (t: real)
    requires IsDraw(u)
    ensures 20.0 <= t < 32.0
  {
    20.0 + u * 12.0
  }

  /** Evaporation: only with the pump off and above the floor, and then
      `max(20, moisture - loss)`. */
  function Decay(moisture: real, pumpOn: bool, loss: real): (m: real)
    requires loss >= 0.0
    ensures m <= moisture
    ensures pumpOn || moisture <= MoistureFloor ==> m == moisture
    ensures !pumpOn && moisture > MoistureFloor ==> m >= MoistureFloor && m == Max(MoistureFloor, moisture - loss)
    ensures moisture >= MoistureFloor ==> m >= MoistureFloor
  {
    if !pumpOn && moisture > MoistureFloor then Max(MoistureFloor, moisture - loss) else moisture
  }

  /** The backfill sample `i` hours before `now`:
      moisture `max(25, 65 - 1.2 i + (8 r - 4))`, temperature `20 + 10 r'`, pump off. */
  function BackfillSample(now: Time, i: nat, mu: real, tu: real): (s: Sample)
    requires IsDraw(mu) && IsDraw(tu)
    ensures s.time == now - i * MsPerHour
    ensures 25.0 <= s.moisture < 69.0
    ensures 20.0 <= s.temperature < 30.0
    ensures !s.pumpActive
  {
    Sample(now - i * MsPerHour, Max(25.0, 65.0 - i as real * 1.2 + (mu * 8.0 - 4.0)), 20.0 + tu * 10.0, false)
  }

  predicate AllDraws(us: seq<real>) {
    forall k :: 0 <= k < |us| ==> IsDraw(us[k])
  }

  /** History order: each sample strictly later than the one before. */
  predicate Chronological(h: seq<Sample>) {
    forall j, k :: 0 <= j < k < |h| ==> h[j].time < h[k].time
  }

  /** The backfill loop `for (i = 23; i >= 0; i--) data.push(...)`: draw `k` of
      each sequence is the `k`-th pair of `Math.random()` calls. */
  method GenerateInitialData(now: Time, moistureDraws: seq<real>, temperatureDraws: seq<real>)
    returns (data: seq<Sample>)
    requires |moistureDraws| == BackfillLength && |temperatureDraws| == BackfillLength
    requires AllDraws(moistureDraws) && AllDraws(temperatureDraws)
    ensures |data| == BackfillLength
    ensures forall k :: 0 <= k < |data| ==>
      data[k] == BackfillSample(now, BackfillLength - 1 - k, moistureDraws[k], temperatureDraws[k])
    ensures Chronological(data)
    ensures |data| > 0 && data[|data| - 1].time == now
  {
    data := [];
    var i: int := BackfillLength - 1;
    while i >= 0
      invariant -1 <= i < BackfillLength
      invariant |data| == BackfillLength - 1 - i
      invariant forall k :: 0 <= k < |data| ==>
        data[k] == BackfillSample(now, BackfillLength - 1 - k, moistureDraws[k], temperatureDraws[k])
    {
      var k := BackfillLength - 1 - i;
      data := data + [BackfillSample(now, i, moistureDraws[k], temperatureDraws[k])];
      i := i - 1;
    }
  }
}
