/** The moisture chart's data: the latest 24 or 72 points of the history; when the
    history is shorter, a generated day or three days of plausible readings whose
    most recent points are overwritten by the real ones, in order. */
module MoistureChart {
  import opened Common
  import opened Environment

  /** The moisture the generated series ends on when there is no data. */
  const DefaultMoisture: real := 65.0

  /** The number of points shown: 24 for the "24h" range and 72 for any other. */
  function Points(range: string): (n: nat)
    ensures n == 24 || n == 72
    ensures n == 24 <==> range == "24h"
  {
    if range == "24h" then 24 else 72
  }

  /** The `Math.random()` draws one generated point may consume: the noise, the
      chance of a watering event, its size, and the temperature. A point uses only
      some of them; the rest are ignored. */
  datatype MockDraw = MockDraw(noise: real, chance: real, amount: real, temperature: real)

  predicate IsMockDraw(d: MockDraw) {
    IsDraw(d.noise) && IsDraw(d.chance) && IsDraw(d.amount) && IsDraw(d.temperature)
  }

  predicate AllMockDraws(ds: seq<MockDraw>) {
    forall k :: 0 <= k < |ds| ==> IsMockDraw(ds[k])
  }

  /** The moisture of the last sample of the data, or 65 when there is none; so a
      history inside the moisture band [20, 85] ends the series inside it. */
  function LatestMoisture(data: seq<Sample>): (m: real)
    ensures data == [] ==> m == DefaultMoisture
    ensures data != [] ==> m == data[|data| - 1].moisture
    ensures (forall k :: 0 <= k < |data| ==> MoistureFloor <= data[k].moisture <= 85.0) ==> MoistureFloor <= m <= 85.0
  {
    if |data| > 0 then data[|data| - 1].moisture else DefaultMoisture
  }

  /** The instant of the point `i` steps back: hours for "24h", three hours otherwise;
      never after now, and now only for the last point. */
  function MockTime(range: string, now: Time, i: nat): (t: Time)
    ensures t <= now
    ensures t == now <==> i == 0
    ensures range == "24h" ==> now - t == i * MsPerHour
  {
    if range == "24h" then now - i * MsPerHour else now - i * 3 * MsPerHour
  }

  /** Below `points`, the linear baseline `65 - 40 i / points` stays above 25. */
  lemma BaselineAboveFloor(i: nat, points: nat)
    requires i < points
    ensures 25.0 < 65.0 - (i as real * 40.0) / points as real <= 65.0
  {
    assert i as real * 40.0 < points as real * 40.0;
    assert (i as real * 40.0) / points as real < 40.0;
  }

  /** The moisture of the point `i` steps back: the latest real moisture at `i == 0`;
      otherwise the declining baseline with noise, floored at 25, and, below 30, a
      one-in-five watering event that adds between 30 and 50. */
  function MockMoisture(data: seq<Sample>, i: nat, points: nat, d: MockDraw): (m: real)
    requires i < points && IsMockDraw(d)
    ensures i == 0 ==> m == LatestMoisture(data)
    ensures i > 0 ==> 25.0 <= m < 80.0
  {
    if i == 0 then LatestMoisture(data)
    else
      BaselineAboveFloor(i, points);
      var baseMoisture := 65.0 - (i as real * 40.0) / points as real;
      var moisture := Max(25.0, baseMoisture + (d.noise * 10.0 - 5.0));
      if moisture < 30.0 && d.chance > 0.8 then moisture + (30.0 + d.amount * 20.0) else moisture
  }

  /** The generated point `i` steps back; `toFixed(1)` is rounding to one decimal. */
  function MockPoint(data: seq<Sample>, range: string, now: Time, i: nat, d: MockDraw): (p: Sample)
    requires i < Points(range) && IsMockDraw(d)
    ensures p.time == MockTime(range, now, i) && !p.pumpActive
    ensures 20.0 <= p.temperature < 30.0
    ensures i == 0 ==> p.moisture == Round1(LatestMoisture(data))
    ensures i > 0 ==> 25.0 <= p.moisture <= 80.0
  {
    var m := MockMoisture(data, i, Points(range), d);
    assert i > 0 ==> 25.0 <= Round1(m) <= 80.0 by {
      if i > 0 { Round1Between(m, 25, 80); }
    }
    Sample(MockTime(range, now, i), Round1(m), 20.0 + d.temperature * 10.0, false)
  }

  /** `generateTimeBasedData`: the points from `Points(range) - 1` steps back up to now,
      the `k`-th pushed with the draws `draws[k]`. */
  function TimeBasedData(data: seq<Sample>, range: string, now: Time, draws: seq<MockDraw>): (r: seq<Sample>)
    requires |draws| == Points(range) && AllMockDraws(draws)
    ensures |r| == Points(range)
    ensures forall k :: 0 <= k < |r| ==> r[k] == MockPoint(data, range, now, |r| - 1 - k, draws[k])
  {
    var points := Points(range);
    seq(points, k requires 0 <= k < points => MockPoint(data, range, now, points - 1 - k, draws[k]))
  }

  /** The generated series has one point per step, oldest first, ends now on the latest
      real moisture (65 without data), and every earlier point lies in [25, 80] with a
      temperature in [20, 30) and the pump off. */
  lemma TimeBasedDataShape(data: seq<Sample>, range: string, now: Time, draws: seq<MockDraw>)
    requires |draws| == Points(range) && AllMockDraws(draws)
    ensures var r := TimeBasedData(data, range, now, draws);
      && Chronological(r)
      && r[|r| - 1].time == now
      && r[|r| - 1].moisture == Round1(LatestMoisture(data))
      && (data == [] ==> r[|r| - 1].moisture == DefaultMoisture)
      && (forall k :: 0 <= k < |r| - 1 ==> 25.0 <= r[k].moisture <= 80.0)
      && (forall k :: 0 <= k < |r| ==> 20.0 <= r[k].temperature < 30.0 && !r[k].pumpActive)
  {
    var r := TimeBasedData(data, range, now, draws);
    forall k | 0 <= k < |r| - 1
      ensures 25.0 <= r[k].moisture <= 80.0
    {
      Round1Between(MockMoisture(data, |r| - 1 - k, |r|, draws[k]), 25, 80);
    }
    if data == [] {
      assert Round(650.0) == 650;
    }
  }

  /** The countdown loop of `generateTimeBasedData`, pushing one point per step. */
  method GenerateTimeBasedData(data: seq<Sample>, range: string, now: Time, draws: seq<MockDraw>)
    returns (mockData: seq<Sample>)
    requires |draws| == Points(range) && AllMockDraws(draws)
    ensures mockData == TimeBasedData(data, range, now, draws)
  {
    var points := Points(range);
    mockData := [];
    var i: int := points - 1;
    while i >= 0
      invariant -1 <= i < points
      invariant |mockData| == points - 1 - i
      invariant forall k :: 0 <= k < |mockData| ==> mockData[k] == MockPoint(data, range, now, points - 1 - k, draws[k])
    {
      var d := draws[points - 1 - i];
      var time := if range == "24h" then now - i * MsPerHour else now - i * 3 * MsPerHour;
      var moisture: real;
      if i == 0 {
        moisture := if |data| > 0 then data[|data| - 1].moisture else DefaultMoisture;
      } else {
        BaselineAboveFloor(i, points);
        var baseMoisture := 65.0 - (i as real * 40.0) / points as real;
        moisture := Max(25.0, baseMoisture + (d.noise * 10.0 - 5.0));
        if moisture < 30.0 && d.chance > 0.8 {
          moisture := moisture + (30.0 + d.amount * 20.0);
        }
      }
      assert moisture == MockMoisture(data, i, points, d);
      mockData := mockData + [Sample(time, Round1(moisture), 20.0 + d.temperature * 10.0, false)];
      i := i - 1;
    }
  }

  /** The points the chart shows: the latest `Points(range)` samples; when there are
      fewer, generated points with the real samples over their most recent end. */
  function DisplayData(rawData: seq<Sample>, range: string, now: Time, draws: seq<MockDraw>): (r: seq<Sample>)
    requires |draws| == Points(range) && AllMockDraws(draws)
    ensures |r| == Points(range)
    ensures forall k :: Points(range) - IntMin(|rawData|, Points(range)) <= k < Points(range) ==>
      r[k] == rawData[|rawData| - Points(range) + k]
    ensures forall k :: 0 <= k < Points(range) - IntMin(|rawData|, Points(range)) ==>
      r[k] == TimeBasedData(rawData, range, now, draws)[k]
  {
    var maxPoints := Points(range);
    if |rawData| > 0 then
      var display := rawData[|rawData| - IntMin(maxPoints, |rawData|)..];
      if |display| < maxPoints then
        TimeBasedData(rawData, range, now, draws)[..maxPoints - |display|] + display
      else display
    else TimeBasedData(rawData, range, now, draws)
  }

  /** Enough data is shown exactly as its latest `Points(range)` samples; no data gives
      the generated series alone; any data ends the display on its latest sample. */
  lemma DisplayDataCases(rawData: seq<Sample>, range: string, now: Time, draws: seq<MockDraw>)
    requires |draws| == Points(range) && AllMockDraws(draws)
    ensures |rawData| >= Points(range) ==>
      DisplayData(rawData, range, now, draws) == rawData[|rawData| - Points(range)..]
    ensures rawData == [] ==> DisplayData(rawData, range, now, draws) == TimeBasedData(rawData, range, now, draws)
    ensures rawData != [] ==>
      DisplayData(rawData, range, now, draws)[Points(range) - 1] == rawData[|rawData| - 1]
  {
    var r := DisplayData(rawData, range, now, draws);
    if rawData != [] {
      assert r[Points(range) - 1] == rawData[|rawData| - 1];
    }
  }

  /** What the chart is given: a label and a value per displayed point. */
  datatype ChartData = ChartData(labels: seq<Time>, values: seq<real>)

  /** The `map`s to labels and moisture values. */
  function ChartOf(display: seq<Sample>): (c: ChartData)
    ensures |c.labels| == |display| && |c.values| == |display|
    ensures forall k :: 0 <= k < |display| ==> c.labels[k] == display[k].time && c.values[k] == display[k].moisture
  {
    ChartData(seq(|display|, k requires 0 <= k < |display| => display[k].time),
              seq(|display|, k requires 0 <= k < |display| => display[k].moisture))
  }

  /** `transformData`: slices the latest points and, when short, overwrites the tail of
      a generated series in place, one real sample at a time; the guard before each
      write always holds. */
  method TransformData(rawData: seq<Sample>, range: string, now: Time, draws: seq<MockDraw>)
    returns (chart: ChartData)
    requires |draws| == Points(range) && AllMockDraws(draws)
    ensures chart == ChartOf(DisplayData(rawData, range, now, draws))
  {
    var displayData: seq<Sample>;
    if |rawData| > 0 {
      var maxPoints := Points(range);
      displayData := rawData[|rawData| - IntMin(maxPoints, |rawData|)..];
      if |displayData| < maxPoints {
        var mock := GenerateTimeBasedData(rawData, range, now, draws);
        var mockData := new Sample[|mock|](k requires 0 <= k < |mock| => mock[k]);
        var startIndex := mockData.Length - |displayData|;
        var i := 0;
        while i < |displayData|
          invariant 0 <= i <= |displayData|
          invariant forall k :: 0 <= k < mockData.Length ==>
            mockData[k] == if startIndex <= k < startIndex + i then displayData[k - startIndex] else mock[k]
        {
          assert startIndex + i < mockData.Length;
          if startIndex + i < mockData.Length {
            mockData[startIndex + i] := displayData[i];
          }
          i := i + 1;
        }
        assert mockData[..] == mock[..maxPoints - |displayData|] + displayData;
        assert mockData[..] == DisplayData(rawData, range, now, draws);
        displayData := mockData[..];
      } else {
        assert displayData == DisplayData(rawData, range, now, draws);
      }
    } else {
      displayData := GenerateTimeBasedData(rawData, range, now, draws);
    }
    chart := ChartOf(displayData);
  }
}
