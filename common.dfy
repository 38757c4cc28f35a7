/** Shared vocabulary of the plant simulation: instants, history samples,
    the bounded FIFO logs and the rounding of JavaScript's `Math.round`. */
module Common {

  /** An optional value; `None` stands for JavaScript's `undefined`. */
  datatype Option<T> = None | Some(value: T)

  /** An instant, in milliseconds, as `new Date()` yields it. The clock labels
      the source prints for an instant are not modelled: the instant stands for its label. */
  type Time = int

  const MsPerHour: int := 3600000

  /** Hours elapsed from `since` to `now`: `(now - since) / (1000 * 60 * 60)`. */
  function HoursSince(since: Time, now: Time): (h: real)
    ensures since <= now ==> h >= 0.0
    ensures since == now ==> h == 0.0
    ensures h * MsPerHour as real == (now - since) as real
  {
    (now - since) as real / MsPerHour as real
  }

  /** One point of a history buffer: `{ time, moisture, temperature, pumpActive }`. */
  datatype Sample = Sample(time: Time, moisture: real, temperature: real, pumpActive: bool)

  /** `Math.max` on two numbers. */
  function Max(a: real, b: real): (r: real)
    ensures r >= a && r >= b
    ensures r == a || r == b
  {
    if a >= b then a else b
  }

  /** `Math.min` on two numbers. */
  function Min(a: real, b: real): (r: real)
    ensures r <= a && r <= b
    ensures r == a || r == b
  {
    if a <= b then a else b
  }

  function IntMin(a: int, b: int): (r: int)
    ensures r <= a && r <= b
    ensures r == a || r == b
  {
    if a <= b then a else b
  }

  /** `Math.round`: the nearest integer, a half rounded towards +infinity. */
  function Round(x: real): (n: int)
    ensures x - 0.5 < n as real <= x + 0.5
  {
    (x + 0.5).Floor
  }

  /** `Math.round(x * 10) / 10`: `x` to one decimal place. */
  function Round1(x: real): (r: real)
    ensures x - 0.05 < r <= x + 0.05
  {
    Round(x * 10.0) as real / 10.0
  }

  lemma RoundMonotone(x: real, y: real)
    requires x <= y
    ensures Round(x) <= Round(y)
  {
    assert (x + 0.5).Floor as real <= x + 0.5 <= y + 0.5 < (y + 0.5).Floor as real + 1.0;
  }

  /** Rounding leaves a whole number alone. */
  lemma RoundWhole(n: int)
    ensures Round(n as real) == n
  {
  }

  /** A value between two whole moisture bounds stays between them once rounded to
      one decimal: the rounding cannot push a clamped value past its clamp. */
  lemma Round1Between(x: real, lo: int, hi: int)
    requires lo as real <= x <= hi as real
    ensures lo as real <= Round1(x) <= hi as real
  {
    RoundMonotone(lo as real * 10.0, x * 10.0);
    RoundMonotone(x * 10.0, hi as real * 10.0);
    RoundWhole(lo * 10);
    RoundWhole(hi * 10);
  }

  /** `log.push(x)` followed by one `log.shift()` when the length then exceeds `cap`:
      the bounded, oldest-first logs of the system. */
  function AppendCapped<T>(log: seq<T>, x: T, cap: nat): (r: seq<T>)
    ensures |r| == if |log| + 1 > cap then |log| else |log| + 1
    ensures r == (log + [x])[|log| + 1 - |r|..]
  {
    var pushed := log + [x];
    if |pushed| > cap then pushed[1..] else pushed
  }

  /** A log that respects its capacity keeps respecting it; the new entry is the
      last one, and every older entry that survives keeps its relative order, only
      the oldest being evicted. */
  lemma AppendCappedFifo<T>(log: seq<T>, x: T, cap: nat)
    requires |log| <= cap && cap > 0
    ensures var r := AppendCapped(log, x, cap);
      && |r| <= cap
      && r[|r| - 1] == x
      && r[..|r| - 1] == (if |log| == cap then log[1..] else log)
  {
    var r := AppendCapped(log, x, cap);
    assert r[..|r| - 1] == (log + [x])[|log| + 1 - |r|..|log|];
  }
}
