/** PTP timestamps and signed intervals, as seconds plus nanoseconds.

The source keeps every value as a (seconds, nanos) pair and propagates carries and borrows by
hand; an `Option` result is `None` exactly where the source returns `None`, and, for the interval
operators that return no `Option`, where their arithmetic or their constructor would panic. */
module Time {
  import opened Base

  const NANOS_PER_SECOND: int := 1_000_000_000
  const MAX_SECONDS_EXCL: int := 0x1_0000_0000_0000
  const MAX_NANOS_EXCL: int := MAX_SECONDS_EXCL * NANOS_PER_SECOND

  datatype RawTimeStamp = Stamp(seconds: int, nanos: int)

  predicate ValidStamp(t: RawTimeStamp) {
    0 <= t.seconds < MAX_SECONDS_EXCL && 0 <= t.nanos < NANOS_PER_SECOND
  }

  type TimeStamp = t: RawTimeStamp | ValidStamp(t) witness Stamp(0, 0)

  datatype RawTimeInterval = Interval(seconds: int, nanos: int)

  /** The assertions of `TimeInterval::new` over the field types `i64` and `u32`. */
  predicate ValidInterval(d: RawTimeInterval) {
    && I64_MIN <= d.seconds <= I64_MAX
    && 0 <= d.nanos < NANOS_PER_SECOND
    && (d.seconds != I64_MIN || d.nanos > 0)
  }

  type TimeInterval = d: RawTimeInterval | ValidInterval(d) witness Interval(0, 0)

  const ZERO: TimeInterval := Interval(0, 0)

  /** The instant a timestamp denotes, in nanoseconds. */
  function StampNanos(t: RawTimeStamp): int {
    t.seconds * NANOS_PER_SECOND + t.nanos
  }

  function TotalNanos(d: RawTimeInterval): int {
    d.seconds * NANOS_PER_SECOND + d.nanos
  }

  /** Derived `Ord` on (seconds, nanos). */
  function CompareStamps(a: TimeStamp, b: TimeStamp): Ordering {
    CompareInt(a.seconds, b.seconds).Then(CompareInt(a.nanos, b.nanos))
  }

  function CompareIntervals(a: TimeInterval, b: TimeInterval): Ordering {
    CompareInt(a.seconds, b.seconds).Then(CompareInt(a.nanos, b.nanos))
  }

  function CheckedI64(x: int): Option<int> {
    if I64_MIN <= x <= I64_MAX then Some(x) else None
  }

  function TryNewI64(seconds: int, nanos: int): Option<TimeStamp> {
    if 0 <= seconds < MAX_SECONDS_EXCL && 0 <= nanos < NANOS_PER_SECOND then
      Some(Stamp(seconds, nanos))
    else
      None
  }

  function CheckedAdd(t: TimeStamp, d: TimeInterval): (r: Option<TimeStamp>)
    ensures r.Some? <==> 0 <= StampNanos(t) + TotalNanos(d) < MAX_NANOS_EXCL
    ensures r.Some? ==> StampNanos(r.value) == StampNanos(t) + TotalNanos(d)
  {
    match CheckedI64(t.seconds + d.seconds)
    case None => None
    case Some(seconds) =>
      var nanos := t.nanos + d.nanos;
      if nanos >= NANOS_PER_SECOND then
        match CheckedI64(seconds + 1)
        case None => None
        case Some(carried) => TryNewI64(carried, nanos - NANOS_PER_SECOND)
      else
        TryNewI64(seconds, nanos)
  }

  function CheckedSub(t: TimeStamp, d: TimeInterval): (r: Option<TimeStamp>)
    ensures r.Some? <==> 0 <= StampNanos(t) - TotalNanos(d) < MAX_NANOS_EXCL
    ensures r.Some? ==> StampNanos(r.value) == StampNanos(t) - TotalNanos(d)
  {
    match CheckedI64(t.seconds - d.seconds)
    case None => None
    case Some(seconds) =>
      var nanos := t.nanos - d.nanos;
      if nanos < 0 then
        match CheckedI64(seconds - 1)
        case None => None
        case Some(borrowed) => TryNewI64(borrowed, nanos + NANOS_PER_SECOND)
      else
        TryNewI64(seconds, nanos)
  }

  function StampDifference(t: TimeStamp, u: TimeStamp): (r: TimeInterval)
    ensures TotalNanos(r) == StampNanos(t) - StampNanos(u)
    ensures -MAX_SECONDS_EXCL <= r.seconds < MAX_SECONDS_EXCL
  {
    var seconds := t.seconds - u.seconds;
    var nanos := t.nanos - u.nanos;
    if nanos < 0 then Interval(seconds - 1, nanos + NANOS_PER_SECOND) else Interval(seconds, nanos)
  }

  /** `TimeInterval - TimeInterval`; `None` is an `i64` overflow or a failed constructor assertion.
  The exact condition mentions the raw difference of the seconds because the source forms it
  before the borrow. */
  function IntervalDifference(a: TimeInterval, b: TimeInterval): (r: Option<TimeInterval>)
    ensures r.Some? <==>
            && I64_MIN <= a.seconds - b.seconds <= I64_MAX
            && I64_MIN * NANOS_PER_SECOND < TotalNanos(a) - TotalNanos(b)
    ensures r.Some? ==> TotalNanos(r.value) == TotalNanos(a) - TotalNanos(b)
  {
    match CheckedI64(a.seconds - b.seconds)
    case None => None
    case Some(seconds) =>
      var nanos := a.nanos - b.nanos;
      var raw := if nanos < 0 then Interval(seconds - 1, nanos + NANOS_PER_SECOND)
                 else Interval(seconds, nanos);
      if ValidInterval(raw) then Some(raw) else None
  }

  /** `from_total_nanos` on the values `half` passes to it. */
  function Half(d: TimeInterval): (r: TimeInterval)
    ensures TotalNanos(r) == TruncatedHalf(TotalNanos(d))
    ensures TotalNanos(d) >= 0 ==> 2 * TotalNanos(r) <= TotalNanos(d) <= 2 * TotalNanos(r) + 1
    ensures TotalNanos(d) < 0 ==> 2 * TotalNanos(r) - 1 <= TotalNanos(d) <= 2 * TotalNanos(r)
  {
    var total := TruncatedHalf(TotalNanos(d));
    Interval(total / NANOS_PER_SECOND, total % NANOS_PER_SECOND)
  }

  function AbsInterval(d: TimeInterval): (r: TimeInterval)
    ensures TotalNanos(r) == Abs(TotalNanos(d))
  {
    if d.seconds < 0 then
      if d.nanos == 0 then
        Interval(-d.seconds, 0)
      else
        Interval(-(d.seconds + 1), NANOS_PER_SECOND - d.nanos)
    else
      d
  }

  function Seconds(d: TimeInterval): real {
    TotalNanos(d) as real / 1_000_000_000.0
  }

  /** Seconds plus nanos is an order isomorphism onto the nanoseconds below 2^48 seconds. */
  lemma StampsAreNanoseconds(a: TimeStamp, b: TimeStamp, n: int)
    ensures StampNanos(a) == a.seconds * 1_000_000_000 + a.nanos
    ensures CompareStamps(a, b) == CompareInt(StampNanos(a), StampNanos(b))
    ensures StampNanos(a) == StampNanos(b) <==> a == b
    ensures 0 <= n < 281_474_976_710_656 * 1_000_000_000 <==> exists t: TimeStamp :: StampNanos(t) == n
  {
    if 0 <= n < MAX_NANOS_EXCL {
      var t: TimeStamp := Stamp(n / NANOS_PER_SECOND, n % NANOS_PER_SECOND);
      assert StampNanos(t) == n;
    }
  }

  lemma IntervalsAreNanoseconds(a: TimeInterval, b: TimeInterval)
    ensures TotalNanos(a) == a.seconds * 1_000_000_000 + a.nanos
    ensures CompareIntervals(a, b) == CompareInt(TotalNanos(a), TotalNanos(b))
    ensures TotalNanos(a) == TotalNanos(b) <==> a == b
  {
  }

  /** Differences of timestamps undo additions and subtractions, for all timestamps. */
  lemma DifferenceRoundTrip(t: TimeStamp, u: TimeStamp)
    ensures CheckedAdd(u, StampDifference(t, u)) == Some(t)
    ensures CheckedSub(t, StampDifference(t, u)) == Some(u)
  {
    var sum := CheckedAdd(u, StampDifference(t, u));
    var rest := CheckedSub(t, StampDifference(t, u));
    StampsAreNanoseconds(t, u, StampNanos(t));
    StampsAreNanoseconds(t, u, StampNanos(u));
    StampsAreNanoseconds(sum.value, t, 0);
    StampsAreNanoseconds(rest.value, u, 0);
  }

  /** Subtraction and addition of one interval cancel whenever the first step succeeds. */
  lemma AddUndoesSub(t: TimeStamp, d: TimeInterval)
    requires CheckedSub(t, d).Some?
    ensures CheckedAdd(CheckedSub(t, d).value, d) == Some(t)
  {
    var back := CheckedAdd(CheckedSub(t, d).value, d);
    StampsAreNanoseconds(t, t, StampNanos(t));
    StampsAreNanoseconds(back.value, t, 0);
  }

  /** Logarithmic message intervals: `LogInterval::new` admits -20 through 20. */
  type LogInterval = e: int | -20 <= e <= 20

  function Pow2(e: nat): nat {
    if e == 0 then 1 else 2 * Pow2(e - 1)
  }

  /** `LogInterval::duration` in nanoseconds. */
  function IntervalDuration(e: LogInterval): nat {
    if e >= 0 then
      SaturatingMul(Pow2(e), 1_000_000_000)
    else
      Positive(-e);
      DivisionBounds(1_000_000_000, Pow2(-e));
      1_000_000_000 / Pow2(-e)
  }

  lemma Positive(e: nat)
    ensures Pow2(e) > 0
  {
  }

  lemma {:induction false} Pow2IsMonotone(e: nat, f: nat)
    requires e <= f
    ensures Pow2(e) <= Pow2(f)
  {
    if e < f {
      Pow2IsMonotone(e, f - 1);
    }
  }

  /** Whole-second intervals last 2^e seconds, without saturation. */
  lemma LongIntervals(e: LogInterval)
    requires e >= 0
    ensures IntervalDuration(e) == 1_000_000_000 * Pow2(e) <= 1_000_000_000 * 0x10_0000
  {
    Pow2IsMonotone(e, 20);
    assert Pow2(20) == 0x10_0000 by {
      Pow2FiveLater(0);
      Pow2FiveLater(5);
      Pow2FiveLater(10);
      Pow2FiveLater(15);
    }
  }

  lemma Pow2FiveLater(e: nat)
    ensures Pow2(e + 5) == 32 * Pow2(e)
  {
    assert Pow2(e + 5) == 2 * (2 * Pow2(e + 3));
    assert Pow2(e + 3) == 2 * (2 * Pow2(e + 1));
  }

  /** Fractional intervals last 2^e seconds rounded down to a nanosecond. */
  lemma ShortIntervals(e: LogInterval)
    requires e < 0
    ensures var d := IntervalDuration(e);
            d <= 1_000_000_000 && d * Pow2(-e) <= 1_000_000_000 < d * Pow2(-e) + Pow2(-e)
  {
    Positive(-e);
    DivisionBounds(1_000_000_000, Pow2(-e));
  }

  lemma DivisionBounds(x: int, d: int)
    requires x >= 0 && d > 0
    ensures 0 <= x / d <= x
    ensures (x / d) * d <= x < (x / d) * d + d
  {
    Remainder(x, d);
    QuotientIsSmaller(x, d, x / d);
  }

  lemma Remainder(x: int, d: int)
    requires d > 0
    ensures (x / d) * d == x - x % d
  {
    assert x == d * (x / d) + x % d;
  }

  lemma QuotientIsSmaller(x: int, d: int, q: int)
    requires d >= 1 && q >= 0 && q * d <= x
    ensures q <= x
  {
    assert q * (d - 1) >= 0;
  }

  /** `LogMessageInterval::log_interval`. */
  function ToLogInterval(raw: int8): Option<LogInterval> {
    if -20 <= raw <= 20 then Some(raw) else None
  }
}
