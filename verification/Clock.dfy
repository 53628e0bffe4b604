/** Instants as whole seconds and microseconds. */
module Clock {
  import opened Prelude

  const MICROS: int := 1_000_000

  datatype ClockTime = ClockTime(seconds: int, microseconds: int) {
    /** What `__post_init__` accepts. */
    predicate Valid() { 0 <= microseconds < MICROS && seconds >= 0 }

    function Total(): int { seconds * MICROS + microseconds }

    /** The field-wise order a frozen dataclass compares by. */
    predicate Less(other: ClockTime) {
      seconds < other.seconds || (seconds == other.seconds && microseconds < other.microseconds)
    }

    function ToTimestamp(): real { seconds as real + microseconds as real / 1_000_000.0 }
  }

  /** Python's `round`: to nearest, halves to even. */
  function Round(x: real): int {
    var f := x.Floor;
    if x - f as real < 0.5 then f
    else if x - f as real > 0.5 then f + 1
    else if f % 2 == 0 then f else f + 1
  }

  /** `from_timestamp`; None is the error for instants before the epoch. */
  function FromTimestamp(timestamp: real): Option<ClockTime> {
    if timestamp < 0.0 then None
    else
      var seconds := timestamp.Floor;
      var micros := Round((timestamp - seconds as real) * 1_000_000.0);
      if micros == MICROS then Some(ClockTime(seconds + 1, 0)) else Some(ClockTime(seconds, micros))
  }

  /** `divmod` back into fields. */
  function FromTotal(total: int): Option<ClockTime> {
    if total < 0 then None else Some(ClockTime(total / MICROS, total % MICROS))
  }

  /** `__add__`, and `__sub__` of a duration with the sign turned. */
  function Add(t: ClockTime, duration: real): Option<ClockTime> {
    FromTotal(t.Total() + Round(duration * 1_000_000.0))
  }

  /** `__sub__` of another instant: seconds between them. */
  function Minus(t: ClockTime, u: ClockTime): real {
    (t.Total() - u.Total()) as real / 1_000_000.0
  }

  lemma RoundNearest(x: real, n: int)
    requires -0.5 < x - n as real < 0.5
    ensures Round(x) == n
  {
    assert x.Floor == n || x.Floor == n - 1;
  }

  lemma RoundBounds(x: real)
    ensures -0.5 <= x - Round(x) as real <= 0.5
  {
  }

  /** Any non-negative timestamp strictly within half a microsecond of an instant gives back that
      instant, also across the carry into the next second. */
  lemma FromTimestampRecovers(t: ClockTime, timestamp: real)
    requires t.Valid() && timestamp >= 0.0
    requires -0.5 < (timestamp - t.ToTimestamp()) * 1_000_000.0 < 0.5
    ensures FromTimestamp(timestamp) == Some(t)
  {
    var s := timestamp.Floor;
    var x := (timestamp - s as real) * 1_000_000.0;
    var exact := (t.seconds - s) * MICROS + t.microseconds;
    assert -0.5 < x - exact as real < 0.5 by {
      assert t.ToTimestamp() * 1_000_000.0 == t.seconds as real * 1_000_000.0 + t.microseconds as real;
    }
    assert 0.0 <= x < 1_000_000.0;
    assert 0 <= exact <= MICROS;
    assert s == t.seconds || (s == t.seconds - 1 && t.microseconds == 0);
    RoundNearest(x, exact);
  }

  /** The durable form round-trips exactly. */
  lemma TimestampRoundTrip(t: ClockTime)
    requires t.Valid()
    ensures FromTimestamp(t.ToTimestamp()) == Some(t)
  {
    FromTimestampRecovers(t, t.ToTimestamp());
  }

  /** Every non-negative timestamp becomes a valid instant at most half a microsecond away. */
  lemma FromTimestampIsNearest(timestamp: real)
    requires timestamp >= 0.0
    ensures FromTimestamp(timestamp).Some? && FromTimestamp(timestamp).value.Valid()
    ensures -0.5 <= (timestamp - FromTimestamp(timestamp).value.ToTimestamp()) * 1_000_000.0 <= 0.5
  {
    var s := timestamp.Floor;
    var x := (timestamp - s as real) * 1_000_000.0;
    assert 0.0 <= x < 1_000_000.0;
    RoundBounds(x);
    var t := FromTimestamp(timestamp).value;
    assert t.ToTimestamp() * 1_000_000.0 == t.seconds as real * 1_000_000.0 + t.microseconds as real;
  }

  /** Comparing fields is comparing total microseconds, and total microseconds name the instant. */
  lemma OrderIsTotalOrder(t: ClockTime, u: ClockTime)
    requires t.Valid() && u.Valid()
    ensures t.Less(u) <==> t.Total() < u.Total()
    ensures t == u <==> t.Total() == u.Total()
    ensures FromTotal(t.Total()) == Some(t)
  {
    assert (t.seconds * MICROS + t.microseconds) / MICROS == t.seconds;
  }

  /** Adding a duration adds its rounded microseconds, and fails exactly before the epoch. */
  lemma AddIsIntegerAddition(t: ClockTime, duration: real)
    requires t.Valid()
    ensures
      var total := t.Total() + Round(duration * 1_000_000.0);
      match Add(t, duration)
      case None => total < 0
      case Some(u) => u.Valid() && u.Total() == total
  {
    var total := t.Total() + Round(duration * 1_000_000.0);
    assert total >= 0 ==> total == (total / MICROS) * MICROS + total % MICROS;
  }

  /** Measuring and shifting are inverse: u + (t - u) is t. */
  lemma MeasureThenShift(t: ClockTime, u: ClockTime)
    requires t.Valid() && u.Valid()
    ensures Add(u, Minus(t, u)) == Some(t)
    ensures Minus(t, u) < 0.0 <==> t.Less(u)
  {
    var n := t.Total() - u.Total();
    assert Minus(t, u) * 1_000_000.0 == n as real;
    RoundNearest(n as real, n);
    OrderIsTotalOrder(t, u);
  }

  /** `elapsed_time`: absent when an instant is missing or the clock went back. */
  function ElapsedTime(start: Option<ClockTime>, end: Option<ClockTime>): Option<real> {
    if start.None? || end.None? then None
    else
      var seconds := Minus(end.value, start.value);
      if seconds < 0.0 then None else Some(seconds)
  }

  /** A reported duration is never negative, and leads from start back to end. */
  lemma ElapsedLeadsToEnd(start: ClockTime, end: ClockTime)
    requires start.Valid() && end.Valid()
    ensures
      match ElapsedTime(Some(start), Some(end))
      case None => end.Less(start)
      case Some(d) => d >= 0.0 && Add(start, d) == Some(end)
  {
    MeasureThenShift(end, start);
  }
}
