/** UTC instants as integer milliseconds since the epoch. */
module Time {
  import opened Basics

  const MINUTE: int := 60_000
  const DAY: int := 86_400_000

  /** The UTC day containing `t`; days before the epoch are negative. */
  function DayOf(t: int): int {
    t / DAY
  }

  /** The first instant of the UTC day after the one containing `t`. */
  function NextDay(t: int): int {
    (DayOf(t) + 1) * DAY
  }

  /** `delay_seconds`: whole seconds, rounded up, never negative. */
  function DelaySeconds(until: int, now: int): nat {
    (Max(until - now, 0) + 999) / 1000
  }

  function SaturateI64(x: int): int {
    Max(I64_MIN, Min(I64_MAX, x))
  }

  /** The instants a chrono `DateTime` can hold lie well inside one 1024th of the 64-bit range. */
  predicate Representable(t: int) {
    I64_MIN / 1024 <= t <= I64_MAX / 1024
  }

  /** The code's saturating offsets of one minute never saturate on representable instants. */
  lemma OffsetsDoNotSaturate(t: int, u: int)
    requires Representable(t) && Representable(u)
    ensures SaturateI64(t + MINUTE) == t + MINUTE
    ensures SaturateI64(t - MINUTE) == t - MINUTE
    ensures SaturateI64(t - u) == t - u
  {
    assert I64_MAX / 1024 + MINUTE < I64_MAX;
  }

  lemma DayBoundary(t: int, u: int)
    ensures DayOf(u) > DayOf(t) <==> u >= NextDay(t)
    ensures NextDay(t) > t
  {
    var d := DayOf(t);
    assert d * DAY <= t < (d + 1) * DAY;
    if u >= (d + 1) * DAY {
      assert u / DAY >= d + 1;
    } else {
      assert u / DAY < d + 1;
    }
  }

  lemma DayMonotone(t: int, u: int)
    requires t <= u
    ensures DayOf(t) <= DayOf(u)
  {
    DayBoundary(u, t);
  }

  /** The rounded delay is the least number of seconds after which `until` has come. */
  lemma DelayIsLeast(until: int, now: int, d: nat)
    ensures now + 1000 * d >= until <==> d >= DelaySeconds(until, now)
  {
  }

  lemma DelayOfLatest(a: int, b: int, now: int)
    ensures Max(DelaySeconds(a, now), DelaySeconds(b, now)) == DelaySeconds(Max(a, b), now)
  {
  }
}
