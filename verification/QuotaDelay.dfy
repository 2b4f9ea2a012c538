/**
 What the quota engine promises about waiting: a stated delay is exact, refused attempts in
 between do not move it, and no row is locked out for good.
 */
module QuotaDelay {
  import opened Basics
  import opened Time
  import opened QuotaSpec

  /** A reservation made at wall time `t` is granted. */
  predicate GrantedWith(r: Rows, limits: Limits, waiting: Option<Feedback>, t: int) {
    var res := ReserveTx(r, limits, waiting, t);
    res.Ok? && res.value.granted
  }

  /** It is refused for quota reasons, not because storage failed. */
  predicate RefusedWith(r: Rows, limits: Limits, waiting: Option<Feedback>, t: int) {
    var res := ReserveTx(r, limits, waiting, t);
    res.Ok? && !res.value.granted
  }

  ghost predicate OpensExactlyWith(r: Rows, limits: Limits, waiting: Option<Feedback>, from: int, opens: int) {
    (forall t :: from <= t < opens ==> RefusedWith(r, limits, waiting, t)) && GrantedWith(r, limits, waiting, opens)
  }

  /** The same with no feedback waiting. */
  predicate Granted(r: Rows, limits: Limits, t: int) {
    GrantedWith(r, limits, None, t)
  }

  predicate Refused(r: Rows, limits: Limits, t: int) {
    RefusedWith(r, limits, None, t)
  }

  ghost predicate OpensExactlyAt(r: Rows, limits: Limits, from: int, opens: int) {
    (forall t :: from <= t < opens ==> Refused(r, limits, t)) && Granted(r, limits, opens)
  }

  /** Nothing in the row has run out by `now`. */
  predicate Settled(q: Quota, now: int) {
    q.day == DayOf(now)
    && (q.cooldown.Some? ==> q.cooldown.value > now)
    && (q.reset.Some? ==> q.reset.value > now)
  }

  lemma PreparedSettles(r: Rows, limits: Limits, waiting: Option<Feedback>, now: int)
    requires Sorted(r.attempts) && Prepared(r, limits, waiting, now).Ok?
    ensures var p := Prepared(r, limits, waiting, now).value;
            Settled(p.quota, now) && Sorted(p.attempts) && p.attempts == Recent(p.attempts, now)
  {
    RecentSorted(r.attempts, now);
    RecentOfRecent(r.attempts, now, now);
    AdvancedSettles(r.quota, now);
    if waiting.Some? {
      AppliedSettles(AdvanceDay(r.quota, now).value, waiting.value, now, limits.unobserved);
    }
  }

  /** The minute window stays full until exactly enough of its oldest timestamps have aged out. */
  lemma MinuteClearsExactly(a: seq<int>, limits: Limits, now: int, t: int)
    requires Sorted(a) && MinuteBlocks(a, limits, now) && now <= t
    ensures MinuteBlocks(a, limits, t) <==>
            t < Recent(a, now)[|Recent(a, now)| - limits.minute] + MINUTE
    ensures Recent(a, now)[|Recent(a, now)| - limits.minute] + MINUTE > now
  {
    var recent := Recent(a, now);
    RecentIsSuffix(a, now);
    RecentOfRecent(a, now, t);
    RecentSorted(a, now);
    RecentIsSuffix(recent, t);
  }

  lemma MinuteStaysOpen(a: seq<int>, limits: Limits, now: int, t: int)
    requires Sorted(a) && !MinuteBlocks(a, limits, now) && now <= t
    ensures !MinuteBlocks(a, limits, t)
  {
    RecentOfRecent(a, now, t);
    RecentSorted(a, now);
    RecentIsSuffix(Recent(a, now), t);
  }

  lemma MinuteUntil(a: seq<int>, limits: Limits, now: int, t: int)
    requires Sorted(a) && now <= t
    ensures MinuteBlocks(a, limits, t) <==> t < MinuteClears(a, limits, now)
  {
    if MinuteBlocks(a, limits, now) {
      MinuteClearsExactly(a, limits, now, t);
    } else {
      MinuteStaysOpen(a, limits, now, t);
    }
  }

  /** How each blocking condition of a settled row looks at a later time. */
  lemma ConditionsLater(q: Quota, limits: Limits, now: int, t: int)
    requires limits.Valid() && Settled(q, now) && now <= t && !EndUnknown(q, now)
    ensures AdvanceDay(q, t).Ok?
    ensures var later := AdvanceDay(q, t).value;
            && (CooldownBlocks(later, t) <==> CooldownBlocks(q, now) && t < q.cooldown.value)
            && (DayBlocks(later, limits) <==> DayBlocks(q, limits) && t < NextDay(now))
            && (ProviderBlocks(later) <==> ProviderBlocks(q) && t < q.reset.value)
  {
    DayBoundary(now, t);
    DayMonotone(now, t);
  }

  /** A settled row at a later time, as a reservation then finds it. */
  lemma RefusedIffBlocked(p: Rows, limits: Limits, t: int)
    requires AdvanceDay(p.quota, t).Ok?
    ensures var later := AdvanceDay(p.quota, t).value;
            var blocked := CooldownBlocks(later, t) || DayBlocks(later, limits) || ProviderBlocks(later)
                           || MinuteBlocks(p.attempts, limits, t);
            (Refused(p, limits, t) <==> blocked) && (Granted(p, limits, t) <==> !blocked)
  {
    RecentOfRecent(p.attempts, t, t);
  }

  lemma BlockedUntilClearTime(p: Rows, limits: Limits, now: int, t: int)
    requires limits.Valid() && Settled(p.quota, now) && Sorted(p.attempts) && now <= t
    requires !EndUnknown(p.quota, now)
    ensures Refused(p, limits, t) <==> t < ClearTime(p, limits, now)
    ensures Granted(p, limits, t) <==> t >= ClearTime(p, limits, now)
  {
    ConditionsLater(p.quota, limits, now, t);
    RefusedIffBlocked(p, limits, t);
    DayBoundary(now, now);
    MinuteUntil(p.attempts, limits, now, t);
    ClearTimeIsLatest(p, limits, now, t);
  }

  lemma ClearTimeIsLatest(p: Rows, limits: Limits, now: int, t: int)
    requires now <= t
    ensures t < ClearTime(p, limits, now) <==>
            t < CooldownClears(p.quota, now) || t < DayClears(p.quota, limits, now)
            || t < ProviderClears(p.quota, now) || t < MinuteClears(p.attempts, limits, now)
  {
  }

  /** A delay stated by `reserve` is the exact wait, rounded up, until the next grant is possible. */
  lemma ReserveDelayIsExact(r: Rows, limits: Limits, waiting: Option<Feedback>, now: int)
    requires limits.Valid() && Sorted(r.attempts)
    requires ReserveTx(r, limits, waiting, now).Ok?
    requires ReserveTx(r, limits, waiting, now).value.retryAfter.Some?
    ensures var res := ReserveTx(r, limits, waiting, now).value;
            !res.granted
            && exists opens :: opens > now
                               && OpensExactlyAt(res.rows, limits, now, opens)
                               && res.retryAfter == Some(Max(1, DelaySeconds(opens, now)))
  {
    var res := ReserveTx(r, limits, waiting, now).value;
    PreparedSettles(r, limits, waiting, now);
    var opens := ClearTime(res.rows, limits, now);
    forall t | now <= t ensures Refused(res.rows, limits, t) <==> t < opens
                        ensures Granted(res.rows, limits, t) <==> t >= opens
    {
      BlockedUntilClearTime(res.rows, limits, now, t);
    }
    assert Refused(res.rows, limits, now) by {
      PreparedTwice(r, limits, waiting, now, now);
    }
    assert OpensExactlyAt(res.rows, limits, now, opens);
  }

  lemma AdvanceTwice(q: Quota, now: int, t: int)
    requires AdvanceDay(q, now).Ok? && now <= t
    ensures AdvanceDay(AdvanceDay(q, now).value, t) == AdvanceDay(q, t)
  {
    DayMonotone(now, t);
  }

  lemma AdvanceSettled(q: Quota, now: int, t: int)
    requires q.day == DayOf(now) && now <= t
    ensures AdvanceDay(q, t).Ok?
    ensures Settled(q, now) && t == now ==> AdvanceDay(q, t).value == q
  {
    DayMonotone(now, t);
  }

  lemma AppliedSettles(q: Quota, f: Feedback, now: int, unobserved: nat)
    requires q.day == DayOf(now) && ApplyFeedback(q, f, now, unobserved).Ok?
    ensures Settled(ApplyFeedback(q, f, now, unobserved).value, now)
  {
  }

  lemma AdvancedSettles(q: Quota, now: int)
    requires AdvanceDay(q, now).Ok?
    ensures Settled(AdvanceDay(q, now).value, now)
  {
  }

  /** Preparing a row again later is the same as preparing it only then. */
  lemma PreparedTwice(r: Rows, limits: Limits, waiting: Option<Feedback>, now: int, t: int)
    requires Prepared(r, limits, waiting, now).Ok? && now <= t
    ensures var p := Prepared(r, limits, waiting, now).value;
            Prepared(p, limits, None, t).Ok?
            && (t == now ==> Prepared(p, limits, None, t).value == p)
            && (waiting.None? ==> Prepared(p, limits, None, t) == Prepared(r, limits, None, t))
  {
    var p := Prepared(r, limits, waiting, now).value;
    RecentOfRecent(r.attempts, now, t);
    AdvancedSettles(r.quota, now);
    if waiting.Some? {
      AppliedSettles(AdvanceDay(r.quota, now).value, waiting.value, now, limits.unobserved);
    } else {
      AdvanceTwice(r.quota, now, t);
    }
    AdvanceSettled(p.quota, now, t);
  }

  /** The row after a series of refused reservations. */
  function AfterRefusals(r: Rows, limits: Limits, times: seq<int>): Rows {
    if times == [] then r
    else
      var before := AfterRefusals(r, limits, times[..|times| - 1]);
      var res := ReserveTx(before, limits, None, times[|times| - 1]);
      if res.Ok? then res.value.rows else before
  }

  /** However often a caller tries too early, every early try is refused and the promised one granted. */
  lemma {:induction false} EarlyTriesDoNotMoveOpening(r: Rows, limits: Limits, times: seq<int>, from: int, opens: int)
    requires limits.Valid() && OpensExactlyAt(r, limits, from, opens)
    requires Sorted(times) && forall t :: t in times ==> from <= t < opens
    ensures forall t :: from <= t < opens && (times == [] || times[|times| - 1] <= t) ==>
              Refused(AfterRefusals(r, limits, times), limits, t)
    ensures Granted(AfterRefusals(r, limits, times), limits, opens)
    ensures forall t :: t >= opens || (t >= from && (times == [] || times[|times| - 1] <= t)) ==>
              Prepared(AfterRefusals(r, limits, times), limits, None, t) == Prepared(r, limits, None, t)
  {
    if times != [] {
      var n := |times| - 1;
      assert forall t :: t in times[..n] ==> t in times;
      EarlyTriesDoNotMoveOpening(r, limits, times[..n], from, opens);
      var before := AfterRefusals(r, limits, times[..n]);
      assert n > 0 ==> times[..n][n - 1] <= times[n];
      assert times[n] in times;
      assert Refused(before, limits, times[n]);
      forall t | t >= opens || (t >= from && times[n] <= t)
        ensures Prepared(AfterRefusals(r, limits, times), limits, None, t) == Prepared(r, limits, None, t)
      {
        PreparedTwice(before, limits, None, times[n], t);
      }
      forall t | times[n] <= t < opens ensures Refused(AfterRefusals(r, limits, times), limits, t) {
        assert Refused(r, limits, t);
      }
    }
  }

  /** Purging first does not change a decision. */
  lemma MinutePurged(a: seq<int>, limits: Limits, now: int)
    ensures MinuteBlocks(Recent(a, now), limits, now) <==> MinuteBlocks(a, limits, now)
    ensures MinuteClears(Recent(a, now), limits, now) == MinuteClears(a, limits, now)
  {
    RecentOfRecent(a, now, now);
    var recent := Recent(a, now);
    assert Recent(recent, now) == recent;
    assert MinuteBlocks(recent, limits, now) <==> MinuteBlocks(a, limits, now);
  }

  lemma DecidePurged(r: Rows, limits: Limits, now: int, actual: int)
    ensures Decide(r.(attempts := Recent(r.attempts, now)), limits, now, actual) == Decide(r, limits, now, actual)
  {
    MinutePurged(r.attempts, limits, now);
  }

  lemma RetryAfterDecides(r: Rows, limits: Limits, waiting: Option<Feedback>, highWater: int, wall: int)
    requires RetryAfter(r, limits, waiting, highWater, wall).Ok?
    ensures var now := Max(highWater, wall);
            Prepared(r, limits, waiting, now).Ok?
            && RetryAfter(r, limits, waiting, highWater, wall).value
               == Decide(Prepared(r, limits, waiting, now).value, limits, now, wall).retryAfter
  {
    var now := Max(highWater, wall);
    var q1 := AdvanceDay(r.quota, now).value;
    var q := if waiting.Some? then ApplyFeedback(q1, waiting.value, now, limits.unobserved).value else q1;
    DecidePurged(Rows(q, r.attempts), limits, now, wall);
  }

  lemma OpensAtClearTime(r: Rows, limits: Limits, now: int)
    requires limits.Valid() && Sorted(r.attempts) && Prepared(r, limits, None, now).Ok?
    requires !EndUnknown(Prepared(r, limits, None, now).value.quota, now)
    ensures OpensExactlyAt(r, limits, now, ClearTime(Prepared(r, limits, None, now).value, limits, now))
  {
    var p := Prepared(r, limits, None, now).value;
    PreparedSettles(r, limits, None, now);
    forall t | now <= t
      ensures Refused(r, limits, t) <==> t < ClearTime(p, limits, now)
      ensures Granted(r, limits, t) <==> t >= ClearTime(p, limits, now)
    {
      BlockedUntilClearTime(p, limits, now, t);
      PreparedTwice(r, limits, None, now, t);
    }
  }

  /** `retry_after` with nothing waiting is exact too, even while the wall clock is behind the high-water mark. */
  lemma RetryAfterIsExact(r: Rows, limits: Limits, highWater: int, wall: int)
    requires limits.Valid() && Sorted(r.attempts)
    requires RetryAfter(r, limits, None, highWater, wall).Ok?
    requires RetryAfter(r, limits, None, highWater, wall).value.Some?
    ensures exists opens :: opens >= highWater && opens > wall
                            && OpensExactlyAt(r, limits, Max(highWater, wall), opens)
                            && RetryAfter(r, limits, None, highWater, wall).value
                               == Some(Max(1, DelaySeconds(opens, wall)))
  {
    var now := Max(highWater, wall);
    RetryAfterDecides(r, limits, None, highWater, wall);
    var p := Prepared(r, limits, None, now).value;
    OpensAtClearTime(r, limits, now);
    var opens := ClearTime(p, limits, now);
    assert opens >= now && opens > wall by {
      if wall == now {
        PreparedSettles(r, limits, None, now);
        PreparedTwice(r, limits, None, now, now);
        assert Blocked(p, limits, now);
        assert Refused(r, limits, now);
      }
    }
    assert OpensExactlyAt(r, limits, now, opens);
  }

  /** An allowance that ran out without a known window is probed at most once a minute, and no delay is promised. */
  lemma UnknownExhaustionIsPaced(r: Rows, limits: Limits, now: int, t: int)
    requires limits.Valid() && Settled(r.quota, now) && now <= t
    requires r.quota.remaining == Some(0) && r.quota.reset.None? && r.quota.cooldown.None?
    ensures var paced := r.(quota := EnsureUnknownCooldown(r.quota, now));
            if t < now + MINUTE && DayOf(t) == DayOf(now)
            then Refused(paced, limits, t) && ReserveTx(paced, limits, None, t).value.retryAfter.None?
            else if t < now + MINUTE then Refused(paced, limits, t)
            else var later := AdvanceDay(paced.quota, t).value;
                 !ProviderBlocks(later) && !CooldownBlocks(later, t)
  {
    DayMonotone(now, t);
  }

  /** A wall time from which every reservation is granted, whatever the configured limits. */
  function SurelyOpen(r: Rows, highWater: int): int {
    var t1 := if r.quota.cooldown.Some? then Max(highWater, r.quota.cooldown.value) else highWater;
    var t2 := if r.quota.reset.Some? then r.quota.reset.value else highWater;
    var t3 := if r.attempts != [] then r.attempts[|r.attempts| - 1] + MINUTE else highWater;
    Max(Max(t1, t2), Max(t3, (r.quota.day + 1) * DAY))
  }

  lemma NoPermanentLockout(r: Rows, limits: Limits, highWater: int, t: int)
    requires limits.Valid() && Sorted(r.attempts) && r.quota.Paced()
    requires t >= SurelyOpen(r, highWater)
    ensures t >= highWater && Granted(r, limits, t)
  {
    DayBoundary(r.quota.day * DAY, t);
    assert DayOf(r.quota.day * DAY) == r.quota.day;
    RecentIsSuffix(r.attempts, t);
    RecentOfRecent(r.attempts, t, t);
  }
}
