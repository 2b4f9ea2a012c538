/**
 `retry_after` while a report waits to be saved. It answers as if the report were applied now; a
 reservation applies it later, to a row whose own window or day may by then have ended. The two
 agree exactly under a condition that the row and the report show beforehand.
 */
module QuotaWaiting {
  import opened Basics
  import opened Time
  import opened QuotaSpec
  import opened QuotaDelay
  import opened QuotaEngine
  import opened QuotaTheorems

  // ---- The provider's allowance at a later time ----

  /** By `t` the row `q`, settled at `now`, no longer has a count of its own. */
  predicate CountGone(q: Quota, now: int, t: int) {
    q.remaining.None?
    || (if q.reset.Some? then q.reset.value <= t
        else DayOf(now) < DayOf(t) || (q.remaining == Some(0) && q.cooldown.Some? && q.cooldown.value <= t))
  }

  predicate HeldByRow(q: Quota, now: int, t: int) {
    q.remaining == Some(0) && !CountGone(q, now, t)
  }

  /** Applied at `t`, the report leaves nothing: it counts zero, or no more than the room a first report leaves. */
  predicate HeldByReport(q: Quota, f: Feedback, unobserved: nat, now: int, t: int) {
    f.remaining.Some? && (f.reset.None? || t < f.reset.value)
    && (f.remaining.value == 0 || (f.remaining.value <= unobserved && CountGone(q, now, t)))
  }

  predicate Held(q: Quota, f: Feedback, unobserved: nat, now: int, t: int) {
    HeldByRow(q, now, t) || HeldByReport(q, f, unobserved, now, t)
  }

  lemma AdvancedCount(q: Quota, now: int, t: int)
    requires Settled(q, now) && now <= t
    ensures AdvanceDay(q, t).Ok?
    ensures var later := AdvanceDay(q, t).value;
            && later.remaining == (if CountGone(q, now, t) then None else q.remaining)
            && later.cooldown == (if q.cooldown.Some? && q.cooldown.value > t then q.cooldown else None)
            && later.consumed == (if DayOf(now) < DayOf(t) then 0 else q.consumed)
  {
    DayMonotone(now, t);
  }

  /** What applying a report to a settled row does to what can refuse a reservation. */
  lemma Applied(q: Quota, f: Feedback, unobserved: nat, t: int)
    requires Settled(q, t) && !f.Oversized(t)
    ensures ApplyFeedback(q, f, t, unobserved).Ok?
    ensures var p := ApplyFeedback(q, f, t, unobserved).value;
            && p.remaining == (if f.Stale(t) then q.remaining else LowerRemaining(q.remaining, f.remaining, unobserved))
            && p.reset == (if f.Stale(t) then q.reset else LatestOf(q.reset, f.reset))
            && p.consumed == q.consumed
            && (p.remaining != Some(0) || p.reset.Some? ==> p.cooldown == RaiseCooldown(q, f, t).cooldown)
  {
  }

  lemma AppliedLater(q: Quota, f: Feedback, unobserved: nat, now: int, t: int)
    requires Settled(q, now) && now <= t && !f.Oversized(now)
    ensures AdvanceDay(q, t).Ok? && ApplyFeedback(AdvanceDay(q, t).value, f, t, unobserved).Ok?
    ensures var later := ApplyFeedback(AdvanceDay(q, t).value, f, t, unobserved).value;
            && (ProviderBlocks(later) <==> Held(q, f, unobserved, now, t))
            && later.consumed == (if DayOf(now) < DayOf(t) then 0 else q.consumed)
            && (!ProviderBlocks(later) ==>
                  (CooldownBlocks(later, t) <==> CooldownBlocks(q, t) || (f.cooldown.Some? && f.cooldown.value > t)))
  {
    AdvancedCount(q, now, t);
    AdvancedSettles(q, t);
    Applied(AdvanceDay(q, t).value, f, unobserved, t);
  }

  // ---- When a reservation is refused ----

  /** When everything but the provider's allowance has cleared. */
  function OthersClear(p: Rows, limits: Limits, now: int): int {
    Max(now, Max(Max(CooldownClears(p.quota, now), DayClears(p.quota, limits, now)),
                 MinuteClears(p.attempts, limits, now)))
  }

  lemma RefusedIffBlockedWith(r: Rows, limits: Limits, f: Feedback, t: int)
    requires Prepared(r, limits, Some(f), t).Ok?
    ensures RefusedWith(r, limits, Some(f), t) <==>
            var later := ApplyFeedback(AdvanceDay(r.quota, t).value, f, t, limits.unobserved).value;
            CooldownBlocks(later, t) || DayBlocks(later, limits) || ProviderBlocks(later)
            || MinuteBlocks(r.attempts, limits, t)
    ensures RefusedWith(r, limits, Some(f), t) <==> !GrantedWith(r, limits, Some(f), t)
  {
    RecentOfRecent(r.attempts, t, t);
  }

  /** The row `q` of today and the row `p` with the report applied, when a delay is stated. */
  predicate Waits(r: Rows, limits: Limits, f: Feedback, now: int, q: Quota, p: Rows) {
    AdvanceDay(r.quota, now) == Ok(q) && Prepared(r, limits, Some(f), now) == Ok(p) && !EndUnknown(p.quota, now)
  }

  lemma WaitsApplied(r: Rows, limits: Limits, f: Feedback, now: int, q: Quota, p: Rows)
    requires Waits(r, limits, f, now, q, p)
    ensures Settled(q, now) && Settled(p.quota, now) && !f.Oversized(now)
    ensures ApplyFeedback(q, f, now, limits.unobserved) == Ok(p.quota) && p.attempts == Recent(r.attempts, now)
  {
    AdvancedSettles(r.quota, now);
    AppliedSettles(q, f, now, limits.unobserved);
  }

  lemma OthersLater(q: Quota, f: Feedback, limits: Limits, now: int, p: Quota, t: int)
    requires limits.Valid() && Settled(q, now) && now <= t && !f.Oversized(now)
    requires ApplyFeedback(q, f, now, limits.unobserved) == Ok(p) && !EndUnknown(p, now)
    ensures AdvanceDay(q, t).Ok? && ApplyFeedback(AdvanceDay(q, t).value, f, t, limits.unobserved).Ok?
    ensures var later := ApplyFeedback(AdvanceDay(q, t).value, f, t, limits.unobserved).value;
            && (ProviderBlocks(later) <==> Held(q, f, limits.unobserved, now, t))
            && (DayBlocks(later, limits) <==> t < DayClears(p, limits, now))
            && (!ProviderBlocks(later) ==> (CooldownBlocks(later, t) <==> t < CooldownClears(p, now)))
  {
    Applied(q, f, limits.unobserved, now);
    AppliedLater(q, f, limits.unobserved, now, t);
    DayBoundary(now, t);
  }

  /** With the report waiting, refusals come from the other conditions until they clear, and from a held allowance. */
  lemma RefusedWhileHeld(r: Rows, limits: Limits, f: Feedback, now: int, q: Quota, p: Rows, t: int)
    requires limits.Valid() && Sorted(r.attempts) && now <= t && Waits(r, limits, f, now, q, p)
    ensures RefusedWith(r, limits, Some(f), t)
            <==> t < OthersClear(p, limits, now) || Held(q, f, limits.unobserved, now, t)
    ensures RefusedWith(r, limits, Some(f), t) <==> !GrantedWith(r, limits, Some(f), t)
  {
    WaitsApplied(r, limits, f, now, q, p);
    AdvanceTwice(r.quota, now, t);
    OthersLater(q, f, limits, now, p.quota, t);
    RefusedIffBlockedWith(r, limits, f, t);
    MinuteUntil(r.attempts, limits, now, t);
    MinutePurged(r.attempts, limits, now);
  }

  // ---- Exactness ----

  /**
   The stated opening is the end of the provider's window, but then the allowance is held no longer:
   of row and report, the one whose window ends later is not the one that holds it at zero.
   */
  predicate Overstates(q: Quota, f: Feedback, unobserved: nat, now: int, others: int, opens: int) {
    others < opens && f.reset.Some? && now < f.reset.value
    && if q.remaining == Some(0)
       then CountGone(q, now, opens - 1) && (f.remaining.None? || unobserved < f.remaining.value)
       else q.reset.Some? && f.reset.value < q.reset.value
  }

  /** The row's window or day has ended at the stated opening, and the report then holds the allowance at zero. */
  predicate Understates(q: Quota, f: Feedback, unobserved: nat, now: int, opens: int) {
    Held(q, f, unobserved, now, opens)
  }

  /** Within a provider window that is open last, a held allowance was held all along. */
  lemma HeldBefore(q: Quota, f: Feedback, unobserved: nat, now: int, t: int, u: int)
    requires Settled(q, now) && now <= t <= u && !f.Oversized(now)
    requires ApplyFeedback(q, f, now, unobserved).value.remaining == Some(0)
    requires Held(q, f, unobserved, now, u)
    ensures Held(q, f, unobserved, now, t)
  {
    Applied(q, f, unobserved, now);
    DayMonotone(t, u);
  }

  lemma OverstatesIff(q: Quota, f: Feedback, unobserved: nat, now: int, others: int, opens: int)
    requires Settled(q, now) && now <= others < opens && !f.Oversized(now)
    requires var p := ApplyFeedback(q, f, now, unobserved).value;
             p.remaining == Some(0) && p.reset == Some(opens)
    ensures Overstates(q, f, unobserved, now, others, opens) <==> !Held(q, f, unobserved, now, opens - 1)
  {
    Applied(q, f, unobserved, now);
  }

  lemma LastIsProvider(r: Rows, limits: Limits, f: Feedback, now: int, q: Quota, p: Rows)
    requires Waits(r, limits, f, now, q, p) && OthersClear(p, limits, now) < ClearTime(p, limits, now)
    ensures ProviderBlocks(p.quota) && p.quota.reset == Some(ClearTime(p, limits, now))
  {
    WaitsApplied(r, limits, f, now, q, p);
  }

  /** Up to an instant at which the allowance is still held, every reservation is refused. */
  lemma RefusedUpTo(r: Rows, limits: Limits, f: Feedback, now: int, q: Quota, p: Rows, t: int)
    requires limits.Valid() && Sorted(r.attempts) && Waits(r, limits, f, now, q, p)
    requires now <= t < ClearTime(p, limits, now)
    requires OthersClear(p, limits, now) < ClearTime(p, limits, now) ==>
               Held(q, f, limits.unobserved, now, ClearTime(p, limits, now) - 1)
    ensures RefusedWith(r, limits, Some(f), t)
  {
    RefusedWhileHeld(r, limits, f, now, q, p, t);
    if OthersClear(p, limits, now) <= t {
      WaitsApplied(r, limits, f, now, q, p);
      LastIsProvider(r, limits, f, now, q, p);
      HeldBefore(q, f, limits.unobserved, now, t, ClearTime(p, limits, now) - 1);
    }
  }

  lemma GrantedEarlier(r: Rows, limits: Limits, f: Feedback, now: int, q: Quota, p: Rows)
    requires limits.Valid() && Sorted(r.attempts) && Waits(r, limits, f, now, q, p)
    requires Overstates(q, f, limits.unobserved, now, OthersClear(p, limits, now), ClearTime(p, limits, now))
    ensures now < ClearTime(p, limits, now)
    ensures !RefusedWith(r, limits, Some(f), ClearTime(p, limits, now) - 1)
    ensures GrantedWith(r, limits, Some(f), ClearTime(p, limits, now) - 1)
  {
    var last := ClearTime(p, limits, now) - 1;
    assert !Held(q, f, limits.unobserved, now, last) by {
      WaitsApplied(r, limits, f, now, q, p);
      LastIsProvider(r, limits, f, now, q, p);
      OverstatesIff(q, f, limits.unobserved, now, OthersClear(p, limits, now), last + 1);
    }
    RefusedWhileHeld(r, limits, f, now, q, p, last);
  }

  lemma HeldUnlessOverstated(r: Rows, limits: Limits, f: Feedback, now: int, q: Quota, p: Rows)
    requires Waits(r, limits, f, now, q, p) && OthersClear(p, limits, now) < ClearTime(p, limits, now)
    requires !Overstates(q, f, limits.unobserved, now, OthersClear(p, limits, now), ClearTime(p, limits, now))
    ensures Held(q, f, limits.unobserved, now, ClearTime(p, limits, now) - 1)
  {
    WaitsApplied(r, limits, f, now, q, p);
    LastIsProvider(r, limits, f, now, q, p);
    OverstatesIff(q, f, limits.unobserved, now, OthersClear(p, limits, now), ClearTime(p, limits, now));
  }

  /** The stated opening is exact if and only if the answer neither overstates nor understates. */
  ghost predicate Exactness(r: Rows, limits: Limits, f: Feedback, now: int, q: Quota, p: Rows) {
    var opens := ClearTime(p, limits, now);
    var over := Overstates(q, f, limits.unobserved, now, OthersClear(p, limits, now), opens);
    var under := Understates(q, f, limits.unobserved, now, opens);
    && (OpensExactlyWith(r, limits, Some(f), now, opens) <==> !over && !under)
    && (over ==> opens - 1 >= now && GrantedWith(r, limits, Some(f), opens - 1))
    && (under ==> RefusedWith(r, limits, Some(f), opens))
  }

  lemma OpeningExactIff(r: Rows, limits: Limits, f: Feedback, now: int, q: Quota, p: Rows)
    requires limits.Valid() && Sorted(r.attempts) && Waits(r, limits, f, now, q, p)
    ensures Exactness(r, limits, f, now, q, p)
  {
    var opens := ClearTime(p, limits, now);
    RefusedWhileHeld(r, limits, f, now, q, p, opens);
    if Overstates(q, f, limits.unobserved, now, OthersClear(p, limits, now), opens) {
      GrantedEarlier(r, limits, f, now, q, p);
    } else {
      if OthersClear(p, limits, now) < opens { HeldUnlessOverstated(r, limits, f, now, q, p); }
      forall t | now <= t < opens ensures RefusedWith(r, limits, Some(f), t) {
        RefusedUpTo(r, limits, f, now, q, p, t);
      }
    }
  }

  /** On a row that paces exhaustion, only the report can hold the allowance at the stated opening. */
  lemma UnderstatesByReport(r: Rows, limits: Limits, f: Feedback, now: int, q: Quota, p: Rows)
    requires Waits(r, limits, f, now, q, p) && q.Paced()
    ensures Understates(q, f, limits.unobserved, now, ClearTime(p, limits, now))
            <==> HeldByReport(q, f, limits.unobserved, now, ClearTime(p, limits, now))
  {
    WaitsApplied(r, limits, f, now, q, p);
    Applied(q, f, limits.unobserved, now);
  }

  // ---- The answer of `retry_after` ----

  lemma StatedDelay(r: Rows, limits: Limits, f: Feedback, highWater: int, wall: int)
    requires limits.Valid() && Sorted(r.attempts)
    requires RetryAfter(r, limits, Some(f), highWater, wall).Ok?
    requires RetryAfter(r, limits, Some(f), highWater, wall).value.Some?
    ensures var now := Max(highWater, wall);
            AdvanceDay(r.quota, now).Ok? && Prepared(r, limits, Some(f), now).Ok?
            && var p := Prepared(r, limits, Some(f), now).value;
               Waits(r, limits, f, now, AdvanceDay(r.quota, now).value, p)
               && ClearTime(p, limits, now) >= now && ClearTime(p, limits, now) > wall
               && RetryAfter(r, limits, Some(f), highWater, wall).value
                  == Some(Max(1, DelaySeconds(ClearTime(p, limits, now), wall)))
  {
    var now := Max(highWater, wall);
    RetryAfterDecides(r, limits, Some(f), highWater, wall);
    var p := Prepared(r, limits, Some(f), now).value;
    if wall == now {
      PreparedSettles(r, limits, Some(f), now);
      PreparedTwice(r, limits, Some(f), now, now);
      assert Blocked(p, limits, now);
      assert Refused(p, limits, now);
      BlockedUntilClearTime(p, limits, now, now);
    }
  }

  /**
   With a report waiting, the stated delay is the exact wait, rounded up, if and only if it neither overstates
   nor understates; otherwise a reservation an instant before is granted, or the promised one refused.
   */
  lemma RetryAfterExactIff(r: Rows, limits: Limits, f: Feedback, highWater: int, wall: int)
    requires limits.Valid() && Sorted(r.attempts)
    requires RetryAfter(r, limits, Some(f), highWater, wall).Ok?
    requires RetryAfter(r, limits, Some(f), highWater, wall).value.Some?
    ensures var now := Max(highWater, wall);
            var q := AdvanceDay(r.quota, now).value;
            var p := Prepared(r, limits, Some(f), now).value;
            var opens := ClearTime(p, limits, now);
            && opens >= now && opens > wall
            && RetryAfter(r, limits, Some(f), highWater, wall).value == Some(Max(1, DelaySeconds(opens, wall)))
            && Exactness(r, limits, f, now, q, p)
  {
    var now := Max(highWater, wall);
    StatedDelay(r, limits, f, highWater, wall);
    OpeningExactIff(r, limits, f, now, AdvanceDay(r.quota, now).value, Prepared(r, limits, Some(f), now).value);
  }

  /**
   The reports that keep the answer exact on every row they fit: one with neither a count nor a reset, one of
   the window the row already knows, and the first one a row without count and window is told.
   */
  lemma UsualReportsAreExact(r: Rows, limits: Limits, f: Feedback, highWater: int, wall: int)
    requires limits.Valid() && Sorted(r.attempts)
    requires RetryAfter(r, limits, Some(f), highWater, wall).Ok?
    requires RetryAfter(r, limits, Some(f), highWater, wall).value.Some?
    requires var q := AdvanceDay(r.quota, Max(highWater, wall)).value;
             || (f.remaining.None? && f.reset.None?)
             || (f.reset.Some? && f.reset == q.reset)
             || (q.remaining.None? && q.reset.None?)
    ensures exists opens :: opens >= highWater && opens > wall
                            && OpensExactlyWith(r, limits, Some(f), Max(highWater, wall), opens)
                            && RetryAfter(r, limits, Some(f), highWater, wall).value
                               == Some(Max(1, DelaySeconds(opens, wall)))
  {
    var now := Max(highWater, wall);
    StatedDelay(r, limits, f, highWater, wall);
    RetryAfterExactIff(r, limits, f, highWater, wall);
    var q := AdvanceDay(r.quota, now).value;
    var p := Prepared(r, limits, Some(f), now).value;
    UsualReportsFit(r, limits, f, now, q, p);
    var opens := ClearTime(p, limits, now);
    assert OpensExactlyWith(r, limits, Some(f), now, opens);
  }

  lemma UsualReportsFit(r: Rows, limits: Limits, f: Feedback, now: int, q: Quota, p: Rows)
    requires Waits(r, limits, f, now, q, p)
    requires || (f.remaining.None? && f.reset.None?)
             || (f.reset.Some? && f.reset == q.reset)
             || (q.remaining.None? && q.reset.None?)
    ensures var opens := ClearTime(p, limits, now);
            !Overstates(q, f, limits.unobserved, now, OthersClear(p, limits, now), opens)
            && !Understates(q, f, limits.unobserved, now, opens)
  {
    WaitsApplied(r, limits, f, now, q, p);
    Applied(q, f, limits.unobserved, now);
  }

  /** Once the report is saved, or a refused reservation has applied it, the stated delay is exact without condition. */
  lemma ExactOnceApplied(r: Rows, limits: Limits, f: Feedback, highWater: int, wall: int)
    requires limits.Valid() && Sorted(r.attempts)
    requires RetryAfter(r, limits, Some(f), highWater, wall).Ok?
    requires RetryAfter(r, limits, Some(f), highWater, wall).value.Some?
    ensures var now := Max(highWater, wall);
            var p := Prepared(r, limits, Some(f), now).value;
            var opens := ClearTime(p, limits, now);
            OpensExactlyAt(p, limits, now, opens)
            && RetryAfter(r, limits, Some(f), highWater, wall).value == Some(Max(1, DelaySeconds(opens, wall)))
  {
    var now := Max(highWater, wall);
    StatedDelay(r, limits, f, highWater, wall);
    PreparedSettles(r, limits, Some(f), now);
    var p := Prepared(r, limits, Some(f), now).value;
    forall t | now <= t
      ensures Refused(p, limits, t) <==> t < ClearTime(p, limits, now)
      ensures Granted(p, limits, t) <==> t >= ClearTime(p, limits, now)
    {
      BlockedUntilClearTime(p, limits, now, t);
    }
  }

  lemma AdvancePaces(q: Quota, now: int)
    requires q.Paced() && AdvanceDay(q, now).Ok?
    ensures AdvanceDay(q, now).value.Paced()
  {
  }

  /** In every reachable state of the engine, with its waiting report; there only the report can understate. */
  lemma EngineRetryAfterExactIff(start: int, limits: PerProvider<Limits>, events: seq<Event>, p: ProviderId, wall: int)
    requires ValidRun(limits, events)
    requires var s := Run(Initial(start, limits), events);
             var g := s.groups.Get(p);
             g.pending.Some?
             && var answer := RetryAfter(g.rows, g.limits, Waiting(g.pending), s.highWater, wall);
                answer.Ok? && answer.value.Some?
    ensures var s := Run(Initial(start, limits), events);
            var g := s.groups.Get(p);
            var f := g.pending.value.feedback;
            var now := Max(s.highWater, wall);
            var q := AdvanceDay(g.rows.quota, now).value;
            var row := Prepared(g.rows, g.limits, Some(f), now).value;
            var opens := ClearTime(row, g.limits, now);
            && RetryAfter(g.rows, g.limits, Some(f), s.highWater, wall).value == Some(Max(1, DelaySeconds(opens, wall)))
            && Exactness(g.rows, g.limits, f, now, q, row)
            && (Understates(q, f, g.limits.unobserved, now, opens)
                <==> HeldByReport(q, f, g.limits.unobserved, now, opens))
  {
    RunKeepsAccount(start, limits, events);
    var s := Run(Initial(start, limits), events);
    var g := s.groups.Get(p);
    var f := g.pending.value.feedback;
    var now := Max(s.highWater, wall);
    assert DurableInv(g, s.durableHighWater);
    RetryAfterExactIff(g.rows, g.limits, f, s.highWater, wall);
    StatedDelay(g.rows, g.limits, f, s.highWater, wall);
    AdvancePaces(g.rows.quota, now);
    UnderstatesByReport(g.rows, g.limits, f, now, AdvanceDay(g.rows.quota, now).value,
                        Prepared(g.rows, g.limits, Some(f), now).value);
  }

  // ---- Both failures occur ----

  /** The row's exhausted window ends in 10 s, the report's in 20 s: the answer is 20 s, yet 10 s on is granted. */
  lemma CanOverstate()
    ensures var limits := Limits(0, 10, 0);
            var r := Rows(Quota(0, 0, None, false, Some(0), Some(10_000)), []);
            var f := Feedback(None, false, Some(5), Some(20_000));
            RetryAfter(r, limits, Some(f), 0, 0) == Ok(Some(20)) && GrantedWith(r, limits, Some(f), 10_000)
            && Overstates(r.quota, f, limits.unobserved, 0, 0, 20_000)
  {
  }

  /** A report of zero without a window outlives the row's window: the answer is 10 s, and then no end is known. */
  lemma CanUnderstate()
    ensures var limits := Limits(0, 10, 0);
            var r := Rows(Quota(0, 0, None, false, Some(0), Some(10_000)), []);
            var f := Feedback(None, false, Some(0), None);
            RetryAfter(r, limits, Some(f), 0, 0) == Ok(Some(10))
            && RefusedWith(r, limits, Some(f), 10_000)
            && ReserveTx(r, limits, Some(f), 10_000).value.retryAfter.None?
            && Understates(r.quota, f, limits.unobserved, 0, 10_000)
  {
  }

  /** The new day drops the row's count, and the report's is then taken for a first one with no room left. */
  lemma CanUnderstateAcrossDays()
    ensures var limits := Limits(0, 1, 3);
            var r := Rows(Quota(0, 1, None, false, Some(5), None), []);
            var f := Feedback(None, false, Some(3), None);
            RetryAfter(r, limits, Some(f), 0, 0) == Ok(Some(86_400)) && RefusedWith(r, limits, Some(f), DAY)
            && Understates(r.quota, f, limits.unobserved, 0, DAY)
  {
  }
}
