/** What the quota engine guarantees over every run from a newly created database. */
module QuotaTheorems {
  import opened Basics
  import opened Time
  import opened QuotaSpec
  import opened FeedbackAlgebra
  import opened QuotaDelay
  import opened QuotaEngine
  import opened QuotaInvariant

  ghost predicate ValidRun(limits: PerProvider<Limits>, events: seq<Event>) {
    (forall p :: limits.Get(p).Valid()) && forall i :: 0 <= i < |events| ==> Legal(events[i])
  }

  lemma {:induction false} RunKeepsAccount(wall: int, limits: PerProvider<Limits>, events: seq<Event>)
    requires ValidRun(limits, events)
    ensures AccountInv(Run(Initial(wall, limits), events))
  {
    if events == [] {
      forall p ensures DurableInv(Initial(wall, limits).groups.Get(p), wall) {
        assert Initial(wall, limits).groups.Get(p) == FreshGroup(wall, limits.Get(p));
      }
    } else {
      var n := |events| - 1;
      RunKeepsAccount(wall, limits, events[..n]);
      StepKeepsAccount(Run(Initial(wall, limits), events[..n]), events[n]);
    }
  }

  // ---- Caps ----

  /**
   Whatever the clock, the commits, the crashes and the configurations did: each reservation was
   within the minute cap and the day cap in force when it was granted.
   */
  lemma CapsHoldInEveryRun(wall: int, limits: PerProvider<Limits>, events: seq<Event>, p: ProviderId, i: int)
    requires ValidRun(limits, events)
    requires 0 <= i < |Run(Initial(wall, limits), events).groups.Get(p).grants|
    ensures var grants := Run(Initial(wall, limits), events).groups.Get(p).grants;
            WithinMinute(grants, i) && WithinDay(grants, i)
  {
    RunKeepsAccount(wall, limits, events);
    var g := Run(Initial(wall, limits), events).groups.Get(p);
    assert DurableInv(g, Run(Initial(wall, limits), events).durableHighWater);
  }

  /** Under caps of at most `cap` throughout, no sixty seconds contain more than `cap` reservations. */
  lemma NoWindowOverfull(grants: seq<Grant>, highWater: int, cap: nat, k: int, t: int)
    requires GrantsOrdered(grants, highWater) && CapsRespected(grants)
    requires forall i :: 0 <= i < |grants| ==> 0 < grants[i].minuteCap <= cap
    requires 0 <= k <= |grants| && forall i :: 0 <= i < k ==> grants[i].time <= t
    ensures |Recent(Times(grants[..k]), t)| <= cap
  {
    if k > 0 {
      assert WithinMinute(grants, k - 1);
      var times := Times(grants[..k]);
      RecentOfRecent(times, grants[k - 1].time, t);
      RecentShrinks(Recent(times, grants[k - 1].time), t);
    }
  }

  lemma {:induction false} RecentShrinks(a: seq<int>, now: int)
    ensures |Recent(a, now)| <= |a|
  {
    if a != [] {
      RecentShrinks(a[1..], now);
    }
  }

  lemma EffectKeepsGrants(t: Txn, g: Group)
    requires t.Active? && Effect(t, g).Some?
    ensures g.grants <= Effect(t, g).value.0.grants
  {
  }

  lemma StepKeepsGrants(s: Engine, e: Event, p: ProviderId)
    ensures s.groups.Get(p).grants <= Exec(s, e).groups.Get(p).grants
  {
    if s.txn.Active? && Effect(s.txn, s.groups.Get(s.txn.group)).Some? {
      EffectKeepsGrants(s.txn, s.groups.Get(s.txn.group));
    }
  }

  /** Committed reservations are never taken back, by any later event. */
  lemma {:induction false} ReservationsAreFinal(s: Engine, events: seq<Event>, p: ProviderId)
    ensures s.groups.Get(p).grants <= Run(s, events).groups.Get(p).grants
  {
    if events != [] {
      var n := |events| - 1;
      ReservationsAreFinal(s, events[..n], p);
      var before := Run(s, events[..n]);
      StepKeepsGrants(before, events[n], p);
    }
  }

  /** Every Ok ever returned stands for its own committed reservation. */
  lemma DispatchesAreDistinctReservations(wall: int, limits: PerProvider<Limits>, events: seq<Event>, p: ProviderId)
    requires ValidRun(limits, events)
    ensures DispatchedOnce(Run(Initial(wall, limits), events).groups.Get(p))
  {
    RunKeepsAccount(wall, limits, events);
    var s := Run(Initial(wall, limits), events);
    assert DurableInv(s.groups.Get(p), s.durableHighWater);
  }

  // ---- Errors that cannot happen ----

  /** In a running engine the stored day is never ahead of the clock a transaction uses. */
  lemma BackwardDayUnreachable(wall: int, limits: PerProvider<Limits>, events: seq<Event>, p: ProviderId, now: int)
    requires ValidRun(limits, events)
    requires now >= Run(Initial(wall, limits), events).highWater
    ensures var g := Run(Initial(wall, limits), events).groups.Get(p);
            AdvanceDay(g.rows.quota, now).Ok?
            && (forall w: Option<Feedback> :: ReserveTx(g.rows, g.limits, w, now).Err?
                                              <==> w.Some? && w.value.Oversized(now))
  {
    RunKeepsAccount(wall, limits, events);
    var s := Run(Initial(wall, limits), events);
    var g := s.groups.Get(p);
    assert DurableInv(g, s.durableHighWater);
    DayMonotone(s.durableHighWater, now);
    forall w: Option<Feedback> ensures ReserveTx(g.rows, g.limits, w, now).Err? <==> w.Some? && w.value.Oversized(now) {
      ReserveTxError(g.rows, g.limits, w, now);
    }
  }

  // ---- Feedback ----

  /** The process never submits 2^64 reports. */
  ghost predicate NoWrap(s: Engine, events: seq<Event>) {
    forall k :: 0 <= k <= |events| ==> Run(s, events[..k]).submissions < TWO_64
  }

  lemma {:induction false} RunKeepsRetention(wall: int, limits: PerProvider<Limits>, events: seq<Event>)
    requires ValidRun(limits, events) && NoWrap(Initial(wall, limits), events)
    ensures RetentionInv(Run(Initial(wall, limits), events))
  {
    var s0 := Initial(wall, limits);
    if events != [] {
      var n := |events| - 1;
      forall k | 0 <= k <= n ensures Run(s0, events[..n][..k]).submissions < TWO_64 {
        assert events[..n][..k] == events[..k];
      }
      RunKeepsRetention(wall, limits, events[..n]);
      RunKeepsAccount(wall, limits, events[..n]);
      StepKeepsRetention(Run(s0, events[..n]), events[n]);
    }
  }

  /** A cooldown submitted to this process and still ahead is in the row or waiting to be. */
  lemma FeedbackIsNeverLost(wall: int, limits: PerProvider<Limits>, events: seq<Event>, p: ProviderId, i: int)
    requires ValidRun(limits, events) && NoWrap(Initial(wall, limits), events)
    requires var g := Run(Initial(wall, limits), events).groups.Get(p);
             0 <= i < |g.submitted| && g.submitted[i].cooldown.Some?
    ensures var s := Run(Initial(wall, limits), events);
            var g := s.groups.Get(p);
            Covered(g.submitted[i].cooldown.value, s.highWater, g.rows.quota, Waiting(g.pending))
  {
    RunKeepsRetention(wall, limits, events);
    var s := Run(Initial(wall, limits), events);
    assert FeedbackInv(s.groups.Get(p), s.highWater, s.submissions);
  }

  lemma FinishRespectsCooldowns(s: Engine, late: bool, p: ProviderId)
    requires AccountInv(s) && RetentionInv(s) && s.txn.Active? && s.txn.stage.Cleared?
    requires FinishTxn(s, late).groups.Get(p).dispatched != s.groups.Get(p).dispatched
    ensures var g := s.groups.Get(p);
            |g.grants| > 0
            && forall i :: 0 <= i < |g.submitted| && g.submitted[i].cooldown.Some? ==>
                 g.submitted[i].cooldown.value <= g.grants[|g.grants| - 1].time
  {
    assert s.txn.group == p;
    assert s.groups.Get(p).pending.None?;
  }

  lemma OnlyFinishDispatches(s: Engine, late: bool, p: ProviderId)
    requires Exec(s, Finish(late)).groups.Get(p).dispatched != s.groups.Get(p).dispatched
    ensures s.txn.Active? && s.txn.stage.Cleared? && Exec(s, Finish(late)) == FinishTxn(s, late)
  {
  }

  /** A reservation reported Ok is not before any cooldown submitted up to its final check. */
  lemma DispatchRespectsCooldowns(wall: int, limits: PerProvider<Limits>, events: seq<Event>, late: bool, p: ProviderId)
    requires ValidRun(limits, events) && NoWrap(Initial(wall, limits), events)
    requires var s := Run(Initial(wall, limits), events);
             Exec(s, Finish(late)).groups.Get(p).dispatched != s.groups.Get(p).dispatched
    ensures var g := Run(Initial(wall, limits), events).groups.Get(p);
            |g.grants| > 0
            && forall i :: 0 <= i < |g.submitted| && g.submitted[i].cooldown.Some? ==>
                 g.submitted[i].cooldown.value <= g.grants[|g.grants| - 1].time
  {
    RunKeepsRetention(wall, limits, events);
    RunKeepsAccount(wall, limits, events);
    var s := Run(Initial(wall, limits), events);
    OnlyFinishDispatches(s, late, p);
    FinishRespectsCooldowns(s, late, p);
  }

  /** A wrapped generation makes the clear drop a report it did not save, exactly after a multiple of 2^64. */
  lemma ClearDropsUnsavedIff(g: Group, saved: Pending)
    requires g.pending.Some? && g.pending.value.generation > saved.generation
    ensures ClearPending(g, Some(saved)).pending.None? <==>
            (g.pending.value.generation - saved.generation) % TWO_64 == 0
  {
    var a, b := g.pending.value.generation, saved.generation;
    var k := a / TWO_64 - b / TWO_64;
    assert a - b == k * TWO_64 + (a % TWO_64 - b % TWO_64);
    if a % TWO_64 == b % TWO_64 {
      assert (k * TWO_64) % TWO_64 == 0;
    }
  }

  const EMPTY_REPORT := Feedback(None, false, None, None)

  function EmptyReports(p: ProviderId, n: nat): seq<Event> {
    seq(n, _ => Submit(p, EMPTY_REPORT))
  }

  /** Empty reports change nothing but the generation of what is waiting. */
  lemma {:induction false} EmptyReportsOnlyCount(s: Engine, p: ProviderId, n: nat)
    requires s.groups.Get(p).pending.Some? && s.groups.Get(p).pending.value.feedback.WellFormed()
    ensures var t := Run(s, EmptyReports(p, n));
            && t.txn == s.txn && t.highWater == s.highWater && t.submissions == s.submissions + n
            && t.groups.Get(p).rows == s.groups.Get(p).rows
            && s.groups.Get(p).submitted <= t.groups.Get(p).submitted
            && t.groups.Get(p).pending.Some?
            && t.groups.Get(p).pending.value.feedback == s.groups.Get(p).pending.value.feedback
            && (n > 0 ==> t.groups.Get(p).pending.value.generation == s.submissions + n)
  {
    if n > 0 {
      assert EmptyReports(p, n)[..n - 1] == EmptyReports(p, n - 1);
      EmptyReportsOnlyCount(s, p, n - 1);
    }
  }

  /** A save is committed, then 2^64 reports arrive, the first naming a cooldown, before the save clears its report. */
  function WrapState(): Engine {
    var limits := PerProvider(Limits(0, 1, 0), Limits(0, 1, 0));
    var saving := Exec(Exec(Exec(Initial(0, limits), Submit(Virustotal, Feedback(Some(10), false, None, None))),
                            BeginSave(Virustotal, 0)), Commit(true));
    var named := Exec(saving, Submit(Virustotal, Feedback(Some(99), false, None, None)));
    Exec(Run(named, EmptyReports(Virustotal, TWO_64 - 1)), Clear)
  }

  /** That run loses the cooldown: the bound on the number of reports is needed. */
  lemma WrapLosesFeedback()
    ensures var s := WrapState();
            var g := s.groups.Get(Virustotal);
            Feedback(Some(99), false, None, None) in g.submitted
            && !Covered(99, s.highWater, g.rows.quota, Waiting(g.pending))
  {
    var limits := PerProvider(Limits(0, 1, 0), Limits(0, 1, 0));
    var cool := Feedback(Some(10), false, None, None);
    var late := Feedback(Some(99), false, None, None);
    var s1 := Exec(Initial(0, limits), Submit(Virustotal, cool));
    var s2 := Exec(s1, BeginSave(Virustotal, 0));
    assert s2.txn == Active(Saving, Virustotal, 0, Some(Pending(1, cool)), 1, 1, Staged);
    var s3 := Exec(s2, Commit(true));
    assert s3.groups.Get(Virustotal).rows.quota.cooldown == Some(10);
    var s4 := Exec(s3, Submit(Virustotal, late));
    assert s4.groups.Get(Virustotal).pending == Some(Pending(2, late)) && s4.submissions == 2;
    assert s4.groups.Get(Virustotal).submitted == [cool, late];
    EmptyReportsOnlyCount(s4, Virustotal, TWO_64 - 1);
    var s5 := Run(s4, EmptyReports(Virustotal, TWO_64 - 1));
    assert SameGeneration(1 + TWO_64, 1);
    assert s5.groups.Get(Virustotal).submitted[1] == late;
  }

  // ---- The provider window ----

  /** While a reported window is open, the local remaining allowance never rises and the window never shortens. */
  ghost predicate WindowHeld(a: Quota, b: Quota) {
    a.reset.Some? && b.reset.Some? && a.reset.value <= b.reset.value && NoMore(b.remaining, a.remaining)
  }

  lemma RowChangesHoldWindow(q: Quota, f: Feedback, now: int, unobserved: nat)
    requires q.reset.Some? && now < q.reset.value
    ensures AdvanceDay(q, now).Ok? ==> WindowHeld(q, AdvanceDay(q, now).value)
    ensures ApplyFeedback(q, f, now, unobserved).Ok? ==> WindowHeld(q, ApplyFeedback(q, f, now, unobserved).value)
  {
  }

  lemma EffectHoldsWindow(t: Txn, g: Group)
    requires t.Active? && Effect(t, g).Some? && g.rows.quota.reset.Some? && t.now < g.rows.quota.reset.value
    ensures WindowHeld(g.rows.quota, Effect(t, g).value.0.rows.quota)
  {
    var f := if t.saved.Some? then t.saved.value.feedback else Feedback(None, false, None, None);
    match t.kind
    case Reserving =>
      RowChangesHoldWindow(g.rows.quota, f, t.now, g.limits.unobserved);
      RowChangesHoldWindow(AdvanceDay(g.rows.quota, t.now).value, f, t.now, g.limits.unobserved);
      var p := Prepared(g.rows, g.limits, Waiting(t.saved), t.now).value;
      assert WindowHeld(g.rows.quota, p.quota);
      assert WindowHeld(p.quota, Spend(p, g.limits, t.now).quota);
    case Saving =>
      RowChangesHoldWindow(g.rows.quota, f, t.now, g.limits.unobserved);
  }

  lemma StepHoldsWindow(s: Engine, e: Event, p: ProviderId)
    requires s.groups.Get(p).rows.quota.reset.Some?
    requires Exec(s, e).durableHighWater < s.groups.Get(p).rows.quota.reset.value
    ensures WindowHeld(s.groups.Get(p).rows.quota, Exec(s, e).groups.Get(p).rows.quota)
  {
    if s.txn.Active? && s.txn.group == p && Effect(s.txn, s.groups.Get(p)).Some? {
      if s.txn.now < s.groups.Get(p).rows.quota.reset.value {
        EffectHoldsWindow(s.txn, s.groups.Get(p));
      }
    }
  }

  lemma StepRaisesHighWater(s: Engine, e: Event)
    ensures s.durableHighWater <= Exec(s, e).durableHighWater
  {
  }

  lemma {:induction false} RunHoldsWindow(s: Engine, events: seq<Event>, p: ProviderId)
    requires s.groups.Get(p).rows.quota.reset.Some?
    requires Run(s, events).durableHighWater < s.groups.Get(p).rows.quota.reset.value
    ensures WindowHeld(s.groups.Get(p).rows.quota, Run(s, events).groups.Get(p).rows.quota)
  {
    if events != [] {
      var n := |events| - 1;
      StepRaisesHighWater(Run(s, events[..n]), events[n]);
      RunHoldsWindow(s, events[..n], p);
      StepHoldsWindow(Run(s, events[..n]), events[n], p);
    }
  }

  // ---- Waiting ----

  /** The delay a running engine states is exact. */
  lemma EngineDelayIsExact(wall: int, limits: PerProvider<Limits>, events: seq<Event>)
    requires ValidRun(limits, events)
    requires var s := Run(Initial(wall, limits), events);
             s.txn.Active? && s.txn.kind == Reserving && s.txn.stage.Staged?
             && var g := s.groups.Get(s.txn.group);
                var res := ReserveTx(g.rows, g.limits, Waiting(s.txn.saved), s.txn.now);
                res.Ok? && res.value.retryAfter.Some?
    ensures var s := Run(Initial(wall, limits), events);
            var g := s.groups.Get(s.txn.group);
            var res := ReserveTx(g.rows, g.limits, Waiting(s.txn.saved), s.txn.now).value;
            exists opens :: opens > s.txn.now
                            && OpensExactlyAt(res.rows, g.limits, s.txn.now, opens)
                            && res.retryAfter == Some(Max(1, DelaySeconds(opens, s.txn.now)))
  {
    RunKeepsAccount(wall, limits, events);
    var s := Run(Initial(wall, limits), events);
    var g := s.groups.Get(s.txn.group);
    assert DurableInv(g, s.durableHighWater);
    ReserveDelayIsExact(g.rows, g.limits, Waiting(s.txn.saved), s.txn.now);
  }

  function ReserveEvents(p: ProviderId, wall: int): seq<Event> {
    [BeginReserve(p, wall), Commit(true), Clear, Finish(false)]
  }

  lemma RunOfAppend(s: Engine, events: seq<Event>, e: Event)
    ensures Run(s, events + [e]) == Exec(Run(s, events), e)
  {
    assert (events + [e])[..|events|] == events;
  }

  lemma FourSteps(s: Engine, a: Event, b: Event, c: Event, d: Event)
    ensures Run(s, [a, b, c, d]) == Exec(Exec(Exec(Exec(s, a), b), c), d)
  {
    var one, two, three := [a], [a, b], [a, b, c];
    assert one == [] + [a] && two == one + [b] && three == two + [c] && [a, b, c, d] == three + [d];
    RunOfAppend(s, [], a);
    RunOfAppend(s, one, b);
    RunOfAppend(s, two, c);
    RunOfAppend(s, three, d);
  }

  /** The four steps of an uncontended call that opens a transaction on the group's waiting report. */
  lemma FourStepsEffect(s: Engine, kind: Kind, p: ProviderId, wall: int)
    requires s.txn.Idle? && Begin(s, kind, p, wall).txn.Active?
    requires Effect(Begin(s, kind, p, wall).txn, s.groups.Get(p)).Some?
    ensures var begun := Begin(s, kind, p, wall);
            var (h, granted) := Effect(begun.txn, s.groups.Get(p)).value;
            var after := Exec(Exec(Exec(begun, Commit(true)), Clear), Finish(false));
            && after.txn.Idle? && after.highWater == begun.highWater
            && after.durableHighWater == Max(s.durableHighWater, begun.txn.now)
            && (forall q :: q != p ==> after.groups.Get(q) == s.groups.Get(q))
            && after.groups.Get(p)
               == h.(pending := None,
                     dispatched := if kind == Reserving && granted then h.dispatched + [|h.grants| - 1] else h.dispatched)
  {
    var begun := Begin(s, kind, p, wall);
    var (h, granted) := Effect(begun.txn, s.groups.Get(p)).value;
    EffectKeepsPending(begun.txn, s.groups.Get(p));
    CommitFates(begun, true);
    var s2 := Exec(begun, Commit(true));
    ClearAndFinish(s2, granted);
  }

  lemma EffectKeepsPending(t: Txn, g: Group)
    requires t.Active? && Effect(t, g).Some?
    ensures Effect(t, g).value.0.pending == g.pending && (t.kind == Saving ==> !Effect(t, g).value.1)
  {
  }

  /** A transaction that can commit becomes durable whole, reported or not; one that cannot leaves no trace. */
  lemma CommitFates(s: Engine, reported: bool)
    requires s.txn.Active? && s.txn.stage.Staged?
    ensures match Effect(s.txn, s.groups.Get(s.txn.group))
            case None => Exec(s, Commit(reported)) == s.(txn := Idle)
            case Some((h, granted)) =>
              Exec(s, Commit(reported))
              == s.(txn := if reported then s.txn.(stage := Committed(granted)) else Idle,
                    groups := s.groups.Set(s.txn.group, h),
                    durableHighWater := Max(s.durableHighWater, s.txn.now))
  {
  }

  /** The check after a commit dispatches a granted reservation exactly in time and with nothing waiting. */
  lemma FinishDispatchesIff(s: Engine, late: bool, p: ProviderId)
    requires s.txn.Active? && s.txn.stage.Cleared?
    ensures var t := Exec(s, Finish(late));
            var g := s.groups.Get(p);
            && t.txn.Idle? && t.durableHighWater == s.durableHighWater && t.highWater == s.highWater
            && t.groups.Get(p)
               == if s.txn.group == p && s.txn.kind == Reserving && s.txn.stage.granted && g.pending.None? && !late
                  then g.(dispatched := g.dispatched + [|g.grants| - 1]) else g
  {
  }

  /** With nothing new waiting since the snapshot, the clear empties the slot and the check passes what was granted. */
  lemma ClearAndFinish(s: Engine, granted: bool)
    requires s.txn.Active? && s.txn.stage == Committed(granted) && s.groups.Get(s.txn.group).pending == s.txn.saved
    ensures var g := s.groups.Get(s.txn.group);
            var dispatches := s.txn.kind == Reserving && granted;
            Exec(Exec(s, Clear), Finish(false))
            == s.(txn := Idle,
                  groups := s.groups.Set(s.txn.group,
                    g.(pending := None, dispatched := if dispatches then g.dispatched + [|g.grants| - 1] else g.dispatched)))
  {
    var g := s.groups.Get(s.txn.group);
    assert ClearPending(g, s.txn.saved) == g.(pending := None);
    SetTwice(s.groups, s.txn.group, g.(pending := None));
  }

  lemma SetTwice(groups: PerProvider<Group>, p: ProviderId, g: Group)
    ensures forall h :: groups.Set(p, g).Set(p, h) == groups.Set(p, h)
  {
  }

  /** An uncontended reservation: what it commits, and that it is reported Ok exactly when it was granted. */
  lemma ReservationRuns(s: Engine, p: ProviderId, t: int)
    requires s.txn.Idle? && t >= s.highWater
    requires ReserveTx(s.groups.Get(p).rows, s.groups.Get(p).limits, Waiting(s.groups.Get(p).pending), t).Ok?
    ensures var g := s.groups.Get(p);
            var res := ReserveTx(g.rows, g.limits, Waiting(g.pending), t).value;
            var after := Exec(Exec(Exec(Exec(s, BeginReserve(p, t)), Commit(true)), Clear), Finish(false));
            && after.txn.Idle? && after.highWater == t
            && var h := after.groups.Get(p);
               && h.rows == res.rows && h.pending.None? && h.limits == g.limits && h.submitted == g.submitted
               && h.grants == g.grants + (if res.granted then [Grant(t, g.limits.minute, g.limits.day)] else [])
               && h.dispatched == g.dispatched + (if res.granted then [|g.grants|] else [])
  {
    var g := s.groups.Get(p);
    var begun := Begin(s, Reserving, p, t);
    assert begun.txn == Active(Reserving, p, t, g.pending, |g.submitted|, s.submissions, Staged);
    FourStepsEffect(s, Reserving, p, t);
    assert g.grants + [] == g.grants && g.dispatched + [] == g.dispatched;
  }

  /** While the wall clock is behind the high-water mark nothing is committed and nothing dispatched. */
  lemma BehindTheMarkNothingRuns(s: Engine, p: ProviderId, t: int)
    requires s.txn.Idle? && t < s.highWater
    ensures Exec(Exec(Exec(Exec(s, BeginReserve(p, t)), Commit(true)), Clear), Finish(false)) == s
  {
  }

  /** An uncontended save puts the waiting report into the row, leaves nothing waiting, and outlives a restart. */
  lemma SavedReportIsDurable(s: Engine, p: ProviderId, wall: int, later: int, limits: PerProvider<Limits>, landed: bool)
    requires s.txn.Idle? && s.groups.Get(p).pending.Some?
    requires SaveTx(s.groups.Get(p).rows, s.groups.Get(p).limits, s.groups.Get(p).pending.value.feedback,
                    Max(s.highWater, wall)).Ok?
    ensures var g := s.groups.Get(p);
            var saved := SaveTx(g.rows, g.limits, g.pending.value.feedback, Max(s.highWater, wall)).value;
            var after := Exec(Exec(Exec(Exec(s, BeginSave(p, wall)), Commit(true)), Clear), Finish(false));
            && after.groups.Get(p) == g.(rows := saved, pending := None)
            && after.durableHighWater >= Max(s.highWater, wall)
            && Exec(after, Restart(later, limits, landed)).groups.Get(p).rows == saved
  {
    FourStepsEffect(s, Saving, p, wall);
  }

  /** From every reachable idle state with nothing waiting, a reservation at any late enough time goes through. */
  lemma EngineNeverLocksOut(wall: int, limits: PerProvider<Limits>, events: seq<Event>, p: ProviderId, t: int)
    requires ValidRun(limits, events)
    requires var s := Run(Initial(wall, limits), events);
             s.txn.Idle? && s.groups.Get(p).pending.None? && t >= SurelyOpen(s.groups.Get(p).rows, s.highWater)
    ensures var s := Run(Initial(wall, limits), events);
            var after := Run(s, ReserveEvents(p, t)).groups.Get(p);
            after.grants == s.groups.Get(p).grants + [Grant(t, after.limits.minute, after.limits.day)]
            && after.dispatched == s.groups.Get(p).dispatched + [|s.groups.Get(p).grants|]
  {
    RunKeepsAccount(wall, limits, events);
    var s := Run(Initial(wall, limits), events);
    var g := s.groups.Get(p);
    assert DurableInv(g, s.durableHighWater);
    NoPermanentLockout(g.rows, g.limits, s.highWater, t);
    FourSteps(s, BeginReserve(p, t), Commit(true), Clear, Finish(false));
    ReservationRuns(s, p, t);
  }

  /**
   A restart keeps what is durable, the open transaction's writes included if they landed, drops what waits, takes
   the new limits, and starts the clock at the mark or the wall, whichever is later.
   */
  lemma RestartKeepsDurable(s: Engine, wall: int, limits: PerProvider<Limits>, landed: bool, p: ProviderId)
    ensures var t := Exec(s, Restart(wall, limits, landed));
            var g, h := s.groups.Get(p), t.groups.Get(p);
            && t.txn.Idle? && t.submissions == 0
            && t.highWater >= wall && t.highWater >= t.durableHighWater >= s.durableHighWater
            && (t.highWater == wall || t.highWater == t.durableHighWater)
            && h.pending.None? && h.submitted == [] && h.limits == limits.Get(p) && h.dispatched == g.dispatched
            && if landed && s.txn.Active? && s.txn.group == p && s.txn.stage.Staged? && Effect(s.txn, g).Some?
               then h.rows == Effect(s.txn, g).value.0.rows && h.grants == Effect(s.txn, g).value.0.grants
               else h.rows == g.rows && h.grants == g.grants
  {
    if s.txn.Active? && Effect(s.txn, s.groups.Get(s.txn.group)).Some? {
      EffectKeepsDispatched(s.txn, s.groups.Get(s.txn.group));
    }
  }

  lemma EffectKeepsDispatched(t: Txn, g: Group)
    requires t.Active? && Effect(t, g).Some?
    ensures Effect(t, g).value.0.dispatched == g.dispatched
  {
  }

  /** While a transaction is open no other begins, and the clock mark stays where the transaction reads it. */
  lemma OneTransactionAtATime(s: Engine, p: ProviderId, wall: int)
    requires s.txn.Active?
    ensures Exec(s, BeginReserve(p, wall)) == s && Exec(s, BeginSave(p, wall)) == s && Exec(s, Observe(wall)) == s
  {
  }

  /** The clock mark of an idle process follows the wall clock up, and never down. */
  lemma ObservedClock(s: Engine, wall: int)
    requires s.txn.Idle?
    ensures Exec(s, Observe(wall)) == s.(highWater := if wall > s.highWater then wall else s.highWater)
  {
  }

  lemma FourMore(s: Engine, events: seq<Event>, a: Event, b: Event, c: Event, d: Event)
    ensures Run(s, events + [a, b, c, d]) == Exec(Exec(Exec(Exec(Run(s, events), a), b), c), d)
  {
    var one, two, three := events + [a], events + [a, b], events + [a, b, c];
    assert two == one + [b] && three == two + [c] && events + [a, b, c, d] == three + [d];
    RunOfAppend(s, events, a);
    RunOfAppend(s, one, b);
    RunOfAppend(s, two, c);
    RunOfAppend(s, three, d);
  }

  /**
   Nor with a report waiting: one reservation, whatever comes of it, puts the report into the row, and from then
   on any late enough one goes through.
   */
  lemma WaitingNeverLocksOut(wall: int, limits: PerProvider<Limits>, events: seq<Event>, p: ProviderId, t0: int, t: int)
    requires ValidRun(limits, events)
    requires var s := Run(Initial(wall, limits), events);
             s.txn.Idle? && t0 >= s.highWater
             && (s.groups.Get(p).pending.Some? ==> !s.groups.Get(p).pending.value.feedback.Oversized(t0))
    requires var mid := Run(Initial(wall, limits), events + ReserveEvents(p, t0));
             t >= SurelyOpen(mid.groups.Get(p).rows, mid.highWater)
    ensures var mid := Run(Initial(wall, limits), events + ReserveEvents(p, t0));
            var after := Run(mid, ReserveEvents(p, t)).groups.Get(p);
            && mid.groups.Get(p).pending.None? && mid.txn.Idle?
            && after.dispatched == mid.groups.Get(p).dispatched + [|mid.groups.Get(p).grants|]
            && after.grants == mid.groups.Get(p).grants + [Grant(t, after.limits.minute, after.limits.day)]
  {
    var s := Run(Initial(wall, limits), events);
    var g := s.groups.Get(p);
    BackwardDayUnreachable(wall, limits, events, p, t0);
    assert ReserveTx(g.rows, g.limits, Waiting(g.pending), t0).Ok?;
    ReservationRuns(s, p, t0);
    FourMore(Initial(wall, limits), events, BeginReserve(p, t0), Commit(true), Clear, Finish(false));
    var all := events + ReserveEvents(p, t0);
    forall i | 0 <= i < |all| ensures Legal(all[i]) {
      assert i < |events| ==> all[i] == events[i];
    }
    EngineNeverLocksOut(wall, limits, all, p, t);
  }
}
