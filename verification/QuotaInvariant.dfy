/** Every step of the quota engine keeps its invariant. */
module QuotaInvariant {
  import opened Basics
  import opened Time
  import opened QuotaSpec
  import opened FeedbackAlgebra
  import opened QuotaEngine

  // ---- History bookkeeping ----

  lemma TimesOfAppend(grants: seq<Grant>, x: Grant)
    ensures Times(grants + [x]) == Times(grants) + (if x.minuteCap > 0 then [x.time] else [])
  {
    assert (grants + [x])[..|grants|] == grants;
  }

  lemma CountDayOfAppend(grants: seq<Grant>, x: Grant, day: int)
    ensures CountDay(grants + [x], day) == CountDay(grants, day) + (if DayOf(x.time) == day then 1 else 0)
  {
    assert (grants + [x])[..|grants|] == grants;
  }

  lemma {:induction false} NoGrantsAfterLastDay(grants: seq<Grant>, day: int)
    requires forall i :: 0 <= i < |grants| ==> DayOf(grants[i].time) < day
    ensures CountDay(grants, day) == 0
  {
    if grants != [] {
      NoGrantsAfterLastDay(grants[..|grants| - 1], day);
    }
  }

  lemma CapsOfAppend(grants: seq<Grant>, x: Grant)
    requires CapsRespected(grants)
    requires WithinMinute(grants + [x], |grants|) && WithinDay(grants + [x], |grants|)
    ensures CapsRespected(grants + [x])
  {
    var all := grants + [x];
    forall i | 0 <= i < |all| ensures WithinMinute(all, i) && WithinDay(all, i) {
      if i < |grants| {
        assert all[..i + 1] == grants[..i + 1];
        assert WithinMinute(grants, i) && WithinDay(grants, i);
      }
    }
  }

  lemma HighWaterMayRise(g: Group, low: int, high: int)
    requires DurableInv(g, low) && low <= high
    ensures DurableInv(g, high)
  {
    DayMonotone(low, high);
  }

  // ---- The minute window ----

  lemma PurgeKeepsWindow(g: Group, low: int, now: int)
    requires WindowFaithful(g, low) && low <= now
    ensures WindowFaithful(g.(rows := g.rows.(attempts := Recent(g.rows.attempts, now))), now)
  {
    RecentSorted(g.rows.attempts, now);
    RecentIsSuffix(g.rows.attempts, now);
    forall t | t >= now ensures Recent(Recent(g.rows.attempts, now), t) == Recent(Times(g.grants), t) {
      RecentOfRecent(g.rows.attempts, now, t);
    }
  }

  lemma RecordKeepsWindow(g: Group, now: int, x: Grant)
    requires WindowFaithful(g, now) && x.time == now && x.minuteCap > 0
    ensures WindowFaithful(
              g.(rows := g.rows.(attempts := InsertAttempt(g.rows.attempts, now)), grants := g.grants + [x]), now)
  {
    var a := g.rows.attempts;
    assert InsertAttempt(a, now) == a + [now];
    TimesOfAppend(g.grants, x);
    forall t | t >= now ensures Recent(a + [now], t) == Recent(Times(g.grants + [x]), t) {
      RecentOfAppend(a, [now], t);
      RecentOfAppend(Times(g.grants), [now], t);
    }
  }

  lemma UnrecordedKeepsWindow(g: Group, now: int, x: Grant)
    requires WindowFaithful(g, now) && x.minuteCap == 0
    ensures WindowFaithful(g.(grants := g.grants + [x]), now)
  {
    TimesOfAppend(g.grants, x);
    assert Times(g.grants + [x]) == Times(g.grants);
  }

  /** The window's capacity check makes room for exactly one more. */
  lemma GrantFitsMinute(g: Group, limits: Limits, now: int, x: Grant)
    requires WindowFaithful(g, now) && !MinuteBlocks(g.rows.attempts, limits, now)
    requires x == Grant(now, limits.minute, limits.day)
    ensures WithinMinute(g.grants + [x], |g.grants|)
  {
    TimesOfAppend(g.grants, x);
    RecentOfAppend(Times(g.grants), [now], now);
    assert (g.grants + [x])[..|g.grants| + 1] == g.grants + [x];
  }

  // ---- The day counter ----

  lemma AdvanceKeepsDay(g: Group, low: int, now: int)
    requires DayFaithful(g, low) && low <= now
    ensures AdvanceDay(g.rows.quota, now).Ok?
    ensures DayFaithful(g.(rows := g.rows.(quota := AdvanceDay(g.rows.quota, now).value)), now)
    ensures AdvanceDay(g.rows.quota, now).value.day == DayOf(now)
  {
    DayMonotone(low, now);
    if DayOf(now) > g.rows.quota.day {
      NoGrantsAfterLastDay(g.grants, DayOf(now));
    }
  }

  lemma GrantFitsDay(g: Group, limits: Limits, now: int, x: Grant)
    requires DayFaithful(g, now) && g.rows.quota.day == DayOf(now) && !DayBlocks(g.rows.quota, limits)
    requires x == Grant(now, limits.minute, limits.day)
    ensures WithinDay(g.grants + [x], |g.grants|)
    ensures DayFaithful(g.(rows := g.rows.(quota := g.rows.quota.(consumed := g.rows.quota.consumed + 1)),
                           grants := g.grants + [x]), now)
  {
    var all := g.grants + [x];
    CountDayOfAppend(g.grants, x, DayOf(now));
    assert all[..|g.grants| + 1] == all;
    assert CountDay(all, DayOf(now)) == g.rows.quota.consumed + 1;
    forall i | 0 <= i < |all| ensures DayOf(all[i].time) <= DayOf(now) {
      assert i < |g.grants| ==> all[i] == g.grants[i];
    }
  }

  // ---- Transactions keep the durable half ----

  ghost predicate SameAccount(g: Group, h: Group) {
    g.limits == h.limits && g.grants == h.grants && g.dispatched == h.dispatched
    && g.rows.attempts == h.rows.attempts
    && g.rows.quota.day == h.rows.quota.day && g.rows.quota.consumed == h.rows.quota.consumed
  }

  lemma DurableOfSameAccount(g: Group, h: Group, highWater: int)
    requires DurableInv(g, highWater) && SameAccount(g, h) && h.rows.quota.Paced()
    ensures DurableInv(h, highWater)
  {
  }

  lemma SaveKeepsDurable(g: Group, low: int, now: int, f: Feedback)
    requires DurableInv(g, low) && low <= now && SaveTx(g.rows, g.limits, f, now).Ok?
    ensures DurableInv(g.(rows := SaveTx(g.rows, g.limits, f, now).value), now)
  {
    HighWaterMayRise(g, low, now);
    PacedKept(g.rows.quota, f, now, g.limits.unobserved);
    DurableOfSameAccount(g, g.(rows := SaveTx(g.rows, g.limits, f, now).value), now);
  }

  lemma PurgeKeepsDurable(g: Group, low: int, now: int)
    requires DurableInv(g, low) && low <= now
    ensures DurableInv(g.(rows := g.rows.(attempts := Recent(g.rows.attempts, now))), now)
  {
    HighWaterMayRise(g, low, now);
    PurgeKeepsWindow(g, low, now);
  }

  lemma AdvanceKeepsDurable(g: Group, low: int, now: int)
    requires DurableInv(g, low) && low <= now
    ensures AdvanceDay(g.rows.quota, now).Ok?
    ensures var h := g.(rows := g.rows.(quota := AdvanceDay(g.rows.quota, now).value));
            DurableInv(h, now) && h.rows.quota.day == DayOf(now)
  {
    HighWaterMayRise(g, low, now);
    AdvanceKeepsDay(g, low, now);
    PacedKept(g.rows.quota, Feedback(None, false, None, None), now, 0);
  }

  lemma ApplyKeepsAccount(q: Quota, f: Feedback, now: int, unobserved: nat)
    requires ApplyFeedback(q, f, now, unobserved).Ok?
    ensures var q1 := ApplyFeedback(q, f, now, unobserved).value;
            q1.day == q.day && q1.consumed == q.consumed && (q.Paced() ==> q1.Paced())
  {
  }

  lemma PrepareKeepsDurable(g: Group, low: int, now: int, waiting: Option<Feedback>)
    requires DurableInv(g, low) && low <= now && Prepared(g.rows, g.limits, waiting, now).Ok?
    ensures var h := g.(rows := Prepared(g.rows, g.limits, waiting, now).value);
            DurableInv(h, now) && h.rows.quota.day == DayOf(now)
  {
    PurgeKeepsDurable(g, low, now);
    var g1 := g.(rows := g.rows.(attempts := Recent(g.rows.attempts, now)));
    AdvanceKeepsDurable(g1, now, now);
    var g2 := g1.(rows := g1.rows.(quota := AdvanceDay(g.rows.quota, now).value));
    if waiting.Some? {
      ApplyKeepsAccount(g2.rows.quota, waiting.value, now, g.limits.unobserved);
    }
    DurableOfSameAccount(g2, g.(rows := Prepared(g.rows, g.limits, waiting, now).value), now);
  }

  lemma SpendKeepsDurable(g: Group, now: int)
    requires DurableInv(g, now) && g.rows.quota.day == DayOf(now) && !Blocked(g.rows, g.limits, now)
    requires forall i :: 0 <= i < |g.dispatched| ==> g.dispatched[i] < |g.grants|
    ensures DurableInv(WithGrant(g.(rows := Spend(g.rows, g.limits, now)), now), now)
  {
    var x := Grant(now, g.limits.minute, g.limits.day);
    GrantFitsMinute(g, g.limits, now, x);
    GrantFitsDay(g, g.limits, now, x);
    CapsOfAppend(g.grants, x);
    if g.limits.minute > 0 {
      RecordKeepsWindow(g, now, x);
    } else {
      UnrecordedKeepsWindow(g, now, x);
    }
    var h := WithGrant(g.(rows := Spend(g.rows, g.limits, now)), now);
    assert h.rows.quota.Paced();
    assert h.grants == g.grants + [x];
    assert GrantsOrdered(h.grants, now);
    assert WindowFaithful(h, now);
    assert DayFaithful(h, now);
    assert DispatchedOnce(h);
  }

  lemma EffectKeepsDurable(t: Txn, g: Group, low: int)
    requires t.Active? && DurableInv(g, low) && low <= t.now && Effect(t, g).Some?
    ensures DurableInv(Effect(t, g).value.0, t.now)
  {
    match t.kind
    case Reserving =>
      PrepareKeepsDurable(g, low, t.now, Waiting(t.saved));
      var p := Prepared(g.rows, g.limits, Waiting(t.saved), t.now).value;
      if ReserveTx(g.rows, g.limits, Waiting(t.saved), t.now).value.granted {
        SpendKeepsDurable(g.(rows := p), t.now);
      }
    case Saving =>
      if t.saved.Some? {
        SaveKeepsDurable(g, low, t.now, t.saved.value.feedback);
      } else {
        HighWaterMayRise(g, low, t.now);
      }
  }

  // ---- Cooldowns are not lost ----

  lemma ApplyCovers(q: Quota, f: Feedback, now: int, unobserved: nat, c: int)
    requires Covered(c, now, q, Some(f)) && ApplyFeedback(q, f, now, unobserved).Ok?
    ensures Covered(c, now, ApplyFeedback(q, f, now, unobserved).value, None)
  {
  }

  lemma PrepareCovers(r: Rows, limits: Limits, waiting: Option<Feedback>, now: int, c: int)
    requires Covered(c, now, r.quota, waiting) && Prepared(r, limits, waiting, now).Ok?
    ensures Covered(c, now, Prepared(r, limits, waiting, now).value.quota, None)
  {
    var q1 := AdvanceDay(r.quota, now).value;
    assert Covered(c, now, q1, waiting);
    if waiting.Some? {
      ApplyCovers(q1, waiting.value, now, limits.unobserved, c);
    }
  }

  /** After a transaction the row alone covers what row and snapshot covered; a grant means it has passed. */
  lemma EffectCovers(t: Txn, g: Group, c: int)
    requires t.Active? && Effect(t, g).Some? && Covered(c, t.now, g.rows.quota, Waiting(t.saved))
    ensures Covered(c, t.now, Effect(t, g).value.0.rows.quota, None)
    ensures Effect(t, g).value.1 ==> c <= t.now
  {
    match t.kind
    case Reserving =>
      PrepareCovers(g.rows, g.limits, Waiting(t.saved), t.now, c);
    case Saving =>
      if t.saved.Some? {
        ApplyCovers(g.rows.quota, t.saved.value.feedback, t.now, g.limits.unobserved, c);
      }
  }

  lemma EffectCoversAll(t: Txn, g: Group, reports: seq<Feedback>)
    requires t.Active? && Effect(t, g).Some?
    requires AllCovered(reports, t.now, g.rows.quota, Waiting(t.saved))
    ensures AllCovered(reports, t.now, Effect(t, g).value.0.rows.quota, None)
    ensures Effect(t, g).value.1 ==>
              forall i :: 0 <= i < |reports| && reports[i].cooldown.Some? ==> reports[i].cooldown.value <= t.now
  {
    forall i | 0 <= i < |reports| && reports[i].cooldown.Some?
      ensures Covered(reports[i].cooldown.value, t.now, Effect(t, g).value.0.rows.quota, None)
      ensures Effect(t, g).value.1 ==> reports[i].cooldown.value <= t.now
    {
      EffectCovers(t, g, reports[i].cooldown.value);
    }
  }

  /** A later cooldown, stored or merged, covers whatever an earlier one did. */
  lemma SubmitCovers(g: Group, highWater: int, generation: nat, f: Feedback)
    requires AllCovered(g.submitted, highWater, g.rows.quota, Waiting(g.pending))
    ensures var h := SubmitTo(g, generation, f);
            AllCovered(h.submitted, highWater, h.rows.quota, Waiting(h.pending))
  {
    var h := SubmitTo(g, generation, f);
    if g.pending.Some? {
      MergeKeepsCooldowns(g.pending.value.feedback, f);
    }
    forall i | 0 <= i < |h.submitted| && h.submitted[i].cooldown.Some?
      ensures Covered(h.submitted[i].cooldown.value, highWater, h.rows.quota, Waiting(h.pending))
    {
      if i < |g.submitted| {
        assert h.submitted[i] == g.submitted[i];
        assert Covered(g.submitted[i].cooldown.value, highWater, g.rows.quota, Waiting(g.pending));
      }
    }
  }

  // ---- Steps keep the accounting invariant ----

  lemma SetKeepsDurable(groups: PerProvider<Group>, p: ProviderId, g: Group, highWater: int)
    requires (forall q :: DurableInv(groups.Get(q), highWater)) && DurableInv(g, highWater)
    ensures forall q :: DurableInv(groups.Set(p, g).Get(q), highWater)
  {
    forall q ensures DurableInv(groups.Set(p, g).Get(q), highWater) {
      assert DurableInv(groups.Get(q), highWater);
    }
  }

  lemma LandKeepsAccount(s: Engine)
    requires AccountInv(s) && s.txn.Active?
    ensures Land(s).durableHighWater <= s.highWater
    ensures forall p :: DurableInv(Land(s).groups.Get(p), Land(s).durableHighWater)
  {
    var p := s.txn.group;
    if Effect(s.txn, s.groups.Get(p)).Some? {
      var g := Effect(s.txn, s.groups.Get(p)).value.0;
      EffectKeepsDurable(s.txn, s.groups.Get(p), s.durableHighWater);
      forall q ensures DurableInv(s.groups.Get(q), s.txn.now) {
        HighWaterMayRise(s.groups.Get(q), s.durableHighWater, s.txn.now);
      }
      SetKeepsDurable(s.groups, p, g, s.txn.now);
    }
  }

  lemma CommitKeepsAccount(s: Engine, reported: bool)
    requires AccountInv(s) && s.txn.Active? && s.txn.stage.Staged?
    ensures AccountInv(CommitTxn(s, reported))
  {
    LandKeepsAccount(s);
    assert DispatchedOnce(s.groups.Get(s.txn.group));
  }

  lemma FinishKeepsAccount(s: Engine, late: bool)
    requires AccountInv(s) && s.txn.Active? && s.txn.stage.Cleared?
    ensures AccountInv(FinishTxn(s, late))
  {
    var g := s.groups.Get(s.txn.group);
    assert DurableInv(g, s.durableHighWater);
    if s.txn.stage.granted {
      SetKeepsDurable(s.groups, s.txn.group, g.(dispatched := g.dispatched + [|g.grants| - 1]), s.durableHighWater);
    }
  }

  lemma ReopenKeepsDurable(g: Group, limits: Limits, highWater: int)
    requires DurableInv(g, highWater) && limits.Valid()
    ensures DurableInv(Reopen(g, limits), highWater)
  {
  }

  lemma RestartKeepsAccount(s: Engine, wall: int, limits: PerProvider<Limits>, landed: bool)
    requires AccountInv(s) && forall p :: limits.Get(p).Valid()
    ensures AccountInv(RestartEngine(s, wall, limits, landed))
  {
    if s.txn.Active? {
      LandKeepsAccount(s);
    }
    var d := if landed && s.txn.Active? && s.txn.stage.Staged? then Land(s) else s;
    var t := RestartEngine(s, wall, limits, landed);
    forall p ensures DurableInv(t.groups.Get(p), t.durableHighWater) {
      assert t.groups.Get(p) == Reopen(d.groups.Get(p), limits.Get(p));
      ReopenKeepsDurable(d.groups.Get(p), limits.Get(p), d.durableHighWater);
    }
  }

  lemma StepKeepsAccount(s: Engine, e: Event)
    requires AccountInv(s) && Legal(e)
    ensures AccountInv(Exec(s, e))
  {
    match e
    case Commit(reported) =>
      if s.txn.Active? && s.txn.stage.Staged? { CommitKeepsAccount(s, reported); }
    case Finish(late) =>
      if s.txn.Active? && s.txn.stage.Cleared? { FinishKeepsAccount(s, late); }
    case Restart(wall, limits, landed) => RestartKeepsAccount(s, wall, limits, landed);
    case Submit(p, f) => SubmitKeepsAccount(s, p, f);
    case Clear => ClearKeepsAccount(s);
    case _ =>
  }

  lemma SubmitKeepsAccount(s: Engine, p: ProviderId, f: Feedback)
    requires AccountInv(s)
    ensures AccountInv(Exec(s, Submit(p, f)))
  {
    var g := s.groups.Get(p);
    var h := SubmitTo(g, s.submissions + 1, f);
    DurableOfSameAccount(g, h, s.durableHighWater);
    SetKeepsDurable(s.groups, p, h, s.durableHighWater);
  }

  lemma ClearKeepsAccount(s: Engine)
    requires AccountInv(s)
    ensures AccountInv(Exec(s, Clear))
  {
    if s.txn.Active? && s.txn.stage.Committed? {
      var g := s.groups.Get(s.txn.group);
      assert DurableInv(g, s.durableHighWater);
      SetKeepsDurable(s.groups, s.txn.group, ClearPending(g, s.txn.saved), s.durableHighWater);
    }
  }

  // ---- Steps keep the retention invariant ----

  lemma SetKeepsFeedback(groups: PerProvider<Group>, p: ProviderId, g: Group, highWater: int, n: nat)
    requires (forall q :: FeedbackInv(groups.Get(q), highWater, n)) && FeedbackInv(g, highWater, n)
    ensures forall q :: FeedbackInv(groups.Set(p, g).Get(q), highWater, n)
  {
    forall q ensures FeedbackInv(groups.Set(p, g).Get(q), highWater, n) {
      assert FeedbackInv(groups.Get(q), highWater, n);
    }
  }

  lemma SubmitKeepsRetention(s: Engine, p: ProviderId, f: Feedback)
    requires RetentionInv(s)
    ensures RetentionInv(Exec(s, Submit(p, f)))
  {
    var g := s.groups.Get(p);
    var h := SubmitTo(g, s.submissions + 1, f);
    assert FeedbackInv(g, s.highWater, s.submissions);
    SubmitCovers(g, s.highWater, s.submissions + 1, f);
    if s.txn.Active? && s.txn.group == p {
      assert h.submitted[..s.txn.seen] == g.submitted[..s.txn.seen];
    }
    forall q ensures FeedbackInv(Exec(s, Submit(p, f)).groups.Get(q), s.highWater, s.submissions + 1) {
      assert FeedbackInv(s.groups.Get(q), s.highWater, s.submissions);
    }
  }

  lemma BeginKeepsRetention(s: Engine, kind: Kind, p: ProviderId, wall: int)
    requires RetentionInv(s) && s.txn.Idle?
    ensures RetentionInv(Begin(s, kind, p, wall))
  {
    forall q ensures FeedbackInv(s.groups.Get(q), Max(s.highWater, wall), s.submissions) {
      assert FeedbackInv(s.groups.Get(q), s.highWater, s.submissions);
    }
    var g := s.groups.Get(p);
    assert g.submitted[..|g.submitted|] == g.submitted;
    assert FeedbackInv(g, Max(s.highWater, wall), s.submissions);
  }

  /** Whatever the row covered before a transaction it covers after, waiting reports included. */
  lemma EffectKeepsFeedback(t: Txn, g: Group, submissions: nat)
    requires t.Active? && Effect(t, g).Some? && FeedbackInv(g, t.now, submissions)
    ensures FeedbackInv(Effect(t, g).value.0, t.now, submissions)
  {
    var h := Effect(t, g).value.0;
    forall i | 0 <= i < |g.submitted| && g.submitted[i].cooldown.Some?
      ensures Covered(g.submitted[i].cooldown.value, t.now, h.rows.quota, Waiting(g.pending))
    {
      var c := g.submitted[i].cooldown.value;
      assert Covered(c, t.now, g.rows.quota, Waiting(g.pending));
      if Covered(c, t.now, g.rows.quota, Waiting(t.saved)) {
        EffectCovers(t, g, c);
      }
    }
  }

  lemma CommitKeepsRetention(s: Engine, reported: bool)
    requires AccountInv(s) && RetentionInv(s) && s.txn.Active? && s.txn.stage.Staged?
    ensures RetentionInv(CommitTxn(s, reported))
  {
    var p := s.txn.group;
    var g := s.groups.Get(p);
    if Effect(s.txn, g).Some? {
      assert FeedbackInv(g, s.highWater, s.submissions);
      EffectKeepsFeedback(s.txn, g, s.submissions);
      EffectCoversAll(s.txn, g, g.submitted[..s.txn.seen]);
      var h := Effect(s.txn, g).value.0;
      assert h.submitted == g.submitted && h.pending == g.pending;
      forall i | Effect(s.txn, g).value.1 && 0 <= i < s.txn.seen && g.submitted[i].cooldown.Some?
        ensures g.submitted[i].cooldown.value <= s.txn.now
      {
        assert g.submitted[..s.txn.seen][i] == g.submitted[i];
      }
      SetKeepsFeedback(s.groups, p, h, s.highWater, s.submissions);
    }
  }

  /** Only the report that the transaction saved is cleared; it is already in the row. */
  lemma ClearKeepsRetention(s: Engine)
    requires AccountInv(s) && RetentionInv(s) && s.txn.Active? && s.txn.stage.Committed?
    requires s.submissions < TWO_64
    ensures RetentionInv(Exec(s, Clear))
  {
    var t := s.txn;
    var g := s.groups.Get(t.group);
    assert FeedbackInv(g, s.highWater, s.submissions);
    var h := ClearPending(g, t.saved);
    if |g.submitted| == t.seen {
      assert g.submitted[..t.seen] == g.submitted;
      assert h.pending.None?;
    } else {
      assert h == g;
    }
    SetKeepsFeedback(s.groups, t.group, h, s.highWater, s.submissions);
  }

  lemma StepKeepsRetention(s: Engine, e: Event)
    requires AccountInv(s) && RetentionInv(s) && s.submissions < TWO_64
    ensures RetentionInv(Exec(s, e))
  {
    match e
    case Submit(p, f) => SubmitKeepsRetention(s, p, f);
    case BeginReserve(p, wall) =>
      if s.txn.Idle? { BeginKeepsRetention(s, Reserving, p, wall); }
    case BeginSave(p, wall) =>
      if s.txn.Idle? { BeginKeepsRetention(s, Saving, p, wall); }
    case Commit(reported) =>
      if s.txn.Active? && s.txn.stage.Staged? { CommitKeepsRetention(s, reported); }
    case Clear =>
      if s.txn.Active? && s.txn.stage.Committed? { ClearKeepsRetention(s); }
    case Finish(late) =>
      if s.txn.Active? { assert FeedbackInv(s.groups.Get(s.txn.group), s.highWater, s.submissions); }
    case Observe(wall) =>
      forall q ensures FeedbackInv(s.groups.Get(q), Max(s.highWater, wall), s.submissions) {
        assert FeedbackInv(s.groups.Get(q), s.highWater, s.submissions);
      }
    case _ =>
  }
}
