/**
 The quota rules read off the stored fields: what a report, a reservation and a query do to the count, the
 window, the cooldown and the day of a row, and when they refuse, with or without promising a delay.
 */
module QuotaFields {
  import opened Basics
  import opened QuotaSpec
  import opened QuotaDelay

  // ---- What is left of a row ----

  /** The row's cooldown is still ahead. */
  predicate Cooling(q: Quota, now: int) {
    q.cooldown.Some? && now < q.cooldown.value
  }

  /** The row's count still holds on the row's own day: its window is open, or it has none and is not a spent probe. */
  predicate CountHolds(q: Quota, now: int) {
    q.remaining.Some?
    && if q.reset.Some? then now < q.reset.value
       else !(q.remaining == Some(0) && q.cooldown.Some? && q.cooldown.value <= now)
  }

  /** The same when the day may have changed: a count without a window does not outlive its day. */
  predicate CountLeft(q: Quota, now: int) {
    CountHolds(q, now) && (q.reset.None? ==> q.day == now / 86_400_000)
  }

  /** A report of a window still open, or of none. */
  predicate Open(f: Feedback, now: int) {
    f.reset.None? || now < f.reset.value
  }

  /** The count after a report: the smaller of the two, or a first one less the room for what it may have missed. */
  predicate CountAfter(left: Option<nat>, f: Feedback, now: int, unobserved: nat, after: Option<nat>) {
    if !Open(f, now) || f.remaining.None? then after == left
    else
      after.Some? && after.value <= f.remaining.value
      && (left.Some? ==> after.value == if left.value <= f.remaining.value then left.value else f.remaining.value)
      && (left.None? ==> after.value == if unobserved <= f.remaining.value then f.remaining.value - unobserved else 0)
  }

  /** The window after a report: the later end of those still open. */
  predicate ResetAfter(q: Quota, f: Feedback, now: int, after: Option<int>) {
    var own := q.reset.Some? && now < q.reset.value;
    var told := f.reset.Some? && now < f.reset.value;
    && (after.Some? <==> own || told)
    && (own ==> after.value >= q.reset.value)
    && (told ==> after.value >= f.reset.value)
    && (after.Some? ==> (own && after == q.reset) || (told && after == f.reset))
  }

  /** The cooldown after a report: the latest one ahead, unknown if a latest one is, or that of a paced probe. */
  predicate CooldownAfter(q: Quota, f: Feedback, now: int, after: Quota) {
    var told := f.cooldown.Some? && now < f.cooldown.value;
    if Cooling(q, now) || told then
      && after.cooldown.Some?
      && (Cooling(q, now) ==> after.cooldown.value >= q.cooldown.value)
      && (told ==> after.cooldown.value >= f.cooldown.value)
      && ((Cooling(q, now) && after.cooldown == q.cooldown) || (told && after.cooldown == f.cooldown))
      && (after.unknown <==> (Cooling(q, now) && after.cooldown == q.cooldown && q.unknown)
                             || (told && after.cooldown == f.cooldown && f.unknownReset))
    else if Open(f, now) && after.remaining == Some(0) && after.reset.None? then
      after.cooldown == Some(now + 60_000) && after.unknown
    else after.cooldown.None?
  }

  const NO_REPORT := Feedback(None, false, None, None)

  // ---- Saving a report ----

  lemma AppliedCount(q: Quota, f: Feedback, now: int, unobserved: nat)
    requires ApplyFeedback(q, f, now, unobserved).Ok?
    ensures CountAfter(if CountHolds(q, now) then q.remaining else None, f, now, unobserved,
                       ApplyFeedback(q, f, now, unobserved).value.remaining)
  {
    ExpiredFields(q, now);
  }

  lemma AppliedReset(q: Quota, f: Feedback, now: int, unobserved: nat)
    requires ApplyFeedback(q, f, now, unobserved).Ok?
    ensures ResetAfter(q, f, now, ApplyFeedback(q, f, now, unobserved).value.reset)
  {
    ExpiredFields(q, now);
  }

  lemma AppliedCooldown(q: Quota, f: Feedback, now: int, unobserved: nat)
    requires ApplyFeedback(q, f, now, unobserved).Ok?
    ensures CooldownAfter(q, f, now, ApplyFeedback(q, f, now, unobserved).value)
  {
    ExpiredFields(q, now);
  }

  lemma ExpiredFields(q: Quota, now: int)
    ensures var e := ExpireFeedback(q, now);
            && e.remaining == (if CountHolds(q, now) then q.remaining else None)
            && e.reset == (if q.reset.Some? && now < q.reset.value then q.reset else None)
            && e.cooldown == (if Cooling(q, now) then q.cooldown else None)
            && (Cooling(q, now) ==> e.unknown == q.unknown)
            && e.day == q.day && e.consumed == q.consumed
  {
  }

  /** What a saved report makes of the row. */
  lemma SavedFields(r: Rows, limits: Limits, f: Feedback, now: int)
    requires SaveTx(r, limits, f, now).Ok?
    ensures var q, s := r.quota, SaveTx(r, limits, f, now).value;
            && s.attempts == r.attempts && s.quota.day == q.day && s.quota.consumed == q.consumed
            && CountAfter(if CountHolds(q, now) then q.remaining else None, f, now, limits.unobserved, s.quota.remaining)
            && ResetAfter(q, f, now, s.quota.reset)
            && CooldownAfter(q, f, now, s.quota)
  {
    AppliedCount(r.quota, f, now, limits.unobserved);
    AppliedReset(r.quota, f, now, limits.unobserved);
    AppliedCooldown(r.quota, f, now, limits.unobserved);
  }

  /** A report of an open window lowers a known count to its own, and never raises it. */
  lemma SavedReportLowers(r: Rows, limits: Limits, f: Feedback, now: int)
    requires SaveTx(r, limits, f, now).Ok? && (f.reset.Some? ==> now < f.reset.value) && f.remaining.Some?
    ensures var n, after := f.remaining.value, SaveTx(r, limits, f, now).value.quota.remaining;
            && after.Some? && after.value <= n
            && (r.quota.remaining.Some? && r.quota.remaining.value > 0
                && (r.quota.reset.Some? ==> now < r.quota.reset.value) ==>
                  after.value == if r.quota.remaining.value <= n then r.quota.remaining.value else n)
  {
    SavedFields(r, limits, f, now);
  }

  // ---- A reservation's row ----

  /** Of the stored timestamps, in order, exactly those of the last sixty seconds. */
  ghost predicate LastMinute(a: seq<int>, now: int, b: seq<int>) {
    exists k :: 0 <= k <= |a| && b == a[k..] && (forall i :: 0 <= i < k ==> a[i] <= now - 60_000)
                && forall i :: k <= i < |a| ==> a[i] > now - 60_000
  }

  /** What a reservation finds, once the day has changed, the waiting report been applied and old timestamps purged. */
  lemma PreparedFields(r: Rows, limits: Limits, waiting: Option<Feedback>, now: int)
    requires Sorted(r.attempts) && Prepared(r, limits, waiting, now).Ok?
    ensures var q, p := r.quota, Prepared(r, limits, waiting, now).value;
            var f := if waiting.Some? then waiting.value else NO_REPORT;
            && p.quota.day == now / 86_400_000
            && p.quota.consumed == (if q.day == now / 86_400_000 then q.consumed else 0)
            && CountAfter(if CountLeft(q, now) then q.remaining else None, f, now, limits.unobserved, p.quota.remaining)
            && ResetAfter(q, f, now, p.quota.reset)
            && (waiting.Some? || q.Paced() ==> CooldownAfter(q, f, now, p.quota))
            && LastMinute(r.attempts, now, p.attempts)
  {
    RecentIsSuffix(r.attempts, now);
    var k := |r.attempts| - |Recent(r.attempts, now)|;
    assert Recent(r.attempts, now) == r.attempts[k..];
    PreparedQuotaFields(r.quota, limits, waiting, now);
  }

  lemma AdvancedFields(q: Quota, now: int)
    requires AdvanceDay(q, now).Ok?
    ensures var e := AdvanceDay(q, now).value;
            && e.remaining == (if CountLeft(q, now) then q.remaining else None)
            && e.reset == (if q.reset.Some? && now < q.reset.value then q.reset else None)
            && e.cooldown == (if Cooling(q, now) then q.cooldown else None)
            && (Cooling(q, now) ==> e.unknown == q.unknown)
            && e.day == now / 86_400_000 && e.consumed == (if q.day == now / 86_400_000 then q.consumed else 0)
            && (e.remaining.Some? ==> CountHolds(e, now))
  {
  }

  /** Without a report, a row that paces exhaustion is found as after one that says nothing. */
  lemma NothingReported(q: Quota, now: int, unobserved: nat)
    requires q.Paced() && AdvanceDay(q, now).Ok?
    ensures ApplyFeedback(AdvanceDay(q, now).value, NO_REPORT, now, unobserved) == Ok(AdvanceDay(q, now).value)
  {
  }

  lemma PreparedQuotaFields(q: Quota, limits: Limits, waiting: Option<Feedback>, now: int)
    requires Prepared(Rows(q, []), limits, waiting, now).Ok?
    ensures var p := Prepared(Rows(q, []), limits, waiting, now).value.quota;
            var f := if waiting.Some? then waiting.value else NO_REPORT;
            && p.day == now / 86_400_000
            && p.consumed == (if q.day == now / 86_400_000 then q.consumed else 0)
            && CountAfter(if CountLeft(q, now) then q.remaining else None, f, now, limits.unobserved, p.remaining)
            && ResetAfter(q, f, now, p.reset)
            && (waiting.Some? || q.Paced() ==> CooldownAfter(q, f, now, p))
  {
    var f := if waiting.Some? then waiting.value else NO_REPORT;
    var e := AdvanceDay(q, now).value;
    AdvancedFields(q, now);
    if waiting.None? && q.Paced() {
      NothingReported(q, now, limits.unobserved);
    }
    if waiting.Some? || q.Paced() {
      AppliedCount(e, f, now, limits.unobserved);
      AppliedReset(e, f, now, limits.unobserved);
      AppliedCooldown(e, f, now, limits.unobserved);
      SameAfterAdvance(q, f, now, e, Prepared(Rows(q, []), limits, waiting, now).value.quota);
    }
  }

  lemma SameAfterAdvance(q: Quota, f: Feedback, now: int, e: Quota, p: Quota)
    requires AdvanceDay(q, now) == Ok(e)
    requires ResetAfter(e, f, now, p.reset) && CooldownAfter(e, f, now, p)
    ensures ResetAfter(q, f, now, p.reset) && CooldownAfter(q, f, now, p)
  {
    AdvancedFields(q, now);
  }

  // ---- Refusing ----

  /** The minute's room is gone: `minute` of the stored timestamps are later than sixty seconds ago. */
  predicate MinuteFull(attempts: seq<int>, limits: Limits, now: int) {
    0 < limits.minute <= |attempts| && attempts[|attempts| - limits.minute] > now - 60_000
  }

  /** No cooldown ahead, room in the day and the minute, and no provider count of zero. */
  predicate MayReserve(q: Quota, attempts: seq<int>, limits: Limits, now: int) {
    !Cooling(q, now) && q.consumed < limits.day && q.remaining != Some(0) && !MinuteFull(attempts, limits, now)
  }

  /** No cooldown ahead is marked unknown, and a count of zero has a reset ahead. */
  predicate KnownEnd(q: Quota, now: int) {
    (Cooling(q, now) ==> !q.unknown) && (q.remaining == Some(0) ==> q.reset.Some? && now < q.reset.value)
  }

  lemma MinuteFullIff(a: seq<int>, limits: Limits, now: int)
    requires Sorted(a)
    ensures MinuteBlocks(a, limits, now) <==> MinuteFull(a, limits, now)
  {
    RecentIsSuffix(a, now);
  }

  /** What a grant changes: one more used today, one less remaining, the time recorded, and exhaustion paced. */
  ghost predicate Granting(p: Rows, limits: Limits, now: int, after: Rows) {
    && after.quota.day == p.quota.day && after.quota.reset == p.quota.reset
    && after.quota.consumed == p.quota.consumed + 1
    && (p.quota.remaining.None? ==> after.quota.remaining.None?)
    && (p.quota.remaining.Some? ==> after.quota.remaining == Some(p.quota.remaining.value - 1))
    && (if after.quota.remaining == Some(0) && p.quota.reset.None? && p.quota.cooldown.None?
        then after.quota.cooldown == Some(now + 60_000) && after.quota.unknown
        else after.quota.cooldown == p.quota.cooldown && after.quota.unknown == p.quota.unknown)
    && (limits.minute == 0 ==> after.attempts == p.attempts)
    && (limits.minute > 0 ==> multiset(after.attempts) == multiset(p.attempts) + multiset{now} && Sorted(after.attempts))
  }

  lemma InsertedOnce(a: seq<int>, t: int)
    ensures multiset(InsertAttempt(a, t)) == multiset(a) + multiset{t}
  {
    var k := InsertPoint(a, t);
    assert a == a[..k] + a[k..];
  }

  /**
   A reservation is granted exactly when the row it finds permits one; then it changes what a grant changes and
   nothing else. Refused, it leaves that row, and it states a delay exactly when every end is known.
   */
  lemma ReserveMeaning(r: Rows, limits: Limits, waiting: Option<Feedback>, now: int)
    requires Sorted(r.attempts) && ReserveTx(r, limits, waiting, now).Ok?
    ensures Prepared(r, limits, waiting, now).Ok?
    ensures var p := Prepared(r, limits, waiting, now).value;
            var res := ReserveTx(r, limits, waiting, now).value;
            && (res.granted <==> MayReserve(p.quota, r.attempts, limits, now))
            && (res.granted ==> res.retryAfter.None? && Granting(p, limits, now, res.rows))
            && (!res.granted ==> res.rows == p && (res.retryAfter.Some? <==> KnownEnd(p.quota, now)))
  {
    var p := Prepared(r, limits, waiting, now).value;
    MinutePurged(r.attempts, limits, now);
    MinuteFullIff(r.attempts, limits, now);
    DecisionFields(p, r.attempts, limits, now);
    if !Decide(p, limits, now, now).blocked {
      RecentSorted(r.attempts, now);
      SpendFields(p, limits, now);
    }
  }

  lemma DecisionFields(p: Rows, attempts: seq<int>, limits: Limits, now: int)
    requires MinuteBlocks(p.attempts, limits, now) <==> MinuteFull(attempts, limits, now)
    ensures var d := Decide(p, limits, now, now);
            && (d.blocked <==> !MayReserve(p.quota, attempts, limits, now))
            && (d.retryAfter.Some? <==> d.blocked && KnownEnd(p.quota, now))
  {
  }

  lemma SpendFields(p: Rows, limits: Limits, now: int)
    requires Sorted(p.attempts) && p.quota.remaining != Some(0)
    ensures Granting(p, limits, now, Spend(p, limits, now))
  {
    InsertKeepsOrder(p.attempts, now);
    InsertedOnce(p.attempts, now);
  }

  /** `retry_after` states a delay exactly when a reservation would be refused, or the clock is behind, and every end is known. */
  lemma RetryAfterMeaning(r: Rows, limits: Limits, waiting: Option<Feedback>, highWater: int, wall: int)
    requires Sorted(r.attempts) && RetryAfter(r, limits, waiting, highWater, wall).Ok?
    ensures var now := if highWater < wall then wall else highWater;
            Prepared(r, limits, waiting, now).Ok?
            && var p := Prepared(r, limits, waiting, now).value;
               RetryAfter(r, limits, waiting, highWater, wall).value.Some?
               <==> (wall < now || !MayReserve(p.quota, r.attempts, limits, now)) && KnownEnd(p.quota, now)
  {
    var now := Max(highWater, wall);
    RetryAfterDecides(r, limits, waiting, highWater, wall);
    MinutePurged(r.attempts, limits, now);
    MinuteFullIff(r.attempts, limits, now);
  }

  /** So a cooldown of unknown end, such as that of a bare 429, is refused without a promise, even when all else is known. */
  lemma UnknownCooldownIsNotPromised(r: Rows, limits: Limits, f: Feedback, now: int, t: int)
    requires Sorted(r.attempts) && r.quota.day <= now / 86_400_000 && now <= t
    requires f.unknownReset && f.cooldown.Some? && t < f.cooldown.value && (Cooling(r.quota, now) ==> r.quota.cooldown.value < f.cooldown.value)
    requires SaveTx(r, limits, f, now).Ok?
    ensures var saved := SaveTx(r, limits, f, now).value;
            var res := ReserveTx(saved, limits, None, t);
            res.Ok? && !res.value.granted && res.value.retryAfter.None?
  {
    SavedFields(r, limits, f, now);
    var saved := SaveTx(r, limits, f, now).value;
    AdvancedFields(saved.quota, t) by {
      assert r.quota.day <= t / 86_400_000;
    }
    ReserveMeaning(saved, limits, None, t);
  }

  /** A grant after a waiting report: the count the two leave, less one. */
  lemma GrantLowersCount(r: Rows, limits: Limits, waiting: Option<Feedback>, now: int)
    requires Sorted(r.attempts) && ReserveTx(r, limits, waiting, now).Ok? && ReserveTx(r, limits, waiting, now).value.granted
    ensures var f := if waiting.Some? then waiting.value else NO_REPORT;
            var left := if CountLeft(r.quota, now) then r.quota.remaining else None;
            var after := ReserveTx(r, limits, waiting, now).value.rows.quota.remaining;
            exists before: Option<nat> :: CountAfter(left, f, now, limits.unobserved, before)
                             && if before.Some? then before.value > 0 && after == Some(before.value - 1) else after.None?
  {
    ReserveMeaning(r, limits, waiting, now);
    PreparedFields(r, limits, waiting, now);
  }
}
