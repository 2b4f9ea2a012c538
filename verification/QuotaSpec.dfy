/**
 The quota rules as functions on values: what one durable quota row and its reservation
 timestamps become under each operation, and when a reservation is refused.
 A row's `attempts` are its `quota_attempts` timestamps in (reserved_at, id) order.
 */
module QuotaSpec {
  import opened Basics
  import opened Time

  datatype Limits = Limits(minute: nat, day: nat, unobserved: nat) {
    /** What configuration loading guarantees. */
    predicate Valid() {
      1 <= day <= I64_MAX && minute <= I64_MAX
    }
  }

  datatype Feedback = Feedback(cooldown: Option<int>, unknownReset: bool, remaining: Option<nat>, reset: Option<int>) {
    /** An unknown reset is only ever reported together with a fallback cooldown. */
    predicate WellFormed() {
      unknownReset ==> cooldown.Some?
    }

    /** A report of a window that has already ended. */
    predicate Stale(now: int) {
      reset.Some? && reset.value <= now
    }

    /** A count that the signed storage column cannot hold, in a window still open. */
    predicate Oversized(now: int) {
      !Stale(now) && remaining.Some? && remaining.value > I64_MAX
    }
  }

  datatype Quota = Quota(
    day: int, consumed: nat, cooldown: Option<int>, unknown: bool, remaining: Option<nat>, reset: Option<int>)
  {
    /** Exhaustion without a known reset is always paced by a cooldown. */
    predicate Paced() {
      remaining == Some(0) && reset.None? ==> cooldown.Some?
    }
  }

  datatype Rows = Rows(quota: Quota, attempts: seq<int>)

  // ---- Changes to a row ----

  function ExpireFeedback(q: Quota, now: int): Quota {
    var q1 := if q.reset.Some? && q.reset.value <= now then q.(remaining := None, reset := None) else q;
    if q1.cooldown.Some? && q1.cooldown.value <= now then
      q1.(cooldown := None, unknown := false,
          remaining := if q1.reset.None? && q1.remaining == Some(0) then None else q1.remaining)
    else
      q1
  }

  /** Moves a row to the UTC day of `now`; a row of a later day is corrupt. */
  function AdvanceDay(q: Quota, now: int): Result<Quota, StorageError> {
    if DayOf(now) < q.day then
      Err(InvalidData)
    else if DayOf(now) > q.day then
      Ok(ExpireFeedback(
           q.(day := DayOf(now), consumed := 0, remaining := if q.reset.None? then None else q.remaining), now))
    else
      Ok(ExpireFeedback(q, now))
  }

  function EnsureUnknownCooldown(q: Quota, now: int): Quota {
    if q.remaining == Some(0) && q.reset.None? && q.cooldown.None? then
      q.(cooldown := Some(now + MINUTE), unknown := true)
    else
      q
  }

  /** The later of two cooldowns; equal ones are unknown if either is. */
  function RaiseCooldown(q: Quota, f: Feedback, now: int): Quota {
    if f.cooldown.None? || f.cooldown.value <= now then q
    else if q.cooldown.None? || f.cooldown.value > q.cooldown.value then
      q.(cooldown := f.cooldown, unknown := f.unknownReset)
    else if q.cooldown == f.cooldown then
      q.(unknown := q.unknown || f.unknownReset)
    else q
  }

  /** Remaining allowance after a report: a first report leaves room for attempts it may not have counted. */
  function LowerRemaining(local: Option<nat>, report: Option<nat>, unobserved: nat): Option<nat> {
    if report.None? then local
    else if local.None? then Some(SaturatingSub(report.value, unobserved))
    else Some(Min(local.value, report.value))
  }

  function LatestOf(a: Option<int>, b: Option<int>): Option<int> {
    if a.None? then b else if b.None? then a else Some(Max(a.value, b.value))
  }

  function ApplyFeedback(q: Quota, f: Feedback, now: int, unobserved: nat): Result<Quota, StorageError> {
    var cooled := RaiseCooldown(ExpireFeedback(q, now), f, now);
    if f.Stale(now) then Ok(cooled)
    else if f.Oversized(now) then Err(InvalidData)
    else
      Ok(EnsureUnknownCooldown(
           cooled.(remaining := LowerRemaining(cooled.remaining, f.remaining, unobserved),
                   reset := LatestOf(cooled.reset, f.reset)), now))
  }

  /** Two reports waiting together become one. */
  function MergeFeedback(a: Feedback, b: Feedback): Feedback {
    var (cooldown, unknown) :=
      if a.cooldown.Some? && b.cooldown.Some? && a.cooldown.value > b.cooldown.value then (a.cooldown, a.unknownReset)
      else if a.cooldown.Some? && a.cooldown == b.cooldown then (a.cooldown, a.unknownReset || b.unknownReset)
      else if b.cooldown.Some? then (b.cooldown, b.unknownReset)
      else if a.cooldown.Some? then (a.cooldown, a.unknownReset)
      else (None, false);
    Feedback(
      cooldown, unknown,
      if a.remaining.Some? && b.remaining.Some? then Some(Min(a.remaining.value, b.remaining.value))
      else if a.remaining.Some? then a.remaining else b.remaining,
      LatestOf(a.reset, b.reset))
  }

  // ---- Rolling-minute timestamps ----

  /** The timestamps still inside the minute that ends at `now`. */
  function Recent(attempts: seq<int>, now: int): seq<int> {
    if attempts == [] then []
    else if attempts[0] > now - MINUTE then [attempts[0]] + Recent(attempts[1..], now)
    else Recent(attempts[1..], now)
  }

  /** Where a new timestamp goes: after every one that is not later. */
  function InsertPoint(attempts: seq<int>, t: int): (k: nat)
    ensures k <= |attempts|
    ensures k > 0 ==> attempts[k - 1] <= t
    ensures forall i :: k <= i < |attempts| ==> attempts[i] > t
  {
    if attempts == [] || attempts[|attempts| - 1] <= t then |attempts|
    else InsertPoint(attempts[..|attempts| - 1], t)
  }

  function InsertAttempt(attempts: seq<int>, t: int): seq<int> {
    var k := InsertPoint(attempts, t);
    attempts[..k] + [t] + attempts[k..]
  }

  lemma {:induction false} RecentOfAppend(a: seq<int>, b: seq<int>, now: int)
    ensures Recent(a + b, now) == Recent(a, now) + Recent(b, now)
  {
    if a == [] {
      assert a + b == b;
    } else {
      var all := a + b;
      var tail, rest := Recent(a[1..], now), Recent(b, now);
      RecentOfAppend(a[1..], b, now);
      assert all[0] == a[0] && all[1..] == a[1..] + b;
      assert [a[0]] + (tail + rest) == ([a[0]] + tail) + rest;
    }
  }

  lemma {:induction false} RecentOfRecent(a: seq<int>, now: int, later: int)
    requires now <= later
    ensures Recent(Recent(a, now), later) == Recent(a, later)
  {
    if a != [] {
      RecentOfRecent(a[1..], now, later);
      if a[0] > now - MINUTE {
        assert ([a[0]] + Recent(a[1..], now))[1..] == Recent(a[1..], now);
      }
    }
  }

  /** On timestamps in order, the recent ones are the ones after the aged prefix. */
  lemma {:induction false} RecentIsSuffix(a: seq<int>, now: int)
    requires Sorted(a)
    ensures |Recent(a, now)| <= |a|
    ensures Recent(a, now) == a[|a| - |Recent(a, now)|..]
    ensures forall i :: 0 <= i < |a| ==> (a[i] > now - MINUTE <==> i >= |a| - |Recent(a, now)|)
  {
    if a == [] {
    } else if a[0] > now - MINUTE {
      assert forall i :: 0 <= i < |a| ==> a[i] >= a[0];
      RecentIsSuffix(a[1..], now);
      assert |a[1..]| > 0 ==> a[1..][0] == a[1];
      assert Recent(a[1..], now) == a[1..];
      assert Recent(a, now) == a;
    } else {
      RecentIsSuffix(a[1..], now);
      var k := |a[1..]| - |Recent(a[1..], now)|;
      assert a[1..][k..] == a[k + 1..];
      forall i | 0 <= i < |a| ensures a[i] > now - MINUTE <==> i >= |a| - |Recent(a, now)| {
        if i > 0 { assert a[i] == a[1..][i - 1]; }
      }
    }
  }

  lemma RecentSorted(a: seq<int>, now: int)
    requires Sorted(a)
    ensures Sorted(Recent(a, now))
  {
    RecentIsSuffix(a, now);
  }

  // ---- Refusal ----

  predicate CooldownBlocks(q: Quota, now: int) {
    q.cooldown.Some? && q.cooldown.value > now
  }

  predicate DayBlocks(q: Quota, limits: Limits) {
    q.consumed >= limits.day
  }

  predicate ProviderBlocks(q: Quota) {
    q.remaining == Some(0)
  }

  predicate MinuteBlocks(attempts: seq<int>, limits: Limits, now: int) {
    limits.minute > 0 && |Recent(attempts, now)| >= limits.minute
  }

  predicate Blocked(r: Rows, limits: Limits, now: int) {
    CooldownBlocks(r.quota, now) || DayBlocks(r.quota, limits) || ProviderBlocks(r.quota)
    || MinuteBlocks(r.attempts, limits, now)
  }

  /** Some blocking condition has no established end. */
  predicate EndUnknown(q: Quota, now: int) {
    (CooldownBlocks(q, now) && q.unknown)
    || (ProviderBlocks(q) && (q.reset.None? || q.reset.value <= now))
  }

  /** When each condition, if it blocks at `now`, is known to end. */
  function CooldownClears(q: Quota, now: int): int {
    if CooldownBlocks(q, now) then q.cooldown.value else now
  }

  function DayClears(q: Quota, limits: Limits, now: int): int {
    if DayBlocks(q, limits) then NextDay(now) else now
  }

  function ProviderClears(q: Quota, now: int): int {
    if ProviderBlocks(q) && q.reset.Some? then Max(now, q.reset.value) else now
  }

  function MinuteClears(attempts: seq<int>, limits: Limits, now: int): int {
    if MinuteBlocks(attempts, limits, now)
    then Recent(attempts, now)[|Recent(attempts, now)| - limits.minute] + MINUTE else now
  }

  /** The instant at which the last known blocking condition ends, or `now` when none blocks. */
  function ClearTime(r: Rows, limits: Limits, now: int): int {
    Max(now, Max(Max(CooldownClears(r.quota, now), DayClears(r.quota, limits, now)),
                 Max(ProviderClears(r.quota, now), MinuteClears(r.attempts, limits, now))))
  }

  datatype Decision = Decision(blocked: bool, retryAfter: Option<nat>)

  /** `now` is the effective clock, `actual` the wall clock that a caller would wait by. */
  function Decide(r: Rows, limits: Limits, now: int, actual: int): Decision {
    var blocked := actual < now || Blocked(r, limits, now);
    Decision(blocked,
             if blocked && !EndUnknown(r.quota, now)
             then Some(Max(1, DelaySeconds(ClearTime(r, limits, now), actual))) else None)
  }

  // ---- Transactions ----

  datatype Reservation = Reservation(rows: Rows, granted: bool, retryAfter: Option<nat>)

  /** Row and timestamps as a reservation finds them, after day change, waiting feedback and purge. */
  function Prepared(r: Rows, limits: Limits, waiting: Option<Feedback>, now: int): Result<Rows, StorageError> {
    match AdvanceDay(r.quota, now)
    case Err(e) => Err(e)
    case Ok(q1) =>
      match (if waiting.Some? then ApplyFeedback(q1, waiting.value, now, limits.unobserved) else Ok(q1))
      case Err(e) => Err(e)
      case Ok(q2) => Ok(Rows(q2, Recent(r.attempts, now)))
  }

  function Spend(r: Rows, limits: Limits, now: int): Rows {
    var q := r.quota.(consumed := r.quota.consumed + 1,
                      remaining := if r.quota.remaining.Some? then Some(SaturatingSub(r.quota.remaining.value, 1))
                                   else None);
    Rows(EnsureUnknownCooldown(q, now), if limits.minute > 0 then InsertAttempt(r.attempts, now) else r.attempts)
  }

  /** What `reserve` commits once the wall clock has reached the effective clock `now`. */
  function ReserveTx(r: Rows, limits: Limits, waiting: Option<Feedback>, now: int): Result<Reservation, StorageError> {
    match Prepared(r, limits, waiting, now)
    case Err(e) => Err(e)
    case Ok(p) =>
      var d := Decide(p, limits, now, now);
      Ok(Reservation(if d.blocked then p else Spend(p, limits, now), !d.blocked, d.retryAfter))
  }

  /** What `feedback` commits. */
  function SaveTx(r: Rows, limits: Limits, f: Feedback, now: int): Result<Rows, StorageError> {
    match ApplyFeedback(r.quota, f, now, limits.unobserved)
    case Err(e) => Err(e)
    case Ok(q) => Ok(r.(quota := q))
  }

  /** The read-only answer of `retry_after`. */
  function RetryAfter(r: Rows, limits: Limits, waiting: Option<Feedback>, highWater: int, wall: int)
    : Result<Option<nat>, StorageError>
  {
    var now := Max(highWater, wall);
    match AdvanceDay(r.quota, now)
    case Err(e) => Err(e)
    case Ok(q1) =>
      match (if waiting.Some? then ApplyFeedback(q1, waiting.value, now, limits.unobserved) else Ok(q1))
      case Err(e) => Err(e)
      case Ok(q2) => Ok(Decide(Rows(q2, r.attempts), limits, now, wall).retryAfter)
  }

  // ---- Facts about one operation ----

  /** A reservation fails only on a corrupt day or on a waiting count the column cannot hold. */
  lemma ReserveTxError(r: Rows, limits: Limits, waiting: Option<Feedback>, now: int)
    ensures ReserveTx(r, limits, waiting, now).Err? <==>
            (DayOf(now) < r.quota.day || (waiting.Some? && waiting.value.Oversized(now)))
  {
  }

  lemma PacedKept(q: Quota, f: Feedback, now: int, unobserved: nat)
    requires q.Paced()
    ensures ExpireFeedback(q, now).Paced()
    ensures AdvanceDay(q, now).Ok? ==> AdvanceDay(q, now).value.Paced()
    ensures ApplyFeedback(q, f, now, unobserved).Ok? ==> ApplyFeedback(q, f, now, unobserved).value.Paced()
  {
  }

  lemma InsertKeepsOrder(a: seq<int>, t: int)
    requires Sorted(a)
    ensures Sorted(InsertAttempt(a, t))
  {
    var k := InsertPoint(a, t);
    forall i | 0 <= i < k ensures a[i] <= t {
      assert a[i] <= a[k - 1];
    }
  }
}
