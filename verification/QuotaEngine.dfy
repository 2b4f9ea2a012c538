/**
 The durable quota engine as a state machine. A group's rows survive a crash, its waiting feedback
 does not; the storage gate admits one transaction at a time, while feedback may be submitted between
 any two steps. Everything the environment decides is in the event: wall times (in any order), whether
 a commit lands and is reported, cancellation, restarts and the limits configured by each process.
 */
module QuotaEngine {
  import opened Basics
  import opened Time
  import opened QuotaSpec

  /**
   A committed reservation, with the limits in force when it was made. With a minute cap of zero no
   timestamp is recorded.
   */
  datatype Grant = Grant(time: int, minuteCap: nat, dayCap: nat)

  /** `generation` counts submissions; the code keeps it in a wrapping 64-bit counter. */
  datatype Pending = Pending(generation: nat, feedback: Feedback)

  predicate SameGeneration(a: nat, b: nat) {
    a % TWO_64 == b % TWO_64
  }

  /**
   `rows` is durable and `pending` volatile. The rest is history: every committed reservation ever,
   every report submitted to this process, and the index of each grant whose caller was told Ok.
   */
  datatype Group = Group(
    rows: Rows, pending: Option<Pending>, limits: Limits,
    grants: seq<Grant>, submitted: seq<Feedback>, dispatched: seq<int>)

  datatype Kind = Reserving | Saving

  /** `granted` is meaningful from the commit on. */
  datatype Stage = Staged | Committed(granted: bool) | Cleared(granted: bool)

  /** `seen` and `base` are the numbers of reports of the group, and of all groups, at the snapshot. */
  datatype Txn =
    | Idle
    | Active(kind: Kind, group: ProviderId, now: int, saved: Option<Pending>, seen: nat, base: nat, stage: Stage)

  datatype Engine = Engine(
    durableHighWater: int, highWater: int, submissions: nat, groups: PerProvider<Group>, txn: Txn)

  datatype Event =
    | Submit(group: ProviderId, feedback: Feedback)
    | BeginReserve(group: ProviderId, wall: int)
    | BeginSave(group: ProviderId, wall: int)
    | Abort
    | Commit(reported: bool)
    | Clear
    | Finish(late: bool)
    | Observe(wall: int)
    | Restart(wall: int, limits: PerProvider<Limits>, landed: bool)

  predicate Legal(e: Event) {
    e.Restart? ==> forall p :: e.limits.Get(p).Valid()
  }

  function FreshGroup(wall: int, limits: Limits): Group {
    Group(Rows(Quota(DayOf(wall), 0, None, false, None, None), []), None, limits, [], [], [])
  }

  /** A newly created database. */
  function Initial(wall: int, limits: PerProvider<Limits>): Engine {
    Engine(wall, wall, 0,
           PerProvider(FreshGroup(wall, limits.abuseipdb), FreshGroup(wall, limits.virustotal)), Idle)
  }

  // ---- Steps ----

  function SubmitTo(g: Group, generation: nat, f: Feedback): Group {
    g.(pending := Some(Pending(generation, if g.pending.Some? then MergeFeedback(g.pending.value.feedback, f) else f)),
       submitted := g.submitted + [f])
  }

  function Begin(s: Engine, kind: Kind, p: ProviderId, wall: int): Engine {
    var now := Max(s.highWater, wall);
    var g := s.groups.Get(p);
    if (kind == Reserving && wall < now) || (kind == Saving && g.pending.None?) then
      s.(highWater := now)
    else
      s.(highWater := now, txn := Active(kind, p, now, g.pending, |g.submitted|, s.submissions, Staged))
  }

  function Waiting(p: Option<Pending>): Option<Feedback> {
    if p.Some? then Some(p.value.feedback) else None
  }

  function WithGrant(g: Group, now: int): Group {
    g.(grants := g.grants + [Grant(now, g.limits.minute, g.limits.day)])
  }

  /** What a committed transaction makes of its group, and whether it granted; None if it fails first. */
  function Effect(t: Txn, g: Group): Option<(Group, bool)>
    requires t.Active?
  {
    match t.kind
    case Reserving =>
      (match ReserveTx(g.rows, g.limits, Waiting(t.saved), t.now)
       case Err(_) => None
       case Ok(res) =>
         var g1 := g.(rows := res.rows);
         Some((if res.granted then WithGrant(g1, t.now) else g1, res.granted)))
    case Saving =>
      if t.saved.None? then Some((g, false))
      else
        match SaveTx(g.rows, g.limits, t.saved.value.feedback, t.now)
        case Err(_) => None
        case Ok(rows) => Some((g.(rows := rows), false))
  }

  /** The transaction's writes, durable all at once. */
  function Land(s: Engine): Engine
    requires s.txn.Active?
  {
    match Effect(s.txn, s.groups.Get(s.txn.group))
    case None => s
    case Some((g, _)) =>
      s.(groups := s.groups.Set(s.txn.group, g), durableHighWater := Max(s.durableHighWater, s.txn.now))
  }

  function CommitTxn(s: Engine, reported: bool): Engine
    requires s.txn.Active?
  {
    match Effect(s.txn, s.groups.Get(s.txn.group))
    case None => s.(txn := Idle)
    case Some((_, granted)) =>
      Land(s).(txn := if reported then s.txn.(stage := Committed(granted)) else Idle)
  }

  function ClearPending(g: Group, saved: Option<Pending>): Group {
    if saved.Some? && g.pending.Some? && SameGeneration(g.pending.value.generation, saved.value.generation)
    then g.(pending := None) else g
  }

  /** The check after the commit: anything waiting again means the reservation may not be used. */
  function FinishTxn(s: Engine, late: bool): Engine
    requires s.txn.Active? && s.txn.stage.Cleared?
  {
    var g := s.groups.Get(s.txn.group);
    if s.txn.kind == Reserving && s.txn.stage.granted && g.pending.None? && !late then
      s.(txn := Idle,
         groups := s.groups.Set(s.txn.group, g.(dispatched := g.dispatched + [|g.grants| - 1])))
    else
      s.(txn := Idle)
  }

  function Reopen(g: Group, limits: Limits): Group {
    g.(pending := None, limits := limits, submitted := [])
  }

  /** A crash, with an open transaction landing or not, and the start of the next process. */
  function RestartEngine(s: Engine, wall: int, limits: PerProvider<Limits>, landed: bool): Engine {
    var d := if landed && s.txn.Active? && s.txn.stage.Staged? then Land(s) else s;
    Engine(d.durableHighWater, Max(d.durableHighWater, wall), 0,
           PerProvider(Reopen(d.groups.abuseipdb, limits.abuseipdb), Reopen(d.groups.virustotal, limits.virustotal)),
           Idle)
  }

  /** One step; an event that is not enabled changes nothing. */
  function Exec(s: Engine, e: Event): Engine {
    match e
    case Submit(p, f) =>
      s.(submissions := s.submissions + 1,
         groups := s.groups.Set(p, SubmitTo(s.groups.Get(p), s.submissions + 1, f)))
    case BeginReserve(p, wall) => if s.txn.Idle? then Begin(s, Reserving, p, wall) else s
    case BeginSave(p, wall) => if s.txn.Idle? then Begin(s, Saving, p, wall) else s
    case Abort => if s.txn.Active? && s.txn.stage.Staged? then s.(txn := Idle) else s
    case Commit(reported) => if s.txn.Active? && s.txn.stage.Staged? then CommitTxn(s, reported) else s
    case Clear =>
      if s.txn.Active? && s.txn.stage.Committed? then
        s.(txn := s.txn.(stage := Cleared(s.txn.stage.granted)),
           groups := s.groups.Set(s.txn.group, ClearPending(s.groups.Get(s.txn.group), s.txn.saved)))
      else s
    case Finish(late) => if s.txn.Active? && s.txn.stage.Cleared? then FinishTxn(s, late) else s
    case Observe(wall) => if s.txn.Idle? then s.(highWater := Max(s.highWater, wall)) else s
    case Restart(wall, limits, landed) => RestartEngine(s, wall, limits, landed)
  }

  function Run(s: Engine, events: seq<Event>): Engine {
    if events == [] then s else Exec(Run(s, events[..|events| - 1]), events[|events| - 1])
  }

  // ---- Counting the history ----

  /** The recorded reservation times, in order. */
  function Times(grants: seq<Grant>): seq<int> {
    if grants == [] then []
    else
      var last := grants[|grants| - 1];
      Times(grants[..|grants| - 1]) + (if last.minuteCap > 0 then [last.time] else [])
  }

  function CountDay(grants: seq<Grant>, day: int): nat {
    if grants == [] then 0
    else CountDay(grants[..|grants| - 1], day) + (if DayOf(grants[|grants| - 1].time) == day then 1 else 0)
  }

  /** Grant `i` respected the minute cap in force: it and the recorded ones of the minute before it. */
  ghost predicate WithinMinute(grants: seq<Grant>, i: int)
    requires 0 <= i < |grants|
  {
    grants[i].minuteCap > 0 ==> |Recent(Times(grants[..i + 1]), grants[i].time)| <= grants[i].minuteCap
  }

  /** Grant `i` respected the day cap in force: it and the ones before it on its UTC day. */
  ghost predicate WithinDay(grants: seq<Grant>, i: int)
    requires 0 <= i < |grants|
  {
    CountDay(grants[..i + 1], DayOf(grants[i].time)) <= grants[i].dayCap
  }

  // ---- Invariants of one group ----

  ghost predicate GrantsOrdered(grants: seq<Grant>, highWater: int) {
    (forall i, j :: 0 <= i < j < |grants| ==> grants[i].time <= grants[j].time)
    && forall i :: 0 <= i < |grants| ==> grants[i].time <= highWater
  }

  /** The stored timestamps answer every later window question as the full history would. */
  ghost predicate WindowFaithful(g: Group, highWater: int) {
    Sorted(g.rows.attempts)
    && (forall i :: 0 <= i < |g.rows.attempts| ==> g.rows.attempts[i] <= highWater)
    && forall t :: t >= highWater ==> Recent(g.rows.attempts, t) == Recent(Times(g.grants), t)
  }

  /** The stored counter is the number of grants of the stored day, which no grant is later than. */
  ghost predicate DayFaithful(g: Group, highWater: int) {
    g.rows.quota.day <= DayOf(highWater)
    && (forall i :: 0 <= i < |g.grants| ==> DayOf(g.grants[i].time) <= g.rows.quota.day)
    && g.rows.quota.consumed == CountDay(g.grants, g.rows.quota.day)
  }

  ghost predicate CapsRespected(grants: seq<Grant>) {
    forall i :: 0 <= i < |grants| ==> WithinMinute(grants, i) && WithinDay(grants, i)
  }

  /** Every grant is dispatched at most once, in order. */
  ghost predicate DispatchedOnce(g: Group) {
    (forall i :: 0 <= i < |g.dispatched| ==> g.dispatched[i] < |g.grants|)
    && forall i, j :: 0 <= i < j < |g.dispatched| ==> g.dispatched[i] < g.dispatched[j]
  }

  /** A cooldown until `c` has passed, is stored, or is waiting to be stored. */
  predicate Covered(c: int, now: int, q: Quota, waiting: Option<Feedback>) {
    c <= now
    || (q.cooldown.Some? && q.cooldown.value >= c)
    || (waiting.Some? && waiting.value.cooldown.Some? && waiting.value.cooldown.value >= c)
  }

  ghost predicate AllCovered(submitted: seq<Feedback>, now: int, q: Quota, waiting: Option<Feedback>) {
    forall i :: 0 <= i < |submitted| && submitted[i].cooldown.Some? ==>
      Covered(submitted[i].cooldown.value, now, q, waiting)
  }

  /** The durable half of the invariant. */
  ghost predicate DurableInv(g: Group, highWater: int) {
    g.limits.Valid()
    && g.rows.quota.Paced()
    && GrantsOrdered(g.grants, highWater)
    && WindowFaithful(g, highWater)
    && DayFaithful(g, highWater)
    && CapsRespected(g.grants)
    && DispatchedOnce(g)
  }

  /** The volatile half: no submitted cooldown is lost. */
  ghost predicate FeedbackInv(g: Group, highWater: int, submissions: nat) {
    (g.pending.Some? ==> g.pending.value.generation <= submissions)
    && AllCovered(g.submitted, highWater, g.rows.quota, Waiting(g.pending))
  }

  /** An open transaction runs at the effective clock, and its grant is the newest and not yet dispatched. */
  ghost predicate TxnAccount(s: Engine) {
    s.txn.Active? ==>
      var t := s.txn;
      var g := s.groups.Get(t.group);
      && t.now == s.highWater
      && (t.kind == Saving ==> t.saved.Some?)
      && (!t.stage.Staged? && t.stage.granted ==>
            && t.kind == Reserving
            && |g.grants| > 0
            && g.grants[|g.grants| - 1].time == t.now
            && forall i :: 0 <= i < |g.dispatched| ==> g.dispatched[i] < |g.grants| - 1)
  }

  /** What an open transaction knows of the reports submitted before and after its snapshot. */
  ghost predicate TxnRetention(s: Engine) {
    s.txn.Active? ==>
      var t := s.txn;
      var g := s.groups.Get(t.group);
      && t.seen <= |g.submitted| && t.base <= s.submissions
      && (t.saved.Some? ==> t.saved.value.generation <= t.base)
      && (|g.submitted| > t.seen ==> g.pending.Some? && g.pending.value.generation > t.base)
      && (|g.submitted| == t.seen ==> g.pending == if t.stage.Cleared? then None else t.saved)
      && AllCovered(g.submitted[..t.seen], t.now, g.rows.quota, if t.stage.Staged? then Waiting(t.saved) else None)
      && (!t.stage.Staged? && t.stage.granted ==>
            forall i :: 0 <= i < t.seen && g.submitted[i].cooldown.Some? ==> g.submitted[i].cooldown.value <= t.now)
  }

  /** The accounting invariant: it needs no assumption at all. */
  ghost predicate AccountInv(s: Engine) {
    s.durableHighWater <= s.highWater
    && (forall p :: DurableInv(s.groups.Get(p), s.durableHighWater))
    && TxnAccount(s)
  }

  /** The retention invariant: it relies on the generation counter not having wrapped. */
  ghost predicate RetentionInv(s: Engine) {
    (forall p :: FeedbackInv(s.groups.Get(p), s.highWater, s.submissions))
    && TxnRetention(s)
  }
}
