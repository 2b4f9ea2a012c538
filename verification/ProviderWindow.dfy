/**
 One provider window seen from both sides: the provider's own count of requests against a fixed
 allowance, and the quota engine, which learns of it only through response headers. Any events of the
 engine may happen in the window: headers wait, merge, fail to be saved, are applied by reservations,
 and are lost in restarts. The key is used by this service alone.
 */
module ProviderWindow {
  import opened Basics
  import opened QuotaSpec
  import opened QuotaEngine

  /**
   `before` reservations of the group are older than the window. The provider has counted `counted` of
   the later ones, and response `i` was produced when it had counted `produced[i]`.
   */
  datatype Account = Account(
    engine: Engine, group: ProviderId, allowance: nat, end: int, before: nat, counted: nat, produced: seq<nat>)
  {
    function Local(): Group {
      engine.groups.Get(group)
    }

    /** Reservations made in the window. */
    function Made(): int {
      |Local().grants| - before
    }

    /** The provider's remaining count less the reservations it has not counted yet. */
    function TrulyFree(): int {
      (allowance - counted) - (Made() - counted)
    }

    function HeaderValue(i: nat): nat
      requires i < |produced|
    {
      SaturatingSub(allowance, produced[i])
    }

    /** Reservations that header `i` does not reflect. */
    function Unreflected(i: nat): int
      requires i < |produced|
    {
      Made() - produced[i]
    }
  }

  datatype Event = Step(step: QuotaEngine.Event) | Count

  function Exec(a: Account, e: Event): Account {
    match e
    case Step(step) => a.(engine := QuotaEngine.Exec(a.engine, step))
    case Count =>
      if a.counted < a.Made() then a.(counted := a.counted + 1, produced := a.produced + [a.counted + 1]) else a
  }

  function Run(a: Account, events: seq<Event>): Account {
    if events == [] then a else Exec(Run(a, events[..|events| - 1]), events[|events| - 1])
  }

  // ---- What is assumed of a run ----

  /** A report of this window: a count only ever comes with the window's end, and is some response's. */
  ghost predicate FromHeader(a: Account, f: Feedback) {
    OfWindow(f, a.end)
    && (f.remaining.Some? ==> exists i :: 0 <= i < |a.produced| && f.remaining == Some(a.HeaderValue(i)))
  }

  /** The step makes an open transaction of the group durable. */
  predicate Lands(a: Account, e: Event) {
    e.Step? && LandsAny(a.engine, e.step) && a.engine.txn.group == a.group
  }

  predicate LandsAny(s: Engine, step: QuotaEngine.Event) {
    s.txn.Active? && s.txn.stage.Staged? && (step.Commit? || (step.Restart? && step.landed))
  }

  /** The first header applied, merged with others or not, may miss at most `unobserved` reservations. */
  ghost predicate FirstHeaderFresh(a: Account) {
    var t := a.engine.txn;
    t.Active? && t.saved.Some? && t.saved.value.feedback.remaining.Some? && a.Local().rows.quota.remaining.None? ==>
      exists i :: 0 <= i < |a.produced| && t.saved.value.feedback.remaining == Some(a.HeaderValue(i))
                  && a.Unreflected(i) <= a.Local().limits.unobserved
  }

  ghost predicate Allowed(a: Account, e: Event) {
    && (e.Step? && e.step.Submit? && e.step.group == a.group ==> FromHeader(a, e.step.feedback))
    && (Lands(a, e) ==> FirstHeaderFresh(a))
    && Exec(a, e).engine.durableHighWater < a.end
  }

  ghost predicate AllowedRun(a: Account, events: seq<Event>) {
    forall k :: 0 <= k < |events| ==> Allowed(Run(a, events[..k]), events[k])
  }

  // ---- The invariant ----

  predicate OfWindow(f: Feedback, end: int) {
    (f.reset.Some? ==> f.reset == Some(end)) && (f.remaining.Some? ==> f.reset.Some?)
  }

  /** A positive local count never exceeds what is truly free; it is known only together with its window. */
  predicate ConservativeRow(q: Quota, free: int, end: int) {
    && (q.remaining.Some? ==> q.reset.Some? && (q.remaining.value > 0 ==> q.remaining.value <= free))
    && (q.reset.Some? ==> q.reset == Some(end))
  }

  predicate Conservative(a: Account) {
    var t := a.engine.txn;
    && ConservativeRow(a.Local().rows.quota, a.TrulyFree(), a.end)
    && (a.Local().pending.Some? ==> OfWindow(a.Local().pending.value.feedback, a.end))
    && (t.Active? && t.group == a.group && t.saved.Some? ==> OfWindow(t.saved.value.feedback, a.end))
  }

  // ---- One row ----

  /** A first report leaves no more than is free, once room is left for what it may have missed. */
  predicate LeavesRoom(q: Quota, f: Feedback, unobserved: nat, free: int) {
    q.remaining.None? && f.remaining.Some? && SaturatingSub(f.remaining.value, unobserved) > 0 ==>
      SaturatingSub(f.remaining.value, unobserved) <= free
  }

  lemma AdvanceConservative(q: Quota, now: int, free: int, end: int)
    requires ConservativeRow(q, free, end) && now < end && AdvanceDay(q, now).Ok?
    ensures ConservativeRow(AdvanceDay(q, now).value, free, end)
    ensures AdvanceDay(q, now).value.remaining == q.remaining
  {
  }

  lemma ApplyConservative(q: Quota, f: Feedback, now: int, unobserved: nat, free: int, end: int)
    requires ConservativeRow(q, free, end) && OfWindow(f, end) && now < end && LeavesRoom(q, f, unobserved, free)
    requires ApplyFeedback(q, f, now, unobserved).Ok?
    ensures ConservativeRow(ApplyFeedback(q, f, now, unobserved).value, free, end)
  {
  }

  lemma SpendConservative(r: Rows, limits: Limits, now: int, free: int, end: int)
    requires ConservativeRow(r.quota, free, end) && !ProviderBlocks(r.quota)
    ensures ConservativeRow(Spend(r, limits, now).quota, free - 1, end)
    ensures Spend(r, limits, now).quota.remaining.Some? ==> free > 0
  {
  }

  lemma ReserveConservative(r: Rows, limits: Limits, waiting: Option<Feedback>, now: int, free: int, end: int)
    requires ConservativeRow(r.quota, free, end) && now < end
    requires waiting.Some? ==> OfWindow(waiting.value, end) && LeavesRoom(r.quota, waiting.value, limits.unobserved, free)
    requires ReserveTx(r, limits, waiting, now).Ok?
    ensures var res := ReserveTx(r, limits, waiting, now).value;
            && ConservativeRow(res.rows.quota, if res.granted then free - 1 else free, end)
            && (res.granted && res.rows.quota.remaining.Some? ==> free > 0)
  {
    AdvanceConservative(r.quota, now, free, end);
    var q := AdvanceDay(r.quota, now).value;
    if waiting.Some? {
      ApplyConservative(q, waiting.value, now, limits.unobserved, free, end);
    }
    var p := Prepared(r, limits, waiting, now).value;
    assert ConservativeRow(p.quota, free, end);
    if !Decide(p, limits, now, now).blocked {
      SpendConservative(p, limits, now, free, end);
    }
  }

  // ---- One step of the engine ----

  /** A header that misses few enough reservations leaves room for them. */
  lemma FreshLeavesRoom(a: Account)
    requires FirstHeaderFresh(a) && a.engine.txn.Active? && a.engine.txn.saved.Some?
    ensures LeavesRoom(a.Local().rows.quota, a.engine.txn.saved.value.feedback, a.Local().limits.unobserved,
                       a.TrulyFree())
  {
  }

  lemma EffectConservative(a: Account)
    requires Conservative(a) && FirstHeaderFresh(a) && a.engine.txn.Active? && a.engine.txn.group == a.group
    requires a.engine.txn.now < a.end && Effect(a.engine.txn, a.Local()).Some?
    ensures var h := Effect(a.engine.txn, a.Local()).value.0;
            var made := |h.grants| - |a.Local().grants|;
            && h.pending == a.Local().pending
            && ConservativeRow(h.rows.quota, a.TrulyFree() - made, a.end)
            && (made > 0 && h.rows.quota.remaining.Some? ==> made <= a.TrulyFree())
  {
    var t, g := a.engine.txn, a.Local();
    if t.saved.Some? { FreshLeavesRoom(a); }
    match t.kind
    case Reserving => ReserveConservative(g.rows, g.limits, Waiting(t.saved), t.now, a.TrulyFree(), a.end);
    case Saving =>
      if t.saved.Some? {
        ApplyConservative(g.rows.quota, t.saved.value.feedback, t.now, g.limits.unobserved, a.TrulyFree(), a.end);
      }
  }

  /** What a step that lands the open transaction makes of the group, whichever group that was. */
  lemma LandConservative(a: Account)
    requires Conservative(a) && a.engine.txn.Active? && Land(a.engine).durableHighWater < a.end
    requires a.engine.txn.group == a.group ==> FirstHeaderFresh(a)
    ensures var h := Land(a.engine).groups.Get(a.group);
            var made := |h.grants| - |a.Local().grants|;
            && h.pending == a.Local().pending
            && ConservativeRow(h.rows.quota, a.TrulyFree() - made, a.end)
            && (made > 0 && h.rows.quota.remaining.Some? ==> made <= a.TrulyFree())
  {
    if a.engine.txn.group == a.group && Effect(a.engine.txn, a.Local()).Some? {
      EffectConservative(a);
    }
  }

  lemma LandingStep(a: Account, step: QuotaEngine.Event)
    requires LandsAny(a.engine, step)
    ensures var b := QuotaEngine.Exec(a.engine, step);
            && b.durableHighWater == Land(a.engine).durableHighWater
            && b.groups.Get(a.group).rows == Land(a.engine).groups.Get(a.group).rows
            && b.groups.Get(a.group).grants == Land(a.engine).groups.Get(a.group).grants
  {
  }

  /** Steps that land nothing change neither row nor history. */
  lemma OtherStepsKeepRows(a: Account, step: QuotaEngine.Event)
    requires !LandsAny(a.engine, step)
    ensures var h := Exec(a, Step(step)).Local();
            h.rows == a.Local().rows && h.grants == a.Local().grants
  {
  }

  lemma WaitingStaysOfWindow(a: Account, step: QuotaEngine.Event)
    requires Conservative(a)
    requires step.Submit? && step.group == a.group ==> OfWindow(step.feedback, a.end)
    ensures var b := Exec(a, Step(step));
            var t := b.engine.txn;
            && (b.Local().pending.Some? ==> OfWindow(b.Local().pending.value.feedback, a.end))
            && (t.Active? && t.group == a.group && t.saved.Some? ==> OfWindow(t.saved.value.feedback, a.end))
  {
  }

  lemma StepConservative(a: Account, e: Event)
    requires Conservative(a) && Allowed(a, e)
    ensures Conservative(Exec(a, e))
    ensures Exec(a, e).Made() > a.Made() && Exec(a, e).Local().rows.quota.remaining.Some? ==>
              Exec(a, e).TrulyFree() >= 0
  {
    match e
    case Count =>
    case Step(step) =>
      WaitingStaysOfWindow(a, step);
      if LandsAny(a.engine, step) {
        LandingStep(a, step);
        LandConservative(a);
      } else {
        OtherStepsKeepRows(a, step);
      }
  }

  // ---- Whole runs ----

  /** Over every run of the engine within the window, nothing local permits more than the provider still has. */
  lemma {:induction false} RunConservative(a: Account, events: seq<Event>)
    requires Conservative(a) && AllowedRun(a, events)
    ensures var b := Run(a, events);
            Conservative(b) && b.end == a.end && b.allowance == a.allowance && b.group == a.group
  {
    if events != [] {
      var n := |events| - 1;
      forall k | 0 <= k < n ensures Allowed(Run(a, events[..n][..k]), events[..n][k]) {
        assert events[..n][..k] == events[..k];
      }
      RunConservative(a, events[..n]);
      StepConservative(Run(a, events[..n]), events[n]);
    }
  }

  /** While the window's count is known, no reservation exceeds the provider's allowance. */
  lemma KnownWindowNeverOverspent(a: Account, events: seq<Event>, e: Event)
    requires Conservative(a) && AllowedRun(a, events + [e])
    requires Exec(Run(a, events), e).Made() > Run(a, events).Made()
    requires Exec(Run(a, events), e).Local().rows.quota.remaining.Some?
    ensures Exec(Run(a, events), e).Made() <= a.allowance
  {
    var all := events + [e];
    forall k | 0 <= k < |events| ensures Allowed(Run(a, events[..k]), events[k]) {
      assert all[k] == events[k] && all[..k] == events[..k];
    }
    assert all[|events|] == e && all[..|events|] == events;
    RunConservative(a, events);
    StepConservative(Run(a, events), e);
  }

  /** The room left for a first header is enough exactly when it covers what the header does not reflect. */
  lemma FirstHeaderIff(a: Account, i: nat, now: int)
    requires i < |a.produced| && now < a.end && a.allowance <= I64_MAX
    requires a.Local().rows.quota.remaining.None? && a.Local().rows.quota.reset.None?
    ensures var unobserved := a.Local().limits.unobserved;
            var header := Feedback(None, false, Some(a.HeaderValue(i)), Some(a.end));
            var saved := SaveTx(a.Local().rows, a.Local().limits, header, now);
            saved.Ok?
            && (ConservativeRow(saved.value.quota, a.TrulyFree(), a.end)
                <==> a.Unreflected(i) <= unobserved || a.HeaderValue(i) <= unobserved)
  {
  }
}
