/**
 The lookup service and the quota engine together. A lookup enters the storage gate when it begins a
 transaction of the engine, and what it is told on leaving is what that transaction did. Every request sent
 upstream, by any lookup of any process, then has its own reservation that the engine granted and dispatched.
 */
module PaidSends {
  import opened Basics
  import opened QuotaSpec
  import L = SharedLookup
  import LP = SharedLookupProofs
  import LT = SharedLookupTheorems
  import LA = SharedLookupAnswers
  import Q = QuotaEngine
  import QI = QuotaInvariant
  import QT = QuotaTheorems

  /** A committed reservation, by its position among the grants of its group. */
  datatype Ref = Ref(provider: ProviderId, index: int)

  /**
   `entered` is the number of grants of its group when the lookup in the gate entered. History: `paid` names the
   reservation behind each ledger entry of this process, `sends` the one behind each request of every process.
   */
  datatype Joint = Joint(service: L.Service, engine: Q.Engine, entered: int, paid: seq<Ref>, sends: seq<Ref>)

  datatype Event =
    | Lookup(step: L.Event)
    | Inside(change: Q.Event)
    | Enter(flight: nat, wall: int)
    | Leave(flight: nat, timedOut: bool, late: bool, refused: bool)
    | Interrupt(flight: nat, code: L.ErrorCode)
    | Restart(wall: int, limits: PerProvider<Limits>, landed: bool)

  function Grants(e: Q.Engine, p: ProviderId): seq<Q.Grant> {
    e.groups.Get(p).grants
  }

  function Dispatched(e: Q.Engine, p: ProviderId): seq<int> {
    e.groups.Get(p).dispatched
  }

  /** Steps of lookups and callers away from the gate. */
  predicate Ungated(e: L.Event) {
    !e.EnterGate? && !e.LeaveGate? && !e.Release? && !e.Break?
  }

  /** Steps of the engine other than a transaction's beginning and end. */
  predicate Inner(e: Q.Event) {
    e.Submit? || e.Commit? || e.Clear? || e.Abort? || e.Observe?
  }

  /** Whoever leaves the gate leaves no transaction open: it is rolled back, or its check completed. */
  function Close(e: Q.Engine, timedOut: bool): Q.Engine {
    Q.Exec(Q.Exec(Q.Exec(e, Q.Abort), Q.Clear), Q.Finish(timedOut))
  }

  function Begin(e: Q.Engine, visit: L.Visit, p: ProviderId, wall: int): Q.Engine {
    match visit
    case Reserving => Q.Exec(e, Q.BeginReserve(p, wall))
    case Saving => Q.Exec(e, Q.BeginSave(p, wall))
    case Asking(_) => e
  }

  function EnterGate(j: Joint, config: L.Config, i: nat, wall: int): Joint
    requires i < |j.service.owners| && j.service.owners[i].stage.WantGate?
  {
    var f := j.service.owners[i];
    var p := f.key.provider;
    j.(service := L.Exec(j.service, config, L.EnterGate(i)),
       engine := Begin(j.engine, f.stage.visit, p, wall), entered := |Grants(j.engine, p)|)
  }

  /** What a reservation is told, from what its transaction did; without a commit the event says which error. */
  function ReplyOf(j: Joint, closed: Q.Engine, p: ProviderId, refused: bool): L.Reply {
    if |Dispatched(closed, p)| > |Dispatched(j.engine, p)| then L.Granted
    else if |Grants(closed, p)| > j.entered then L.Lost(true)
    else if refused then L.Refused else L.Lost(false)
  }

  function LeaveGate(j: Joint, config: L.Config, i: nat, timedOut: bool, late: bool, refused: bool): Joint
    requires i < |j.service.owners| && j.service.owners[i].stage.InGate?
  {
    var f := j.service.owners[i];
    var p := f.key.provider;
    var closed := Close(j.engine, timedOut);
    if f.stage.visit.Reserving? then
      var reply := ReplyOf(j, closed, p, refused);
      var ref := Ref(p, |Grants(closed, p)| - 1);
      j.(service := L.Exec(j.service, config, L.LeaveGate(i, reply, late)), engine := closed,
         paid := j.paid + (if reply == L.Granted || reply == L.Lost(true) then [ref] else []),
         sends := j.sends + (if reply == L.Granted && !late then [ref] else []))
    else
      j.(service := L.Exec(j.service, config, L.Release(i)), engine := closed)
  }

  /** A lookup's task is cut short, by its deadline, an error or a panic. */
  function Interrupted(j: Joint, config: L.Config, i: nat, code: L.ErrorCode): Joint
    requires i < |j.service.owners|
  {
    var f := j.service.owners[i];
    var p := f.key.provider;
    if f.stage.InGate? then
      var closed := Close(j.engine, true);
      var committed := f.stage.visit.Reserving? && |Grants(closed, p)| > j.entered;
      j.(service := L.Exec(j.service, config, L.Break(i, code, committed)), engine := closed,
         paid := j.paid + (if committed then [Ref(p, |Grants(closed, p)| - 1)] else []))
    else
      j.(service := L.Exec(j.service, config, L.Break(i, code, false)))
  }

  function Exec(j: Joint, config: L.Config, e: Event): Joint {
    match e
    case Lookup(step) => if Ungated(step) then j.(service := L.Exec(j.service, config, step)) else j
    case Inside(change) => if Inner(change) then j.(engine := Q.Exec(j.engine, change)) else j
    case Enter(i, wall) =>
      if i < |j.service.owners| && j.service.owners[i].stage.WantGate? && j.service.gate.None?
      then EnterGate(j, config, i, wall) else j
    case Leave(i, timedOut, late, refused) =>
      if i < |j.service.owners| && j.service.owners[i].stage.InGate?
      then LeaveGate(j, config, i, timedOut, late, refused) else j
    case Interrupt(i, code) => if i < |j.service.owners| then Interrupted(j, config, i, code) else j
    case Restart(wall, limits, landed) =>
      Joint(L.Start(config), Q.Exec(j.engine, Q.Restart(wall, limits, landed)), 0, [], j.sends)
  }

  function Start(config: L.Config, wall: int, limits: PerProvider<Limits>): Joint {
    Joint(L.Start(config), Q.Initial(wall, limits), 0, [], [])
  }

  function Run(j: Joint, config: L.Config, events: seq<Event>): Joint {
    if events == [] then j else Exec(Run(j, config, events[..|events| - 1]), config, events[|events| - 1])
  }

  ghost predicate Legal(e: Event) {
    e.Restart? ==> forall p :: e.limits.Get(p).Valid()
  }

  ghost predicate ValidRun(limits: PerProvider<Limits>, events: seq<Event>) {
    (forall p :: limits.Get(p).Valid()) && forall i :: 0 <= i < |events| ==> Legal(events[i])
  }

  // ---- The invariant ----

  /** A transaction is open only while a lookup is in the gate, for that lookup's provider. */
  predicate GateLink(s: L.Service, e: Q.Engine, entered: int) {
    match s.gate
    case None => e.txn.Idle?
    case Some(i) =>
      i < |s.owners|
      && var p := s.owners[i].key.provider;
         0 <= entered <= |Grants(e, p)|
         && (e.txn.Active? ==>
               e.txn.group == p && (!e.txn.stage.Staged? && e.txn.stage.granted ==> entered < |Grants(e, p)|))
  }

  /** How many reservations of a group the ledger can name: while one is being made, those before it. */
  function Bound(s: L.Service, e: Q.Engine, entered: int, p: ProviderId): int {
    if s.gate.Some? && s.gate.value < |s.owners| && s.owners[s.gate.value].key.provider == p then entered
    else |Grants(e, p)|
  }

  /** Each ledger entry is a reservation of its lookup's provider, and no two are the same one. */
  ghost predicate PaidOk(s: L.Service, e: Q.Engine, entered: int, paid: seq<Ref>) {
    && |paid| == |s.ledger|
    && (forall k :: 0 <= k < |paid| ==>
          && s.ledger[k] < |s.owners| && paid[k].provider == s.owners[s.ledger[k]].key.provider
          && 0 <= paid[k].index < Bound(s, e, entered, paid[k].provider))
    && Distinct(paid)
  }

  ghost predicate Distinct(refs: seq<Ref>) {
    forall a, b :: 0 <= a < b < |refs| ==> refs[a] != refs[b]
  }

  ghost predicate SendsOk(e: Q.Engine, sends: seq<Ref>) {
    (forall k :: 0 <= k < |sends| ==> sends[k].index in Dispatched(e, sends[k].provider)) && Distinct(sends)
  }

  /** The reservation that each send of each lookup used is one that was sent on. */
  ghost predicate TokensOk(owners: seq<L.Flight>, paid: seq<Ref>, sends: seq<Ref>) {
    forall i :: 0 <= i < |owners| ==> FlightPaid(owners[i], paid, sends)
  }

  ghost predicate FlightPaid(f: L.Flight, paid: seq<Ref>, sends: seq<Ref>) {
    forall k :: 0 <= k < |f.tokens| ==> f.tokens[k] < |paid| && paid[f.tokens[k]] in sends
  }

  ghost predicate Inv(j: Joint, config: L.Config) {
    && L.Inv(j.service, config)
    && Q.AccountInv(j.engine)
    && GateLink(j.service, j.engine, j.entered)
    && PaidOk(j.service, j.engine, j.entered, j.paid)
    && SendsOk(j.engine, j.sends)
    && TokensOk(j.service.owners, j.paid, j.sends)
  }

  // ---- The engine's part ----

  /** What a step of the engine inside a transaction may do: commit more grants for its group, and no more. */
  ghost predicate InnerEffect(e: Q.Engine, n: Q.Engine) {
    && (forall p :: |Grants(e, p)| <= |Grants(n, p)| && Dispatched(n, p) == Dispatched(e, p))
    && (forall p :: e.txn.Idle? || p != e.txn.group ==> Grants(n, p) == Grants(e, p))
    && (n.txn.Active? ==>
          e.txn.Active? && n.txn.group == e.txn.group
          && (Dispatches(n, n.txn.group) ==>
                Dispatches(e, e.txn.group) || |Grants(e, e.txn.group)| < |Grants(n, e.txn.group)|))
  }

  lemma InnerStep(e: Q.Engine, step: Q.Event)
    requires Inner(step)
    ensures InnerEffect(e, Q.Exec(e, step))
  {
    if step.Commit? && e.txn.Active? && e.txn.stage.Staged? {
      CommitStep(e, step.reported);
    }
  }

  lemma CommitStep(e: Q.Engine, reported: bool)
    requires e.txn.Active? && e.txn.stage.Staged?
    ensures InnerEffect(e, Q.CommitTxn(e, reported))
  {
    if Q.Effect(e.txn, e.groups.Get(e.txn.group)).Some? {
      QT.EffectKeepsGrants(e.txn, e.groups.Get(e.txn.group));
      EffectCounts(e.txn, e.groups.Get(e.txn.group));
    }
  }

  lemma EffectCounts(t: Q.Txn, g: Q.Group)
    requires t.Active? && Q.Effect(t, g).Some?
    ensures var (h, granted) := Q.Effect(t, g).value;
            h.dispatched == g.dispatched && |h.grants| == |g.grants| + if granted then 1 else 0
  {
  }

  lemma BeginStep(e: Q.Engine, visit: L.Visit, p: ProviderId, wall: int)
    requires Q.AccountInv(e) && e.txn.Idle?
    ensures var b := Begin(e, visit, p, wall);
            && Q.AccountInv(b) && b.groups == e.groups
            && (b.txn.Active? ==> b.txn.group == p && b.txn.stage.Staged?)
  {
    match visit
    case Reserving => QI.StepKeepsAccount(e, Q.BeginReserve(p, wall));
    case Saving => QI.StepKeepsAccount(e, Q.BeginSave(p, wall));
    case Asking(_) =>
  }

  /** Rolling back and clearing change no history. */
  lemma SettleStep(e: Q.Engine)
    requires Q.AccountInv(e)
    ensures var c := Q.Exec(Q.Exec(e, Q.Abort), Q.Clear);
            && Q.AccountInv(c)
            && (forall p :: Grants(c, p) == Grants(e, p) && Dispatched(c, p) == Dispatched(e, p))
            && (c.txn.Active? ==> c.txn.stage.Cleared?)
            && (forall p :: Dispatches(c, p) ==> Dispatches(e, p))
  {
    QI.StepKeepsAccount(e, Q.Abort);
    QI.StepKeepsAccount(Q.Exec(e, Q.Abort), Q.Clear);
    AbortStep(e);
  }

  lemma AbortStep(e: Q.Engine)
    ensures var c := Q.Exec(e, Q.Abort);
            c.groups == e.groups && (c.txn == e.txn || c.txn.Idle?) && (c.txn.Active? ==> !c.txn.stage.Staged?)
  {
  }

  lemma FinishStep(e: Q.Engine, timedOut: bool)
    requires Q.AccountInv(e) && (e.txn.Active? ==> e.txn.stage.Cleared?)
    ensures var c := Q.Exec(e, Q.Finish(timedOut));
            && Q.AccountInv(c) && c.txn.Idle?
            && (forall p :: Grants(c, p) == Grants(e, p))
            && (forall p :: Dispatched(c, p) == Dispatched(e, p)
                            || (Dispatches(e, p) && !timedOut
                                && Dispatched(c, p) == Dispatched(e, p) + [|Grants(e, p)| - 1]))
  {
    QI.StepKeepsAccount(e, Q.Finish(timedOut));
  }

  /** Closing dispatches at most the newest grant of the open transaction's group, which was not dispatched yet. */
  lemma CloseStep(e: Q.Engine, timedOut: bool)
    requires Q.AccountInv(e)
    ensures var c := Close(e, timedOut);
            && Q.AccountInv(c) && c.txn.Idle?
            && (forall p :: Grants(c, p) == Grants(e, p))
            && (forall p :: Dispatched(c, p) == Dispatched(e, p)
                            || (Dispatches(e, p) && !timedOut
                                && Dispatched(c, p) == Dispatched(e, p) + [|Grants(e, p)| - 1]))
  {
    SettleStep(e);
    FinishStep(Q.Exec(Q.Exec(e, Q.Abort), Q.Clear), timedOut);
  }

  /** Closing could dispatch the newest grant of group `p`. */
  predicate Dispatches(e: Q.Engine, p: ProviderId) {
    e.txn.Active? && e.txn.group == p && !e.txn.stage.Staged? && e.txn.stage.granted
  }

  lemma NewestIsUndispatched(e: Q.Engine, p: ProviderId)
    requires Q.AccountInv(e) && Dispatches(e, p)
    ensures |Grants(e, p)| - 1 !in Dispatched(e, p) && 0 < |Grants(e, p)|
  {
  }

  lemma MoreDispatchedKeepsSends(e: Q.Engine, c: Q.Engine, sends: seq<Ref>)
    requires SendsOk(e, sends)
    requires forall p, x :: x in Dispatched(e, p) ==> x in Dispatched(c, p)
    ensures SendsOk(c, sends)
  {
  }

  // ---- The service's part ----

  /** What a step of the service may do without a reservation being involved. */
  ghost predicate Unpaid(s: L.Service, t: L.Service) {
    && t.ledger == s.ledger && |s.owners| <= |t.owners|
    && (forall i :: 0 <= i < |s.owners| ==> t.owners[i].key == s.owners[i].key && t.owners[i].tokens == s.owners[i].tokens)
    && (forall i :: |s.owners| <= i < |t.owners| ==> t.owners[i].tokens == [])
  }

  lemma UngatedStep(s: L.Service, config: L.Config, step: L.Event)
    requires L.Inv(s, config) && Ungated(step)
    ensures Unpaid(s, L.Exec(s, config, step)) && L.Exec(s, config, step).gate == s.gate
  {
    match LT.Target(step)
    case None =>
      LT.CallerEventKeepsFlights(s, config, step);
      CallerEventKeepsLedger(s, config, step);
    case Some(i) =>
      LT.OwnerEventIsLocal(s, config, step, i);
      UngatedTarget(s, config, step, i);
  }

  lemma CallerEventKeepsLedger(s: L.Service, config: L.Config, step: L.Event)
    requires LT.Target(step).None?
    ensures L.Exec(s, config, step).ledger == s.ledger && L.Exec(s, config, step).gate == s.gate
  {
  }

  lemma UngatedTarget(s: L.Service, config: L.Config, step: L.Event, i: nat)
    requires L.GateInv(s.owners, s.gate) && Ungated(step) && LT.Target(step) == Some(i)
    ensures var t := L.Exec(s, config, step);
            t.ledger == s.ledger && t.gate == s.gate
            && (i < |s.owners| == |t.owners| ==>
                  t.owners[i].key == s.owners[i].key && t.owners[i].tokens == s.owners[i].tokens)
  {
    if i < |s.owners| {
      assert s.owners[i].stage.InGate? <==> s.gate == Some(i);
      if step.Recheck? || step.TakeProvider? || step.TakeGlobal? {
        EarlyTarget(s, config, step, i);
      }
    }
  }

  lemma EarlyTarget(s: L.Service, config: L.Config, step: L.Event, i: nat)
    requires i < |s.owners| && (s.owners[i].stage.InGate? <==> s.gate == Some(i))
    requires LT.Target(step) == Some(i) && (step.Recheck? || step.TakeProvider? || step.TakeGlobal?)
    ensures var t := L.Exec(s, config, step);
            t.ledger == s.ledger && t.gate == s.gate
            && (|s.owners| == |t.owners| ==>
                  t.owners[i].key == s.owners[i].key && t.owners[i].tokens == s.owners[i].tokens)
  {
  }

  lemma UnpaidKeepsTokens(s: L.Service, t: L.Service, paid: seq<Ref>, sends: seq<Ref>)
    requires Unpaid(s, t) && TokensOk(s.owners, paid, sends)
    ensures TokensOk(t.owners, paid, sends)
  {
    forall i | 0 <= i < |t.owners| ensures FlightPaid(t.owners[i], paid, sends) {
      assert i < |s.owners| ==> FlightPaid(s.owners[i], paid, sends);
    }
  }

  // ---- Steps keep the invariant ----

  lemma MoreGrantsKeepPaid(s: L.Service, t: L.Service, e: Q.Engine, n: Q.Engine, entered: int, entered': int, paid: seq<Ref>)
    requires PaidOk(s, e, entered, paid) && Unpaid(s, t)
    requires forall p :: Bound(s, e, entered, p) <= Bound(t, n, entered', p)
    ensures PaidOk(t, n, entered', paid)
  {
  }

  lemma LookupKeepsInv(j: Joint, config: L.Config, step: L.Event)
    requires Inv(j, config)
    ensures Inv(Exec(j, config, Lookup(step)), config)
  {
    if Ungated(step) {
      var t := L.Exec(j.service, config, step);
      LP.StepKeepsInv(j.service, config, step);
      UngatedStep(j.service, config, step);
      UnpaidKeepsTokens(j.service, t, j.paid, j.sends);
      MoreGrantsKeepPaid(j.service, t, j.engine, j.engine, j.entered, j.entered, j.paid);
    }
  }

  lemma InsideKeepsInv(j: Joint, config: L.Config, step: Q.Event)
    requires Inv(j, config)
    ensures Inv(Exec(j, config, Inside(step)), config)
  {
    if Inner(step) {
      var n := Q.Exec(j.engine, step);
      QI.StepKeepsAccount(j.engine, step);
      InnerStep(j.engine, step);
      MoreGrantsKeepPaid(j.service, j.service, j.engine, n, j.entered, j.entered, j.paid);
      MoreDispatchedKeepsSends(j.engine, n, j.sends);
    }
  }

  lemma EnterKeepsInv(j: Joint, config: L.Config, i: nat, wall: int)
    requires Inv(j, config)
    ensures Inv(Exec(j, config, Enter(i, wall)), config)
  {
    if i < |j.service.owners| && j.service.owners[i].stage.WantGate? && j.service.gate.None? {
      EnteringKeepsInv(j, config, i, wall);
    }
  }

  lemma EnteringKeepsInv(j: Joint, config: L.Config, i: nat, wall: int)
    requires Inv(j, config) && i < |j.service.owners| && j.service.owners[i].stage.WantGate? && j.service.gate.None?
    ensures Inv(EnterGate(j, config, i, wall), config)
  {
    var f := j.service.owners[i];
    var t := L.Exec(j.service, config, L.EnterGate(i));
    var b := Begin(j.engine, f.stage.visit, f.key.provider, wall);
    LP.StepKeepsInv(j.service, config, L.EnterGate(i));
    EnteringStep(j.service, config, i);
    BeginStep(j.engine, f.stage.visit, f.key.provider, wall);
    UnpaidKeepsTokens(j.service, t, j.paid, j.sends);
    MoreGrantsKeepPaid(j.service, t, j.engine, b, j.entered, |Grants(j.engine, f.key.provider)|, j.paid);
    MoreDispatchedKeepsSends(j.engine, b, j.sends);
  }

  lemma EnteringStep(s: L.Service, config: L.Config, i: nat)
    requires i < |s.owners| && s.owners[i].stage.WantGate? && s.gate.None?
    ensures Unpaid(s, L.Exec(s, config, L.EnterGate(i))) && L.Exec(s, config, L.EnterGate(i)).gate == Some(i)
  {
  }

  // ---- Leaving the gate ----

  /** The service left the gate of lookup `i`, and the ledger grew by an entry for it exactly if `pays`. */
  ghost predicate LeftGate(s: L.Service, t: L.Service, i: nat, pays: bool) {
    && i < |s.owners| == |t.owners| && s.gate == Some(i) && t.gate.None?
    && t.ledger == s.ledger + (if pays then [i] else [])
    && (forall k :: 0 <= k < |s.owners| ==> t.owners[k].key == s.owners[k].key)
    && (forall k :: 0 <= k < |s.owners| && k != i ==> t.owners[k].tokens == s.owners[k].tokens)
  }

  lemma LeavingStep(s: L.Service, config: L.Config, i: nat, reply: L.Reply, late: bool)
    requires i < |s.owners| && L.AtReserve(s.owners[i].stage) && s.gate == Some(i)
    ensures var t := L.Exec(s, config, L.LeaveGate(i, reply, late));
            LeftGate(s, t, i, reply == L.Granted || reply == L.Lost(true))
            && t.owners[i].tokens == s.owners[i].tokens + if reply == L.Granted && !late then [|s.ledger|] else []
  {
  }

  lemma ReleasingStep(s: L.Service, config: L.Config, i: nat)
    requires i < |s.owners| && s.owners[i].stage.InGate? && !L.AtReserve(s.owners[i].stage) && s.gate == Some(i)
    ensures var t := L.Exec(s, config, L.Release(i));
            LeftGate(s, t, i, false) && t.owners[i].tokens == s.owners[i].tokens
  {
  }

  lemma BreakingStep(s: L.Service, config: L.Config, i: nat, code: L.ErrorCode, committed: bool)
    requires i < |s.owners| && s.owners[i].stage.InGate? && s.gate == Some(i)
    requires committed ==> L.AtReserve(s.owners[i].stage)
    ensures var t := L.Exec(s, config, L.Break(i, code, committed));
            LeftGate(s, t, i, committed) && t.owners[i].tokens == s.owners[i].tokens
  {
  }

  lemma BreakingElsewhere(s: L.Service, config: L.Config, i: nat, code: L.ErrorCode)
    requires i < |s.owners| && !s.owners[i].stage.InGate? && s.gate != Some(i)
    ensures var t := L.Exec(s, config, L.Break(i, code, false)); Unpaid(s, t) && t.gate == s.gate
  {
  }

  /** A reservation made during the visit is none that the ledger named before. */
  lemma LeavingKeepsPaid(s: L.Service, t: L.Service, e: Q.Engine, c: Q.Engine, entered: int, paid: seq<Ref>,
                         i: nat, pays: bool)
    requires LeftGate(s, t, i, pays) && PaidOk(s, e, entered, paid) && (forall p :: Grants(c, p) == Grants(e, p))
    requires var p := s.owners[i].key.provider;
             0 <= entered <= |Grants(e, p)| && (pays ==> entered < |Grants(e, p)|)
    ensures var ref := Ref(s.owners[i].key.provider, |Grants(c, s.owners[i].key.provider)| - 1);
            PaidOk(t, c, entered, paid + if pays then [ref] else [])
  {
    var p := s.owners[i].key.provider;
    assert Bound(s, e, entered, p) == entered;
    assert forall q :: q != p ==> Bound(s, e, entered, q) == |Grants(e, q)|;
    assert forall q :: Bound(t, c, entered, q) == |Grants(e, q)|;
  }

  lemma MorePaidKeepsTokens(s: L.Service, t: L.Service, i: nat, pays: bool, paid: seq<Ref>, paid': seq<Ref>,
                            sends: seq<Ref>, sends': seq<Ref>)
    requires LeftGate(s, t, i, pays) && TokensOk(s.owners, paid, sends) && paid <= paid' && sends <= sends'
    requires t.owners[i].tokens == s.owners[i].tokens
             || (|paid| < |paid'| && paid'[|paid|] in sends' && t.owners[i].tokens == s.owners[i].tokens + [|paid|])
    ensures TokensOk(t.owners, paid', sends')
  {
    forall k | 0 <= k < |t.owners| ensures FlightPaid(t.owners[k], paid', sends') {
      assert FlightPaid(s.owners[k], paid, sends);
    }
  }

  lemma LeavePays(j: Joint, config: L.Config, i: nat, timedOut: bool, late: bool, refused: bool)
    requires Inv(j, config) && i < |j.service.owners| && L.AtReserve(j.service.owners[i].stage)
    ensures var n := LeaveGate(j, config, i, timedOut, late, refused);
            && PaidOk(n.service, n.engine, n.entered, n.paid) && GateLink(n.service, n.engine, n.entered)
            && Q.AccountInv(n.engine)
  {
    var s, e := j.service, j.engine;
    var p := s.owners[i].key.provider;
    var c := Close(e, timedOut);
    var reply := ReplyOf(j, c, p, refused);
    CloseStep(e, timedOut);
    LeavingStep(s, config, i, reply, late);
    LeavingKeepsPaid(s, L.Exec(s, config, L.LeaveGate(i, reply, late)), e, c, j.entered, j.paid, i,
                     reply == L.Granted || reply == L.Lost(true));
  }

  lemma LeaveSends(j: Joint, config: L.Config, i: nat, timedOut: bool, late: bool, refused: bool)
    requires Inv(j, config) && i < |j.service.owners| && L.AtReserve(j.service.owners[i].stage)
    ensures var n := LeaveGate(j, config, i, timedOut, late, refused);
            SendsOk(n.engine, n.sends) && TokensOk(n.service.owners, n.paid, n.sends)
  {
    var s, e := j.service, j.engine;
    var p := s.owners[i].key.provider;
    var reply := ReplyOf(j, Close(e, timedOut), p, refused);
    var n := LeaveGate(j, config, i, timedOut, late, refused);
    LeavingStep(s, config, i, reply, late);
    LeavingKeepsSends(e, timedOut, j.sends, p);
    MorePaidKeepsTokens(s, n.service, i, reply == L.Granted || reply == L.Lost(true), j.paid, n.paid, j.sends, n.sends);
  }

  lemma LeaveKeepsInv(j: Joint, config: L.Config, i: nat, timedOut: bool, late: bool, refused: bool)
    requires Inv(j, config)
    ensures Inv(Exec(j, config, Leave(i, timedOut, late, refused)), config)
  {
    if i < |j.service.owners| && j.service.owners[i].stage.InGate? {
      assert Exec(j, config, Leave(i, timedOut, late, refused)) == LeaveGate(j, config, i, timedOut, late, refused);
      if L.AtReserve(j.service.owners[i].stage) {
        ReserveLeaveKeepsInv(j, config, i, timedOut, late, refused);
      } else {
        ReleaseKeepsInv(j, config, i, timedOut, late, refused);
      }
    }
  }

  lemma ReserveLeaveKeepsInv(j: Joint, config: L.Config, i: nat, timedOut: bool, late: bool, refused: bool)
    requires Inv(j, config) && i < |j.service.owners| && L.AtReserve(j.service.owners[i].stage)
    ensures Inv(LeaveGate(j, config, i, timedOut, late, refused), config)
  {
    var p := j.service.owners[i].key.provider;
    LP.StepKeepsInv(j.service, config, L.LeaveGate(i, ReplyOf(j, Close(j.engine, timedOut), p, refused), late));
    LeavePays(j, config, i, timedOut, late, refused);
    LeaveSends(j, config, i, timedOut, late, refused);
  }

  /** What closing dispatched, if anything, has not been sent on before. */
  lemma LeavingKeepsSends(e: Q.Engine, timedOut: bool, sends: seq<Ref>, p: ProviderId)
    requires Q.AccountInv(e) && SendsOk(e, sends)
    ensures var c := Close(e, timedOut);
            && SendsOk(c, sends)
            && (|Dispatched(c, p)| > |Dispatched(e, p)| ==> SendsOk(c, sends + [Ref(p, |Grants(c, p)| - 1)]))
  {
    var c := Close(e, timedOut);
    CloseStep(e, timedOut);
    MoreDispatchedKeepsSends(e, c, sends);
    if |Dispatched(c, p)| > |Dispatched(e, p)| {
      NewestIsUndispatched(e, p);
    }
  }

  lemma ReleaseKeepsInv(j: Joint, config: L.Config, i: nat, timedOut: bool, late: bool, refused: bool)
    requires Inv(j, config) && i < |j.service.owners| && j.service.owners[i].stage.InGate?
    requires !L.AtReserve(j.service.owners[i].stage)
    ensures Inv(LeaveGate(j, config, i, timedOut, late, refused), config)
  {
    var s, e := j.service, j.engine;
    var c := Close(e, timedOut);
    var t := L.Exec(s, config, L.Release(i));
    CloseStep(e, timedOut);
    LP.StepKeepsInv(s, config, L.Release(i));
    ReleasingStep(s, config, i);
    LeavingKeepsPaid(s, t, e, c, j.entered, j.paid, i, false);
    assert j.paid + [] == j.paid;
    MoreDispatchedKeepsSends(e, c, j.sends);
    MorePaidKeepsTokens(s, t, i, false, j.paid, j.paid, j.sends, j.sends);
  }

  lemma InterruptKeepsInv(j: Joint, config: L.Config, i: nat, code: L.ErrorCode)
    requires Inv(j, config)
    ensures Inv(Exec(j, config, Interrupt(i, code)), config)
  {
    if i < |j.service.owners| {
      assert Exec(j, config, Interrupt(i, code)) == Interrupted(j, config, i, code);
      if j.service.owners[i].stage.InGate? {
        InterruptInGate(j, config, i, code);
      } else {
        InterruptElsewhere(j, config, i, code);
      }
    }
  }

  lemma InterruptElsewhere(j: Joint, config: L.Config, i: nat, code: L.ErrorCode)
    requires Inv(j, config) && i < |j.service.owners| && !j.service.owners[i].stage.InGate?
    ensures Inv(Interrupted(j, config, i, code), config)
  {
    var s := j.service;
    var t := L.Exec(s, config, L.Break(i, code, false));
    LP.StepKeepsInv(s, config, L.Break(i, code, false));
    BreakingElsewhere(s, config, i, code);
    UnpaidKeepsTokens(s, t, j.paid, j.sends);
    MoreGrantsKeepPaid(s, t, j.engine, j.engine, j.entered, j.entered, j.paid);
  }

  lemma InterruptInGate(j: Joint, config: L.Config, i: nat, code: L.ErrorCode)
    requires Inv(j, config) && i < |j.service.owners| && j.service.owners[i].stage.InGate?
    ensures Inv(Interrupted(j, config, i, code), config)
  {
    var s, e := j.service, j.engine;
    var p := s.owners[i].key.provider;
    var c := Close(e, true);
    CloseStep(e, true);
    var committed := L.AtReserve(s.owners[i].stage) && |Grants(c, p)| > j.entered;
    var n := Interrupted(j, config, i, code);
    LP.StepKeepsInv(s, config, L.Break(i, code, committed));
    BreakingStep(s, config, i, code, committed);
    LeavingKeepsPaid(s, n.service, e, c, j.entered, j.paid, i, committed);
    MoreDispatchedKeepsSends(e, c, j.sends);
    MorePaidKeepsTokens(s, n.service, i, committed, j.paid, n.paid, j.sends, j.sends);
  }

  lemma RestartKeepsInv(j: Joint, config: L.Config, wall: int, limits: PerProvider<Limits>, landed: bool)
    requires Inv(j, config) && forall p :: limits.Get(p).Valid()
    ensures Inv(Exec(j, config, Restart(wall, limits, landed)), config)
  {
    var n := Q.Exec(j.engine, Q.Restart(wall, limits, landed));
    QI.StepKeepsAccount(j.engine, Q.Restart(wall, limits, landed));
    LP.RunKeepsInv(config, []);
    RestartStep(j.engine, wall, limits, landed);
    MoreDispatchedKeepsSends(j.engine, n, j.sends);
  }

  lemma RestartStep(e: Q.Engine, wall: int, limits: PerProvider<Limits>, landed: bool)
    ensures var n := Q.Exec(e, Q.Restart(wall, limits, landed));
            n.txn.Idle? && forall p :: Dispatched(n, p) == Dispatched(e, p)
  {
    if e.txn.Active? && Q.Effect(e.txn, e.groups.Get(e.txn.group)).Some? {
      EffectCounts(e.txn, e.groups.Get(e.txn.group));
    }
  }

  lemma StepKeepsInv(j: Joint, config: L.Config, e: Event)
    requires Inv(j, config) && Legal(e)
    ensures Inv(Exec(j, config, e), config)
  {
    match e
    case Lookup(step) => LookupKeepsInv(j, config, step);
    case Inside(step) => InsideKeepsInv(j, config, step);
    case Enter(i, wall) => EnterKeepsInv(j, config, i, wall);
    case Leave(i, timedOut, late, refused) => LeaveKeepsInv(j, config, i, timedOut, late, refused);
    case Interrupt(i, code) => InterruptKeepsInv(j, config, i, code);
    case Restart(wall, limits, landed) => RestartKeepsInv(j, config, wall, limits, landed);
  }

  lemma {:induction false} RunKeepsInv(config: L.Config, wall: int, limits: PerProvider<Limits>, events: seq<Event>)
    requires ValidRun(limits, events)
    ensures Inv(Run(Start(config, wall, limits), config, events), config)
  {
    if events == [] {
      LP.RunKeepsInv(config, []);
      QT.RunKeepsAccount(wall, limits, []);
      assert Q.Run(Q.Initial(wall, limits), []) == Q.Initial(wall, limits);
    } else {
      var n := |events| - 1;
      RunKeepsInv(config, wall, limits, events[..n]);
      StepKeepsInv(Run(Start(config, wall, limits), config, events[..n]), config, events[n]);
    }
  }

  // ---- What a lookup is told ----

  /**
   A lookup is told that it may send exactly if its reservation was dispatched, and its ledger entry stands exactly
   for a reservation committed during its visit; otherwise it is told why not.
   */
  lemma LeavingTellsTheTruth(j: Joint, config: L.Config, i: nat, timedOut: bool, late: bool, refused: bool)
    requires Inv(j, config) && i < |j.service.owners| && L.AtReserve(j.service.owners[i].stage)
    ensures var n := Exec(j, config, Leave(i, timedOut, late, refused));
            var p := j.service.owners[i].key.provider;
            var dispatched := |Dispatched(n.engine, p)| > |Dispatched(j.engine, p)|;
            var committed := |Grants(n.engine, p)| > j.entered;
            && |n.service.owners| == |j.service.owners| && n.engine.txn.Idle?
            && (n.service.owners[i].stage.Sending? <==> dispatched && !late)
            && (|n.sends| > |j.sends| <==> dispatched && !late)
            && (|n.service.ledger| > |j.service.ledger| <==> committed)
            && var code := if committed || !refused then L.StorageUnavailable else L.QuotaExhausted;
               !dispatched ==> n.service.owners[i].stage == L.Publishing(L.LookupResult(L.Failed(code), false))
  {
    var s, e := j.service, j.engine;
    var p := s.owners[i].key.provider;
    var reply := ReplyOf(j, Close(e, timedOut), p, refused);
    CloseStep(e, timedOut);
    LeavingStep(s, config, i, reply, late);
    LA.RefusalsAreTold(s, config, i, reply, late);
  }

  // ---- Main results ----

  /**
   Every request that a lookup sent used a reservation of its own provider that the engine granted within both
   caps and reported Ok, and no other request of any lookup used the same one.
   */
  lemma SendsAreDispatchedGrants(config: L.Config, wall: int, limits: PerProvider<Limits>, events: seq<Event>,
                                 i: nat, k: nat, i': nat, k': nat)
    requires ValidRun(limits, events)
    requires var owners := Run(Start(config, wall, limits), config, events).service.owners;
             i < |owners| && k < |owners[i].tokens| && i' < |owners| && k' < |owners[i'].tokens|
    ensures var j := Run(Start(config, wall, limits), config, events);
            var token, token' := j.service.owners[i].tokens[k], j.service.owners[i'].tokens[k'];
            && token < |j.paid| && token' < |j.paid|
            && (j.paid[token] == j.paid[token'] <==> i == i' && k == k')
            && var p := j.service.owners[i].key.provider;
               var g := j.paid[token].index;
               && j.paid[token].provider == p && 0 <= g < |Grants(j.engine, p)|
               && g in Dispatched(j.engine, p)
               && Q.WithinMinute(Grants(j.engine, p), g) && Q.WithinDay(Grants(j.engine, p), g)
  {
    RunKeepsInv(config, wall, limits, events);
    var j := Run(Start(config, wall, limits), config, events);
    var owners := j.service.owners;
    assert FlightPaid(owners[i], j.paid, j.sends) && FlightPaid(owners[i'], j.paid, j.sends);
    assert L.LedgerOk(owners[i], i, j.service.ledger) && L.LedgerOk(owners[i'], i', j.service.ledger);
    var token, token' := owners[i].tokens[k], owners[i'].tokens[k'];
    assert token != token' ==> j.paid[token] != j.paid[token'];
    var p := owners[i].key.provider;
    assert Q.DurableInv(j.engine.groups.Get(p), j.engine.durableHighWater);
  }

  /** Over every process that ever ran on the database, no two requests used one reservation, and each was dispatched. */
  lemma SendsNeverShareAReservation(config: L.Config, wall: int, limits: PerProvider<Limits>, events: seq<Event>,
                                    a: nat, b: nat)
    requires ValidRun(limits, events)
    requires a < b < |Run(Start(config, wall, limits), config, events).sends|
    ensures var j := Run(Start(config, wall, limits), config, events);
            && j.sends[a] != j.sends[b]
            && j.sends[a].index in Dispatched(j.engine, j.sends[a].provider)
            && j.sends[b].index in Dispatched(j.engine, j.sends[b].provider)
  {
    RunKeepsInv(config, wall, limits, events);
  }
}
