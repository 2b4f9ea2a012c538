/** Every interleaving of the shared-lookup protocol keeps its invariants, and none of them can get stuck. */
module SharedLookupProofs {
  import opened Basics
  import opened SharedLookup

  // ---- Counting permit holders ----

  lemma {:induction false} CountUpdate(owners: seq<Flight>, i: nat, f: Flight, r: Resource)
    requires i < |owners|
    ensures Count(owners[i := f], r) == Count(owners, r) - One(Holds(owners[i], r)) + One(Holds(f, r))
  {
    var n := |owners| - 1;
    if i == n {
      assert owners[i := f][..n] == owners[..n];
    } else {
      assert owners[i := f][..n] == owners[..n][i := f];
      CountUpdate(owners[..n], i, f, r);
    }
  }

  lemma CountAppend(owners: seq<Flight>, f: Flight, r: Resource)
    ensures Count(owners + [f], r) == Count(owners, r) + One(Holds(f, r))
  {
    assert (owners + [f])[..|owners|] == owners;
  }

  lemma {:induction false} SomeHolder(owners: seq<Flight>, r: Resource) returns (i: nat)
    requires Count(owners, r) > 0
    ensures i < |owners| && Holds(owners[i], r)
  {
    var n := |owners| - 1;
    if Holds(owners[n], r) {
      i := n;
    } else {
      i := SomeHolder(owners[..n], r);
    }
  }

  // ---- One lookup changes ----

  lemma UpdateKeepsTable(flights: map<Key, nat>, owners: seq<Flight>, config: Config, i: nat, g: Flight)
    requires TableInv(flights, owners, config) && i < |owners|
    requires g.key == owners[i].key && g.cell == owners[i].cell && (g.stage.Done? <==> owners[i].stage.Done?)
    ensures TableInv(flights, owners[i := g], config)
  {
    var updated := owners[i := g];
    forall j | 0 <= j < |updated| ensures updated[j].cell.None? <==> InTable(flights, updated, j) {
      assert owners[j].cell.None? <==> InTable(flights, owners, j);
    }
  }

  lemma UpdateKeepsCallers(callers: seq<Caller>, owners: seq<Flight>, i: nat, g: Flight)
    requires CallerInv(callers, owners) && i < |owners|
    requires g.key == owners[i].key && (owners[i].cell.Some? ==> g.cell == owners[i].cell)
    ensures CallerInv(callers, owners[i := g])
  {
    forall c | 0 <= c < |callers| ensures CallerOk(callers[c], owners[i := g]) {
      assert CallerOk(callers[c], owners);
    }
  }

  lemma UpdateKeepsLedger(owners: seq<Flight>, ledger: seq<nat>, i: nat, g: Flight)
    requires LedgerInv(owners, ledger) && i < |owners| && LedgerOk(g, i, ledger)
    ensures LedgerInv(owners[i := g], ledger)
  {
  }

  ghost predicate CanMoveTo(s: Service, i: nat, stage: Stage)
    requires i < |s.owners|
  {
    forall r :: Holds(s.owners[i].(stage := stage), r) && !Holds(s.owners[i], r) ==>
      Free(s.providerFree, s.globalFree, r) > 0
  }

  lemma MoveKeepsPermits(s: Service, config: Config, i: nat, stage: Stage)
    requires PermitInv(s.owners, s.providerFree, s.globalFree, config) && i < |s.owners| && CanMoveTo(s, i, stage)
    ensures var t := Move(s, i, stage); PermitInv(t.owners, t.providerFree, t.globalFree, config)
  {
    var t := Move(s, i, stage);
    forall r ensures Free(t.providerFree, t.globalFree, r) >= 0
             ensures Free(t.providerFree, t.globalFree, r) + Count(t.owners, r) == Capacity(config, r)
    {
      CountUpdate(s.owners, i, s.owners[i].(stage := stage), r);
      assert Free(s.providerFree, s.globalFree, r) + Count(s.owners, r) == Capacity(config, r);
    }
  }

  lemma UpdateKeepsGate(owners: seq<Flight>, gate: Option<nat>, i: nat, g: Flight)
    requires GateInv(owners, gate) && i < |owners| && (g.stage.InGate? ==> gate.None?)
    ensures GateInv(owners[i := g],
                    if g.stage.InGate? then Some(i) else if gate == Some(i) then None else gate)
  {
  }

  lemma MoveKeepsInv(s: Service, config: Config, i: nat, stage: Stage)
    requires Inv(s, config) && i < |s.owners| && CanMoveTo(s, i, stage)
    requires stage.InGate? ==> s.gate.None?
    requires !s.owners[i].stage.Done? && !stage.Done?
    requires AttemptOf(stage) && AttemptsSent(s.owners[i].stage) <= AttemptsSent(stage)
    ensures var t := Move(s, i, stage); Inv(if stage.InGate? then t.(gate := Some(i)) else t, config)
  {
    var g := s.owners[i].(stage := stage);
    MoveKeepsPermits(s, config, i, stage);
    UpdateKeepsTable(s.flights, s.owners, config, i, g);
    UpdateKeepsCallers(s.callers, s.owners, i, g);
    assert LedgerOk(s.owners[i], i, s.ledger);
    UpdateKeepsLedger(s.owners, s.ledger, i, g);
    UpdateKeepsGate(s.owners, s.gate, i, g);
    var t := Move(s, i, stage);
    assert t.owners == s.owners[i := g] && t.flights == s.flights && t.callers == s.callers && t.ledger == s.ledger;
    assert GateInv(t.owners, if stage.InGate? then Some(i) else t.gate);
  }

  /** Moving on without taking anything new. */
  lemma MoveOnKeepsInv(s: Service, config: Config, i: nat, stage: Stage)
    requires Inv(s, config) && i < |s.owners| && !stage.InGate?
    requires !s.owners[i].stage.Done? && !stage.Done?
    requires HoldsGlobal(stage) ==> HoldsGlobal(s.owners[i].stage)
    requires stage.WantGlobal? ==> s.owners[i].stage.WantGlobal? || HoldsGlobal(s.owners[i].stage)
    requires AttemptOf(stage) && AttemptsSent(s.owners[i].stage) <= AttemptsSent(stage)
    ensures Inv(Move(s, i, stage), config)
  {
    MoveKeepsInv(s, config, i, stage);
  }

  lemma FailKeepsInv(s: Service, config: Config, i: nat, code: ErrorCode)
    requires Inv(s, config) && i < |s.owners| && !s.owners[i].stage.Done?
    ensures Inv(Fail(s, i, code), config)
  {
    MoveOnKeepsInv(s, config, i, Publishing(LookupResult(Failed(code), false)));
  }

  lemma PayKeepsInv(s: Service, config: Config, i: nat)
    requires Inv(s, config)
    ensures Inv(Pay(s, i), config)
  {
    forall j | 0 <= j < |s.owners| ensures LedgerOk(s.owners[j], j, s.ledger + [i]) {
      assert LedgerOk(s.owners[j], j, s.ledger);
    }
  }

  // ---- The remaining steps ----

  lemma AppendKeepsCallers(callers: seq<Caller>, owners: seq<Flight>, f: Flight)
    requires CallerInv(callers, owners)
    ensures CallerInv(callers, owners + [f])
  {
    forall c | 0 <= c < |callers| ensures CallerOk(callers[c], owners + [f]) {
      assert CallerOk(callers[c], owners);
    }
  }

  /** A new lookup takes the next free id and its key's place in the table. */
  lemma NewFlightKeepsTable(flights: map<Key, nat>, owners: seq<Flight>, config: Config, f: Flight)
    requires TableInv(flights, owners, config) && |flights| < config.maxShared
    requires f.key !in flights && f.cell.None? && !f.stage.Done?
    ensures TableInv(flights[f.key := |owners|], owners + [f], config)
  {
    var table, all := flights[f.key := |owners|], owners + [f];
    assert table.Keys == flights.Keys + {f.key};
    forall k | k in table ensures table[k] < |all| && all[table[k]].key == k {
      assert k != f.key ==> k in flights;
    }
    forall j | 0 <= j < |all| ensures all[j].cell.None? <==> InTable(table, all, j) {
      if j < |owners| {
        assert all[j] == owners[j];
        assert owners[j].cell.None? <==> InTable(flights, owners, j);
      }
    }
  }

  lemma NewFlightKeepsPermits(owners: seq<Flight>, provider: PerProvider<int>, global: int, config: Config, f: Flight)
    requires PermitInv(owners, provider, global, config) && f.stage.Rechecking?
    ensures PermitInv(owners + [f], provider, global, config)
  {
    forall r ensures Free(provider, global, r) + Count(owners + [f], r) == Capacity(config, r) {
      CountAppend(owners, f, r);
      assert Free(provider, global, r) + Count(owners, r) == Capacity(config, r);
    }
  }

  lemma NewFlightKeepsInv(s: Service, config: Config, c: nat)
    requires Inv(s, config) && c < |s.callers| && s.callers[c].key !in s.flights && |s.flights| < config.maxShared
    ensures Inv(NewFlight(s, c), config)
  {
    var t := NewFlight(s, c);
    var f := Flight(s.callers[c].key, Rechecking, None, []);
    NewFlightKeepsTable(s.flights, s.owners, config, f);
    NewFlightKeepsPermits(s.owners, s.providerFree, s.globalFree, config, f);
    AppendKeepsCallers(s.callers, s.owners, f);
    assert t.owners == s.owners + [f];
    assert CallerInv(t.callers, t.owners);
    assert GateInv(t.owners, t.gate);
    assert LedgerInv(t.owners, t.ledger);
  }

  lemma RegisterKeepsInv(s: Service, config: Config, c: nat)
    requires Inv(s, config) && c < |s.callers|
    ensures Inv(RegisterCaller(s, config, c), config)
  {
    var key := s.callers[c].key;
    if key !in s.flights && |s.flights| < config.maxShared && !s.cancelled {
      NewFlightKeepsInv(s, config, c);
    }
  }

  lemma PublishKeepsTable(flights: map<Key, nat>, owners: seq<Flight>, config: Config, i: nat, g: Flight)
    requires TableInv(flights, owners, config) && i < |owners| && owners[i].cell.None?
    requires g.key == owners[i].key && g.cell.Some? && g.stage.Done?
    ensures TableInv(flights - {g.key}, owners[i := g], config)
  {
    assert InTable(flights, owners, i);
    assert (flights - {g.key}).Keys == flights.Keys - {g.key};
    var updated := owners[i := g];
    forall j | 0 <= j < |updated| ensures updated[j].cell.None? <==> InTable(flights - {g.key}, updated, j) {
      assert owners[j].cell.None? <==> InTable(flights, owners, j);
    }
  }

  lemma PublishKeepsLedger(owners: seq<Flight>, ledger: seq<nat>, i: nat, g: Flight)
    requires LedgerInv(owners, ledger) && i < |owners| && g.tokens == owners[i].tokens && g.stage.Done?
    requires owners[i].stage.Publishing?
    ensures LedgerInv(owners[i := g], ledger)
  {
    assert LedgerOk(owners[i], i, ledger);
    UpdateKeepsLedger(owners, ledger, i, g);
  }

  /** Publishing fills the cell and leaves the table in one step. */
  lemma PublishKeepsInv(s: Service, config: Config, i: nat)
    requires Inv(s, config) && i < |s.owners| && s.owners[i].stage.Publishing?
    ensures Inv(Exec(s, config, Publish(i)), config)
  {
    var t := Exec(s, config, Publish(i));
    var g := t.owners[i];
    PublishKeepsTable(s.flights, s.owners, config, i, g);
    UpdateKeepsCallers(s.callers, s.owners, i, g);
    PublishKeepsLedger(s.owners, s.ledger, i, g);
    UpdateKeepsGate(s.owners, s.gate, i, g);
    SameHoldingsKeepPermits(s.owners, s.providerFree, s.globalFree, config, i, g);
    assert t.owners == s.owners[i := g] && s.gate != Some(i);
  }

  lemma SameHoldingsKeepPermits(owners: seq<Flight>, provider: PerProvider<int>, global: int, config: Config,
                          i: nat, g: Flight)
    requires PermitInv(owners, provider, global, config) && i < |owners|
    requires forall r :: Holds(g, r) <==> Holds(owners[i], r)
    ensures PermitInv(owners[i := g], provider, global, config)
  {
    forall r ensures Free(provider, global, r) + Count(owners[i := g], r) == Capacity(config, r) {
      CountUpdate(owners, i, g, r);
      assert Free(provider, global, r) + Count(owners, r) == Capacity(config, r);
    }
  }

  lemma MoreTokensOk(f: Flight, i: nat, token: nat, ledger: seq<nat>)
    requires LedgerOk(f, i, ledger) && token < |ledger| && ledger[token] == i
    requires forall k :: 0 <= k < |f.tokens| ==> f.tokens[k] < token
    requires |f.tokens| < AttemptsSent(f.stage)
    ensures LedgerOk(f.(tokens := f.tokens + [token]), i, ledger)
  {
  }

  lemma UseTokenKeepsInv(s: Service, config: Config, i: nat, token: nat)
    requires Inv(s, config) && i < |s.owners|
    requires token < |s.ledger| && s.ledger[token] == i
    requires forall k :: 0 <= k < |s.owners[i].tokens| ==> s.owners[i].tokens[k] < token
    requires |s.owners[i].tokens| < AttemptsSent(s.owners[i].stage)
    ensures Inv(UseToken(s, i, token), config)
  {
    var g := s.owners[i].(tokens := s.owners[i].tokens + [token]);
    assert LedgerOk(s.owners[i], i, s.ledger);
    MoreTokensOk(s.owners[i], i, token, s.ledger);
    SameHoldingsKeepPermits(s.owners, s.providerFree, s.globalFree, config, i, g);
    UpdateKeepsTable(s.flights, s.owners, config, i, g);
    UpdateKeepsCallers(s.callers, s.owners, i, g);
    UpdateKeepsLedger(s.owners, s.ledger, i, g);
  }

  /** A send takes a reservation no earlier send used, because the ledger has just grown by it. */
  lemma SendKeepsInv(s: Service, config: Config, i: nat)
    requires Inv(s, config) && i < |s.owners| && AtReserve(s.owners[i].stage)
    ensures Inv(LeaveGateWith(s, i, Granted, false), config)
  {
    var paid := Pay(s, i);
    PayKeepsInv(s, config, i);
    assert LedgerOk(s.owners[i], i, s.ledger);
    var stage := Sending(s.owners[i].stage.attempt);
    MoveOnKeepsInv(paid, config, i, stage);
    UseTokenKeepsInv(Move(paid, i, stage), config, i, |s.ledger|);
  }

  lemma LeaveKeepsInv(s: Service, config: Config, i: nat, reply: Reply, late: bool)
    requires Inv(s, config) && i < |s.owners| && AtReserve(s.owners[i].stage)
    ensures Inv(LeaveGateWith(s, i, reply, late), config)
  {
    PayKeepsInv(s, config, i);
    var paid := Pay(s, i);
    match reply
    case Granted =>
      if late { FailKeepsInv(paid, config, i, ProviderTimeout); } else { SendKeepsInv(s, config, i); }
    case Refused => FailKeepsInv(s, config, i, QuotaExhausted);
    case Lost(committed) => FailKeepsInv(if committed then paid else s, config, i, StorageUnavailable);
  }

  lemma SetCallerKeepsInv(s: Service, config: Config, c: nat, caller: Caller)
    requires Inv(s, config) && c < |s.callers| && CallerOk(caller, s.owners)
    ensures Inv(s.(callers := s.callers[c := caller]), config)
  {
    var callers := s.callers[c := caller];
    forall d | 0 <= d < |callers| ensures CallerOk(callers[d], s.owners) {
      assert CallerOk(s.callers[d], s.owners);
    }
  }

  lemma AskKeepsInv(s: Service, config: Config, key: Key)
    requires Inv(s, config)
    ensures Inv(Exec(s, config, Ask(key)), config)
  {
    var callers := s.callers + [Caller(key, Reading)];
    forall d | 0 <= d < |callers| ensures CallerOk(callers[d], s.owners) {
      assert d < |s.callers| ==> CallerOk(s.callers[d], s.owners);
    }
  }

  lemma CallerStepKeepsInv(s: Service, config: Config, e: Event)
    requires Inv(s, config) && (e.Ask? || e.Read? || e.Receive? || e.GiveUp?)
    ensures Inv(Exec(s, config, e), config)
  {
    if e.Ask? {
      AskKeepsInv(s, config, e.key);
    } else if Exec(s, config, e) != s {
      assert CallerOk(s.callers[e.caller], s.owners);
      SetCallerKeepsInv(s, config, e.caller, Exec(s, config, e).callers[e.caller]);
    }
  }

  /** The steps that acquire something for lookup `e.flight`. */
  lemma AcquireKeepsInv(s: Service, config: Config, e: Event)
    requires Inv(s, config) && (e.TakeProvider? || e.TakeGlobal? || e.EnterGate?) && e.flight < |s.owners|
    ensures Inv(Exec(s, config, e), config)
  {
    assert LedgerOk(s.owners[e.flight], e.flight, s.ledger);
    match e
    case TakeProvider(i) => TakeProviderKeepsInv(s, config, i);
    case TakeGlobal(i) => TakeGlobalKeepsInv(s, config, i);
    case EnterGate(i) => EnterGateKeepsInv(s, config, i);
  }

  lemma TakeProviderKeepsInv(s: Service, config: Config, i: nat)
    requires Inv(s, config) && i < |s.owners| && AttemptOf(s.owners[i].stage)
    ensures Inv(Exec(s, config, TakeProvider(i)), config)
  {
    if s.owners[i].stage.WantProvider? && s.providerFree.Get(s.owners[i].key.provider) > 0 {
      MoveKeepsInv(s, config, i, WantGlobal(s.owners[i].stage.attempt));
    }
  }

  lemma TakeGlobalKeepsInv(s: Service, config: Config, i: nat)
    requires Inv(s, config) && i < |s.owners| && AttemptOf(s.owners[i].stage)
    ensures Inv(Exec(s, config, TakeGlobal(i)), config)
  {
    if s.owners[i].stage.WantGlobal? && s.globalFree > 0 {
      MoveKeepsInv(s, config, i, WantGate(s.owners[i].stage.attempt, Reserving));
    }
  }

  lemma EnterGateKeepsInv(s: Service, config: Config, i: nat)
    requires Inv(s, config) && i < |s.owners| && AttemptOf(s.owners[i].stage)
    ensures Inv(Exec(s, config, EnterGate(i)), config)
  {
    if s.owners[i].stage.WantGate? && s.gate.None? {
      MoveKeepsInv(s, config, i, InGate(s.owners[i].stage.attempt, s.owners[i].stage.visit));
    }
  }

  /** The steps that take a lookup on without acquiring anything. */
  lemma RecheckKeepsInv(s: Service, config: Config, i: nat, fault: bool)
    requires Inv(s, config) && i < |s.owners|
    ensures Inv(Exec(s, config, Recheck(i, fault)), config)
  {
    if s.owners[i].stage.Rechecking? && s.gate.None? {
      RecheckIsMove(s, config, i, fault);
      MoveOnKeepsInv(s, config, i, AfterRecheck(s, s.owners[i].key, fault));
    }
  }

  lemma RecheckIsMove(s: Service, config: Config, i: nat, fault: bool)
    requires i < |s.owners| && s.owners[i].stage.Rechecking? && s.gate.None?
    ensures Exec(s, config, Recheck(i, fault)) == Move(s, i, AfterRecheck(s, s.owners[i].key, fault))
  {
  }

  lemma HeadKeepsInv(s: Service, config: Config, i: nat, saves: bool)
    requires Inv(s, config) && i < |s.owners| && AttemptOf(s.owners[i].stage)
    ensures Inv(Exec(s, config, Head(i, saves)), config)
  {
    if s.owners[i].stage.Sending? {
      var attempt := s.owners[i].stage.attempt;
      MoveOnKeepsInv(s, config, i, if saves then WantGate(attempt, Saving) else Receiving(attempt));
    }
  }

  lemma ReleaseKeepsInv(s: Service, config: Config, i: nat)
    requires Inv(s, config) && i < |s.owners| && AttemptOf(s.owners[i].stage)
    ensures Inv(Exec(s, config, Release(i)), config)
  {
    if s.owners[i].stage.InGate? && !s.owners[i].stage.visit.Reserving? {
      MoveOnKeepsInv(s, config, i, AfterVisit(s.owners[i].stage.attempt, s.owners[i].stage.visit));
    }
  }

  lemma RespondKeepsInv(s: Service, config: Config, i: nat, outcome: Outcome, retry: bool, asks: bool)
    requires Inv(s, config) && i < |s.owners| && AttemptOf(s.owners[i].stage)
    ensures Inv(Exec(s, config, Respond(i, outcome, retry, asks)), config)
  {
    if s.owners[i].stage.Receiving? {
      MoveOnKeepsInv(s, config, i, AfterResponse(s.owners[i].stage.attempt, outcome, retry, asks));
    }
  }

  lemma WakeKeepsInv(s: Service, config: Config, i: nat)
    requires Inv(s, config) && i < |s.owners|
    ensures Inv(Exec(s, config, Wake(i)), config)
  {
    if s.owners[i].stage.Backoff? {
      MoveOnKeepsInv(s, config, i, WantProvider(1));
    }
  }

  lemma StoreKeepsInv(s: Service, config: Config, i: nat, stored: bool)
    requires Inv(s, config)
    ensures Inv(Exec(s, config, Store(i, stored)), config)
  {
    if i < |s.owners| && s.owners[i].stage.Caching? && s.gate.None? {
      var report := s.owners[i].stage.report;
      var u := if stored then s.(cache := s.cache[s.owners[i].key := report]) else s;
      var stage := Publishing(LookupResult(Report(report), false));
      MoveOnKeepsInv(u, config, i, stage);
      assert Exec(s, config, Store(i, stored)) == Move(u, i, stage);
    }
  }

  lemma BreakKeepsInv(s: Service, config: Config, i: nat, code: ErrorCode, committed: bool)
    requires Inv(s, config)
    ensures Inv(Exec(s, config, Break(i, code, committed)), config)
  {
    if i < |s.owners| && !s.owners[i].stage.Publishing? && !s.owners[i].stage.Done? {
      if committed && AtReserve(s.owners[i].stage) {
        PayKeepsInv(s, config, i);
        FailKeepsInv(Pay(s, i), config, i, code);
      } else {
        FailKeepsInv(s, config, i, code);
      }
    }
  }

  lemma AttemptsInOrder(owners: seq<Flight>, ledger: seq<nat>)
    requires LedgerInv(owners, ledger)
    ensures forall i :: 0 <= i < |owners| ==> AttemptOf(owners[i].stage)
  {
    forall i | 0 <= i < |owners| ensures AttemptOf(owners[i].stage) {
      assert LedgerOk(owners[i], i, ledger);
    }
  }

  lemma StepKeepsInv(s: Service, config: Config, e: Event)
    requires Inv(s, config)
    ensures Inv(Exec(s, config, e), config)
  {
    AttemptsInOrder(s.owners, s.ledger);
    match e
    case Ask(_) => CallerStepKeepsInv(s, config, e);
    case Read(_, _) => CallerStepKeepsInv(s, config, e);
    case Receive(_) => CallerStepKeepsInv(s, config, e);
    case GiveUp(_) => CallerStepKeepsInv(s, config, e);
    case Register(c) =>
      if c < |s.callers| && s.callers[c].state.Missed? { RegisterKeepsInv(s, config, c); }
    case LeaveGate(i, reply, late) =>
      if i < |s.owners| && AtReserve(s.owners[i].stage) { LeaveKeepsInv(s, config, i, reply, late); }
    case Store(i, stored) => StoreKeepsInv(s, config, i, stored);
    case Publish(i) =>
      if i < |s.owners| && s.owners[i].stage.Publishing? { PublishKeepsInv(s, config, i); }
    case Break(i, code, committed) => BreakKeepsInv(s, config, i, code, committed);
    case CancelAll =>
    case Forget(_) =>
    case Recheck(i, fault) => if i < |s.owners| { RecheckKeepsInv(s, config, i, fault); }
    case Head(i, saves) => if i < |s.owners| { HeadKeepsInv(s, config, i, saves); }
    case Release(i) => if i < |s.owners| { ReleaseKeepsInv(s, config, i); }
    case Respond(i, outcome, retry, asks) =>
      if i < |s.owners| { RespondKeepsInv(s, config, i, outcome, retry, asks); }
    case Wake(i) => if i < |s.owners| { WakeKeepsInv(s, config, i); }
    case _ => if e.flight < |s.owners| { AcquireKeepsInv(s, config, e); }
  }

  lemma {:induction false} RunKeepsInv(config: Config, events: seq<Event>)
    ensures Inv(Run(Start(config), config, events), config)
  {
    if events == [] {
      assert forall r :: Count([], r) == 0;
    } else {
      var n := |events| - 1;
      RunKeepsInv(config, events[..n]);
      StepKeepsInv(Run(Start(config), config, events[..n]), config, events[n]);
    }
  }
}
