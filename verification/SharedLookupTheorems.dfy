/** What the shared-lookup protocol guarantees in every run of the service. */
module SharedLookupTheorems {
  import opened Basics
  import opened SharedLookup
  import opened SharedLookupProofs

  // ---- One flight, one result ----

  /** No two unpublished lookups share a key, their number is bounded, and the table is exactly them. */
  lemma OneFlightPerKey(config: Config, events: seq<Event>)
    ensures var s := Run(Start(config), config, events);
            && |s.flights| <= config.maxShared
            && (forall i, j :: 0 <= i < j < |s.owners| && s.owners[i].cell.None? && s.owners[j].cell.None? ==>
                  s.owners[i].key != s.owners[j].key)
            && (forall i :: 0 <= i < |s.owners| ==> (s.owners[i].cell.None? <==> InTable(s.flights, s.owners, i)))
            && (forall k :: k in s.flights ==>
                  s.flights[k] < |s.owners| && s.owners[s.flights[k]].key == k && s.owners[s.flights[k]].cell.None?)
  {
    RunKeepsInv(config, events);
    var s := Run(Start(config), config, events);
    forall k | k in s.flights ensures s.owners[s.flights[k]].cell.None? {
      assert InTable(s.flights, s.owners, s.flights[k]);
    }
  }

  /** How one step may change one lookup: its key stays, its stage only descends, and only the gate yields tokens. */
  predicate FlightStep(f: Flight, g: Flight) {
    && g.key == f.key
    && (g.stage == f.stage || Rank(g.stage) < Rank(f.stage))
    && (f.stage.Done? ==> g == f)
    && (g.tokens == f.tokens || AtReserve(f.stage))
    && (AtWork(g.stage) ==> AtWork(f.stage) || f.stage.Rechecking?)
  }

  function Target(e: Event): Option<nat> {
    match e
    case Recheck(i, _) => Some(i)
    case TakeProvider(i) => Some(i)
    case TakeGlobal(i) => Some(i)
    case EnterGate(i) => Some(i)
    case LeaveGate(i, _, _) => Some(i)
    case Head(i, _) => Some(i)
    case Release(i) => Some(i)
    case Respond(i, _, _, _) => Some(i)
    case Wake(i) => Some(i)
    case Store(i, _) => Some(i)
    case Publish(i) => Some(i)
    case Break(i, _, _) => Some(i)
    case _ => None
  }

  /** An event of lookup `i` changes no other lookup. */
  lemma OwnerEventIsLocal(s: Service, config: Config, e: Event, i: nat)
    requires Target(e) == Some(i)
    ensures var t := Exec(s, config, e);
            |t.owners| == |s.owners| && forall j :: 0 <= j < |s.owners| && j != i ==> t.owners[j] == s.owners[j]
  {
    if e.LeaveGate? {
      if i < |s.owners| && AtReserve(s.owners[i].stage) { LeavingIsLocal(s, i, e.reply, e.late); }
    }
  }

  lemma LeavingIsLocal(s: Service, i: nat, reply: Reply, late: bool)
    requires i < |s.owners| && AtReserve(s.owners[i].stage)
    ensures var t := LeaveGateWith(s, i, reply, late);
            |t.owners| == |s.owners| && forall j :: 0 <= j < |s.owners| && j != i ==> t.owners[j] == s.owners[j]
  {
  }

  lemma OwnerEventSteps(s: Service, config: Config, e: Event, i: nat)
    requires Target(e) == Some(i) && i < |s.owners| && AttemptOf(s.owners[i].stage)
    ensures |Exec(s, config, e).owners| == |s.owners| && FlightStep(s.owners[i], Exec(s, config, e).owners[i])
  {
    if e.Recheck? || e.TakeProvider? || e.TakeGlobal? || e.EnterGate? || e.Wake? {
      MoveEventSteps(s, config, e, i);
    } else if e.LeaveGate? || e.Break? {
      GateEventSteps(s, config, e, i);
    } else {
      ResultEventSteps(s, config, e, i);
    }
  }

  lemma MoveEventSteps(s: Service, config: Config, e: Event, i: nat)
    requires Target(e) == Some(i) && i < |s.owners| && AttemptOf(s.owners[i].stage)
    requires e.Recheck? || e.TakeProvider? || e.TakeGlobal? || e.EnterGate? || e.Wake?
    ensures |Exec(s, config, e).owners| == |s.owners| && FlightStep(s.owners[i], Exec(s, config, e).owners[i])
  {
  }

  lemma LeavingSteps(s: Service, i: nat, reply: Reply, late: bool)
    requires i < |s.owners| && AtReserve(s.owners[i].stage) && AttemptOf(s.owners[i].stage)
    ensures |LeaveGateWith(s, i, reply, late).owners| == |s.owners|
    ensures FlightStep(s.owners[i], LeaveGateWith(s, i, reply, late).owners[i])
  {
  }

  lemma GateEventSteps(s: Service, config: Config, e: Event, i: nat)
    requires Target(e) == Some(i) && i < |s.owners| && AttemptOf(s.owners[i].stage)
    requires e.LeaveGate? || e.Break?
    ensures |Exec(s, config, e).owners| == |s.owners| && FlightStep(s.owners[i], Exec(s, config, e).owners[i])
  {
    if e.LeaveGate? && AtReserve(s.owners[i].stage) {
      LeavingSteps(s, i, e.reply, e.late);
    }
  }

  lemma ResultEventSteps(s: Service, config: Config, e: Event, i: nat)
    requires Target(e) == Some(i) && i < |s.owners| && AttemptOf(s.owners[i].stage)
    requires e.Head? || e.Release? || e.Respond? || e.Store? || e.Publish?
    ensures |Exec(s, config, e).owners| == |s.owners| && FlightStep(s.owners[i], Exec(s, config, e).owners[i])
  {
    if e.Respond? {
      RespondSteps(s, config, i, e.outcome, e.retry, e.asks);
    }
  }

  lemma RespondSteps(s: Service, config: Config, i: nat, outcome: Outcome, retry: bool, asks: bool)
    requires i < |s.owners| && AttemptOf(s.owners[i].stage)
    ensures |Exec(s, config, Respond(i, outcome, retry, asks)).owners| == |s.owners|
    ensures FlightStep(s.owners[i], Exec(s, config, Respond(i, outcome, retry, asks)).owners[i])
  {
  }

  /** The other events leave every lookup alone; registering may add one. */
  lemma CallerEventKeepsFlights(s: Service, config: Config, e: Event)
    requires Target(e).None?
    ensures var t := Exec(s, config, e);
            && |s.owners| <= |t.owners|
            && (forall j :: 0 <= j < |s.owners| ==> t.owners[j] == s.owners[j])
            && forall j :: |s.owners| <= j < |t.owners| ==> t.owners[j].stage.Rechecking? && t.owners[j].tokens == []
  {
  }

  lemma StepKeepsFlights(s: Service, config: Config, e: Event)
    requires LedgerInv(s.owners, s.ledger)
    ensures |s.owners| <= |Exec(s, config, e).owners|
    ensures forall i :: 0 <= i < |s.owners| ==> FlightStep(s.owners[i], Exec(s, config, e).owners[i])
  {
    var t := Exec(s, config, e);
    match Target(e)
    case None =>
      CallerEventKeepsFlights(s, config, e);
    case Some(k) =>
      OwnerEventIsLocal(s, config, e, k);
      if k < |s.owners| {
        assert LedgerOk(s.owners[k], k, s.ledger);
        OwnerEventSteps(s, config, e, k);
      }
  }

  lemma LedgerStep(s: Service, config: Config, e: Event)
    ensures s.ledger <= Exec(s, config, e).ledger
  {
    if !e.LeaveGate? && !e.Break? {
      assert Exec(s, config, e).ledger == s.ledger;
    }
  }

  /** A published result is final, and its lookup never enters the table again. */
  lemma {:induction false} ResultsAreFinal(s: Service, config: Config, events: seq<Event>, i: nat)
    requires Inv(s, config) && i < |s.owners|
    ensures Inv(Run(s, config, events), config)
    ensures i < |Run(s, config, events).owners|
    ensures Run(s, config, events).owners[i].key == s.owners[i].key
    ensures s.owners[i].stage.Done? ==> Run(s, config, events).owners[i] == s.owners[i]
  {
    if events != [] {
      ResultsAreFinal(s, config, events[..|events| - 1], i);
      StepKeepsFlights(Run(s, config, events[..|events| - 1]), config, events[|events| - 1]);
      StepKeepsInv(Run(s, config, events[..|events| - 1]), config, events[|events| - 1]);
    }
  }

  /** Owner and joiners of a lookup, however they interleave, are all given its one published outcome. */
  lemma JoinersShareOutcome(config: Config, events: seq<Event>, c: nat, d: nat)
    requires var s := Run(Start(config), config, events);
             c < |s.callers| && d < |s.callers| && s.callers[c].state.Answered? && s.callers[d].state.Answered?
             && s.callers[c].state.source.Some? && s.callers[d].state.source.Some?
             && s.callers[c].state.source.value.0 == s.callers[d].state.source.value.0
    ensures var s := Run(Start(config), config, events);
            s.callers[c].key == s.callers[d].key
            && s.callers[c].state.result.outcome == s.callers[d].state.result.outcome
            && (s.callers[c].state.source.value.1 ==> !s.callers[c].state.result.cacheHit)
  {
    RunKeepsInv(config, events);
    var s := Run(Start(config), config, events);
    assert CallerOk(s.callers[c], s.owners) && CallerOk(s.callers[d], s.owners);
  }

  // ---- Reservations ----

  /** Every send has its own committed reservation, made for its own lookup, and a lookup sends at most twice. */
  lemma SendsAreReserved(config: Config, events: seq<Event>, i: nat, j: nat, k: nat, l: nat)
    requires var s := Run(Start(config), config, events);
             i < |s.owners| && j < |s.owners| && k < |s.owners[i].tokens| && l < |s.owners[j].tokens|
    ensures var s := Run(Start(config), config, events);
            && s.owners[i].tokens[k] < |s.ledger| && s.ledger[s.owners[i].tokens[k]] == i
            && (s.owners[i].tokens[k] == s.owners[j].tokens[l] ==> i == j && k == l)
            && |s.owners[i].tokens| <= 2
  {
    RunKeepsInv(config, events);
    var s := Run(Start(config), config, events);
    assert LedgerOk(s.owners[i], i, s.ledger) && LedgerOk(s.owners[j], j, s.ledger);
  }

  /** Reservations are never refunded. */
  lemma {:induction false} LedgerOnlyGrows(s: Service, config: Config, events: seq<Event>)
    ensures s.ledger <= Run(s, config, events).ledger
  {
    if events != [] {
      LedgerOnlyGrows(s, config, events[..|events| - 1]);
      LedgerStep(Run(s, config, events[..|events| - 1]), config, events[|events| - 1]);
    }
  }

  // ---- No second fetch ----

  lemma StoringEffect(s: Service, config: Config, i: nat, stored: bool)
    requires i < |s.owners| && s.owners[i].stage.Caching? && s.gate.None?
    ensures var t := Exec(s, config, Store(i, stored));
            && t.cache.Keys <= s.cache.Keys + {s.owners[i].key}
            && t.owners[i].key == s.owners[i].key && !AtWork(t.owners[i].stage)
  {
  }

  /** A key newly cached by its one live lookup has no other at work on it. */
  lemma StoredOnceIsEnough(flights: map<Key, nat>, a: seq<Flight>, b: seq<Flight>, config: Config,
                           cache: map<Key, nat>, cached: map<Key, nat>, i: nat)
    requires TableInv(flights, a, config) && NoRefetch(a, cache) && i < |a| == |b| && !a[i].stage.Done?
    requires forall j :: 0 <= j < |a| && j != i ==> b[j] == a[j]
    requires b[i].key == a[i].key && !AtWork(b[i].stage) && cached.Keys <= cache.Keys + {a[i].key}
    ensures NoRefetch(b, cached)
  {
    forall j | 0 <= j < |b| && b[j].key in cached ensures !AtWork(b[j].stage) {
      if j != i && a[j].key == a[i].key {
        LiveFlightsDiffer(flights, a, config, i, j);
      } else if j != i {
        assert a[j].key in cache;
      }
    }
  }

  lemma StoreKeepsNoRefetch(s: Service, config: Config, i: nat, stored: bool)
    requires TableInv(s.flights, s.owners, config) && NoRefetchInv(s)
    ensures NoRefetchInv(Exec(s, config, Store(i, stored)))
  {
    if i < |s.owners| && s.owners[i].stage.Caching? && s.gate.None? {
      var t := Exec(s, config, Store(i, stored));
      OwnerEventIsLocal(s, config, Store(i, stored), i);
      StoringEffect(s, config, i, stored);
      StoredOnceIsEnough(s.flights, s.owners, t.owners, config, s.cache, t.cache, i);
    }
  }

  /** Of two lookups with one key, at most one is unpublished. */
  lemma LiveFlightsDiffer(flights: map<Key, nat>, owners: seq<Flight>, config: Config, i: nat, j: nat)
    requires TableInv(flights, owners, config) && i < |owners| && j < |owners| && i != j
    requires owners[i].key == owners[j].key && !owners[i].stage.Done?
    ensures owners[j].stage.Done?
  {
    assert InTable(flights, owners, i);
    assert !InTable(flights, owners, j);
  }

  lemma OtherEventsKeepCache(s: Service, config: Config, e: Event)
    requires Faultless(e) && !e.Store?
    ensures Exec(s, config, e).cache == s.cache
  {
    if e.LeaveGate? {
      if e.flight < |s.owners| && AtReserve(s.owners[e.flight].stage) { LeavingKeepsCache(s, e.flight, e.reply, e.late); }
    }
  }

  lemma LeavingKeepsCache(s: Service, i: nat, reply: Reply, late: bool)
    requires i < |s.owners| && AtReserve(s.owners[i].stage)
    ensures LeaveGateWith(s, i, reply, late).cache == s.cache
  {
  }

  /** A recheck of a cached key ends the lookup without a fetch. */
  lemma RecheckFindsCached(s: Service, config: Config, e: Event, i: nat)
    requires Faultless(e) && Target(e) == Some(i) && i < |s.owners|
    requires s.owners[i].stage.Rechecking? && s.owners[i].key in s.cache
    ensures !AtWork(Exec(s, config, e).owners[i].stage)
  {
  }

  lemma QuietStepKeepsNoRefetch(a: seq<Flight>, b: seq<Flight>, cache: map<Key, nat>)
    requires NoRefetch(a, cache) && |a| <= |b|
    requires forall j :: 0 <= j < |a| ==> FlightStep(a[j], b[j])
    requires forall j :: 0 <= j < |a| && a[j].stage.Rechecking? && a[j].key in cache ==> !AtWork(b[j].stage)
    requires forall j :: |a| <= j < |b| ==> b[j].stage.Rechecking?
    ensures NoRefetch(b, cache)
  {
    forall j | 0 <= j < |b| && b[j].key in cache ensures !AtWork(b[j].stage) {
      assert j < |a| ==> FlightStep(a[j], b[j]);
    }
  }

  lemma StepKeepsNoRefetch(s: Service, config: Config, e: Event)
    requires Inv(s, config) && NoRefetchInv(s) && Faultless(e)
    ensures NoRefetchInv(Exec(s, config, e))
  {
    if e.Store? {
      StoreKeepsNoRefetch(s, config, e.flight, e.stored);
    } else {
      var t := Exec(s, config, e);
      OtherEventsKeepCache(s, config, e);
      StepKeepsFlights(s, config, e);
      forall j | 0 <= j < |s.owners| && s.owners[j].stage.Rechecking? && s.owners[j].key in s.cache
        ensures !AtWork(t.owners[j].stage)
      {
        RecheckingStaysIdle(s, config, e, j);
      }
      forall j | |s.owners| <= j < |t.owners| ensures t.owners[j].stage.Rechecking? {
        NewFlightsAreFresh(s, config, e, j);
      }
      QuietStepKeepsNoRefetch(s.owners, t.owners, s.cache);
    }
  }

  lemma RecheckingStaysIdle(s: Service, config: Config, e: Event, j: nat)
    requires Faultless(e) && j < |s.owners| <= |Exec(s, config, e).owners|
    requires s.owners[j].stage.Rechecking? && s.owners[j].key in s.cache
    ensures !AtWork(Exec(s, config, e).owners[j].stage)
  {
    if Exec(s, config, e).owners[j] != s.owners[j] {
      ChangedFlightIsTarget(s, config, e, j);
      RecheckFindsCached(s, config, e, j);
    }
  }

  lemma ChangedFlightIsTarget(s: Service, config: Config, e: Event, j: nat)
    requires j < |s.owners| && |s.owners| <= |Exec(s, config, e).owners|
    requires Exec(s, config, e).owners[j] != s.owners[j]
    ensures Target(e) == Some(j)
  {
    match Target(e)
    case None =>
      CallerEventKeepsFlights(s, config, e);
    case Some(i) => OwnerEventIsLocal(s, config, e, i);
  }

  lemma NewFlightsAreFresh(s: Service, config: Config, e: Event, j: nat)
    requires |s.owners| <= j < |Exec(s, config, e).owners|
    ensures Exec(s, config, e).owners[j].stage.Rechecking? && Exec(s, config, e).owners[j].tokens == []
  {
    match Target(e)
    case None => CallerEventKeepsFlights(s, config, e);
    case Some(i) => OwnerEventIsLocal(s, config, e, i);
  }

  ghost predicate AllFaultless(events: seq<Event>) {
    forall k :: 0 <= k < |events| ==> Faultless(events[k])
  }

  lemma {:induction false} RunKeepsNoRefetch(config: Config, events: seq<Event>)
    requires AllFaultless(events)
    ensures NoRefetchInv(Run(Start(config), config, events))
  {
    if events != [] {
      var n := |events| - 1;
      RunKeepsNoRefetch(config, events[..n]);
      RunKeepsInv(config, events[..n]);
      StepKeepsNoRefetch(Run(Start(config), config, events[..n]), config, events[n]);
    }
  }

  function TokensOf(s: Service, i: nat): seq<nat> {
    if i < |s.owners| then s.owners[i].tokens else []
  }

  lemma StepSendsNothing(s: Service, config: Config, e: Event, key: Key)
    requires Inv(s, config) && NoRefetchInv(s) && Faultless(e) && key in s.cache
    ensures key in Exec(s, config, e).cache
    ensures |s.owners| <= |Exec(s, config, e).owners|
    ensures forall i :: 0 <= i < |Exec(s, config, e).owners| && Exec(s, config, e).owners[i].key == key ==>
              TokensOf(Exec(s, config, e), i) == TokensOf(s, i) && (i < |s.owners| ==> s.owners[i].key == key)
  {
    var t := Exec(s, config, e);
    if !e.Store? { OtherEventsKeepCache(s, config, e); }
    StepKeepsFlights(s, config, e);
    forall i | 0 <= i < |t.owners| && t.owners[i].key == key
      ensures TokensOf(t, i) == TokensOf(s, i) && (i < |s.owners| ==> s.owners[i].key == key)
    {
      if i >= |s.owners| {
        NewFlightsAreFresh(s, config, e, i);
      } else {
        assert FlightStep(s.owners[i], t.owners[i]);
      }
    }
  }

  /** Once a key is cached, nothing is sent for it any more: not by later lookups, nor by any still under way. */
  lemma {:induction false} CachedKeySendsNothing(s: Service, config: Config, later: seq<Event>, key: Key)
    requires Inv(s, config) && NoRefetchInv(s) && AllFaultless(later) && key in s.cache
    ensures var t := Run(s, config, later);
            && Inv(t, config) && NoRefetchInv(t) && key in t.cache && |s.owners| <= |t.owners|
            && forall i :: 0 <= i < |t.owners| && t.owners[i].key == key ==>
                 TokensOf(t, i) == TokensOf(s, i) && (i < |s.owners| ==> s.owners[i].key == key)
  {
    if later != [] {
      var n := |later| - 1;
      CachedKeySendsNothing(s, config, later[..n], key);
      var before := Run(s, config, later[..n]);
      StepKeepsInv(before, config, later[n]);
      StepKeepsNoRefetch(before, config, later[n]);
      StepSendsNothing(before, config, later[n], key);
      var t := Exec(before, config, later[n]);
      forall i | 0 <= i < |t.owners| && t.owners[i].key == key
        ensures TokensOf(t, i) == TokensOf(s, i) && (i < |s.owners| ==> s.owners[i].key == key)
      {
        assert TokensOf(t, i) == TokensOf(before, i);
      }
    }
  }

  /** The same from the start of the service: after any faultless run that left the key cached. */
  lemma NoRefetchInEveryRun(config: Config, events: seq<Event>, later: seq<Event>, key: Key, i: nat)
    requires AllFaultless(events) && AllFaultless(later)
    ensures var s := Run(Start(config), config, events);
            var t := Run(s, config, later);
            key in s.cache && i < |t.owners| && t.owners[i].key == key ==> TokensOf(t, i) == TokensOf(s, i)
  {
    var s := Run(Start(config), config, events);
    if key in s.cache {
      RunKeepsInv(config, events);
      RunKeepsNoRefetch(config, events);
      CachedKeySendsNothing(s, config, later, key);
    }
  }

  // ---- Permits and progress ----

  /** In-flight attempts stay within the provider's and the global permits. */
  lemma AttemptsWithinPermits(config: Config, events: seq<Event>, r: Resource)
    ensures Count(Run(Start(config), config, events).owners, r) <= Capacity(config, r)
  {
    RunKeepsInv(config, events);
    var s := Run(Start(config), config, events);
    assert Free(s.providerFree, s.globalFree, r) + Count(s.owners, r) == Capacity(config, r);
  }

  /** What lookup `i` would do next if nothing failed. */
  function NextEvent(s: Service, i: nat): Event
    requires i < |s.owners|
  {
    match s.owners[i].stage
    case Rechecking => Recheck(i, false)
    case WantProvider(_) => TakeProvider(i)
    case WantGlobal(_) => TakeGlobal(i)
    case WantGate(_, _) => EnterGate(i)
    case InGate(_, visit) => if visit.Reserving? then LeaveGate(i, Granted, false) else Release(i)
    case Sending(_) => Head(i, true)
    case Receiving(_) => Respond(i, Report(0), false, false)
    case Backoff => Wake(i)
    case Caching(_) => Store(i, true)
    case Publishing(_) => Publish(i)
    case Done => Publish(i)
  }

  /** What is left once an attempt reaches its end: a retry may follow the first. */
  function RankAfter(attempt: nat): nat {
    if attempt == 0 then 13 else 2
  }

  function Rank(stage: Stage): nat {
    match stage
    case Rechecking => 24
    case WantProvider(a) => RankAfter(a) + 10
    case WantGlobal(a) => RankAfter(a) + 9
    case WantGate(a, visit) => RankOfVisit(a, visit) + 1
    case InGate(a, visit) => RankOfVisit(a, visit)
    case Sending(a) => RankAfter(a) + 6
    case Receiving(a) => RankAfter(a) + 3
    case Backoff => 13
    case Caching(_) => 2
    case Publishing(_) => 1
    case Done => 0
  }

  function RankOfVisit(attempt: nat, visit: Visit): nat {
    match visit
    case Reserving => RankAfter(attempt) + 7
    case Saving => RankAfter(attempt) + 4
    case Asking(_) => RankAfter(attempt) + 1
  }

  /** Whatever happens to a lookup takes it strictly closer to its end: at most twenty-four steps in all. */
  lemma StagesOnlyDescend(s: Service, config: Config, e: Event, i: nat)
    requires Inv(s, config) && i < |s.owners|
    ensures i < |Exec(s, config, e).owners|
    ensures Exec(s, config, e).owners[i].stage == s.owners[i].stage
            || Rank(Exec(s, config, e).owners[i].stage) < Rank(s.owners[i].stage)
  {
    StepKeepsFlights(s, config, e);
  }

  predicate Unblocked(s: Service, i: nat)
    requires i < |s.owners|
  {
    match s.owners[i].stage
    case Rechecking => s.gate.None?
    case WantProvider(_) => s.providerFree.Get(s.owners[i].key.provider) > 0
    case WantGlobal(_) => s.globalFree > 0
    case WantGate(_, _) => s.gate.None?
    case Caching(_) => s.gate.None?
    case Done => false
    case _ => true
  }

  /** As long as any lookup is live, some lookup is not waiting: there is no deadlock. */
  lemma SomeLookupUnblocked(s: Service, config: Config, i: nat) returns (j: nat)
    requires config.Valid() && Inv(s, config) && i < |s.owners| && !s.owners[i].stage.Done?
    ensures j < |s.owners| && Unblocked(s, j)
  {
    if s.gate.Some? {
      return s.gate.value;
    }
    j := i;
    if s.owners[j].stage.WantProvider? && !Unblocked(s, j) {
      var r := ProviderPermit(s.owners[j].key.provider);
      assert Free(s.providerFree, s.globalFree, r) + Count(s.owners, r) == Capacity(config, r);
      j := SomeHolder(s.owners, r);
    }
    if s.owners[j].stage.WantGlobal? && !Unblocked(s, j) {
      assert Free(s.providerFree, s.globalFree, GlobalPermit) + Count(s.owners, GlobalPermit)
             == Capacity(config, GlobalPermit);
      j := SomeHolder(s.owners, GlobalPermit);
    }
  }

  function Ranks(owners: seq<Flight>): seq<nat> {
    seq(|owners|, i requires 0 <= i < |owners| => Rank(owners[i].stage))
  }

  function Sum(a: seq<nat>): nat {
    if a == [] then 0 else Sum(a[..|a| - 1]) + a[|a| - 1]
  }

  lemma {:induction false} SumDescends(a: seq<nat>, b: seq<nat>)
    requires |a| == |b| && forall i :: 0 <= i < |a| ==> b[i] <= a[i]
    ensures Sum(b) <= Sum(a)
    ensures (exists i :: 0 <= i < |a| && b[i] < a[i]) ==> Sum(b) < Sum(a)
  {
    if a != [] {
      SumDescends(a[..|a| - 1], b[..|a| - 1]);
    }
  }

  lemma UnblockedStepDescends(s: Service, config: Config, i: nat)
    requires Inv(s, config) && i < |s.owners| && Unblocked(s, i)
    ensures |Exec(s, config, NextEvent(s, i)).owners| == |s.owners|
    ensures Rank(Exec(s, config, NextEvent(s, i)).owners[i].stage) < Rank(s.owners[i].stage)
  {
    assert LedgerOk(s.owners[i], i, s.ledger);
    OwnerEventSteps(s, config, NextEvent(s, i), i);
    UnblockedStepMoves(s, config, i);
  }

  lemma UnblockedStepMoves(s: Service, config: Config, i: nat)
    requires i < |s.owners| && Unblocked(s, i)
    ensures |Exec(s, config, NextEvent(s, i)).owners| == |s.owners|
    ensures Exec(s, config, NextEvent(s, i)).owners[i].stage != s.owners[i].stage
  {
    if s.owners[i].stage.InGate? {
      VisitMoves(s, config, i);
    } else if !HoldsGlobal(s.owners[i].stage) {
      OutsideMoves(s, config, i);
    }
  }

  lemma VisitMoves(s: Service, config: Config, i: nat)
    requires i < |s.owners| && s.owners[i].stage.InGate?
    ensures |Exec(s, config, NextEvent(s, i)).owners| == |s.owners|
    ensures Exec(s, config, NextEvent(s, i)).owners[i].stage != s.owners[i].stage
  {
  }

  lemma OutsideMoves(s: Service, config: Config, i: nat)
    requires i < |s.owners| && Unblocked(s, i) && !HoldsGlobal(s.owners[i].stage)
    ensures |Exec(s, config, NextEvent(s, i)).owners| == |s.owners|
    ensures Exec(s, config, NextEvent(s, i)).owners[i].stage != s.owners[i].stage
  {
  }

  lemma {:induction false} RunFromFront(s: Service, config: Config, e: Event, rest: seq<Event>)
    ensures Run(s, config, [e] + rest) == Run(Exec(s, config, e), config, rest)
  {
    var all := [e] + rest;
    if rest == [] {
      assert all[..0] == [];
    } else {
      var n := |rest| - 1;
      assert all[..n + 1] == [e] + rest[..n];
      RunFromFront(s, config, e, rest[..n]);
    }
  }

  lemma OwnerEventKeepsCallers(s: Service, config: Config, e: Event)
    requires Target(e).Some?
    ensures Exec(s, config, e).callers == s.callers
  {
    if e.LeaveGate? && e.flight < |s.owners| && AtReserve(s.owners[e.flight].stage) {
      LeavingKeepsCallers(s, e.flight, e.reply, e.late);
    }
  }

  lemma LeavingKeepsCallers(s: Service, i: nat, reply: Reply, late: bool)
    requires i < |s.owners| && AtReserve(s.owners[i].stage)
    ensures LeaveGateWith(s, i, reply, late).callers == s.callers
  {
  }

  /** While a lookup is live there is a step that brings the lookups closer to their end. */
  lemma DescendingStep(s: Service, config: Config, i: nat) returns (e: Event)
    requires config.Valid() && Inv(s, config) && i < |s.owners| && !s.owners[i].stage.Done?
    ensures var t := Exec(s, config, e);
            Inv(t, config) && |t.owners| == |s.owners| && t.callers == s.callers && Sum(Ranks(t.owners)) < Sum(Ranks(s.owners))
  {
    var j := SomeLookupUnblocked(s, config, i);
    e := NextEvent(s, j);
    var t := Exec(s, config, e);
    StepKeepsInv(s, config, e);
    UnblockedStepDescends(s, config, j);
    OwnerEventKeepsCallers(s, config, e);
    forall k | 0 <= k < |s.owners| ensures Rank(t.owners[k].stage) <= Rank(s.owners[k].stage) {
      StagesOnlyDescend(s, config, e, k);
    }
    SumDescends(Ranks(s.owners), Ranks(t.owners));
    assert Ranks(t.owners)[j] < Ranks(s.owners)[j];
  }

  /** From every state the service can reach, every lookup can still publish. */
  lemma {:induction false} EveryLookupCanFinish(s: Service, config: Config) returns (events: seq<Event>)
    requires config.Valid() && Inv(s, config)
    ensures var t := Run(s, config, events);
            |t.owners| == |s.owners| && t.flights == map[] && t.callers == s.callers && Inv(t, config)
            && forall i :: 0 <= i < |t.owners| ==> t.owners[i].stage.Done? && t.owners[i].cell.Some?
    decreases Sum(Ranks(s.owners))
  {
    if i :| 0 <= i < |s.owners| && !s.owners[i].stage.Done? {
      var e := DescendingStep(s, config, i);
      var rest := EveryLookupCanFinish(Exec(s, config, e), config);
      events := [e] + rest;
      RunFromFront(s, config, e, rest);
    } else {
      events := [];
      if key :| key in s.flights {
        assert InTable(s.flights, s.owners, s.flights[key]);
      }
    }
  }
}
