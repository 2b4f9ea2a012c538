/**
 What callers of the shared-lookup service are told: who joins and who owns, that everyone waiting can be
 answered, which failure stands for what, and that every report given out was fetched for the caller's own key.
 */
module SharedLookupAnswers {
  import opened Basics
  import opened SharedLookup
  import opened SharedLookupProofs
  import opened SharedLookupTheorems

  // ---- Joining and owning ----

  /** A caller whose key is in the table waits, as a joiner, on that entry, and nothing else changes. */
  lemma PresentKeyIsJoined(s: Service, config: Config, c: nat)
    requires c < |s.callers| && s.callers[c].state.Missed? && s.callers[c].key in s.flights
    ensures var t := Exec(s, config, Register(c));
            && t.callers == s.callers[c := s.callers[c].(state := Waiting(s.flights[s.callers[c].key], true))]
            && t == s.(callers := t.callers)
  {
  }

  /** A caller whose key is absent owns a new lookup exactly when there is room and nothing is cancelled. */
  lemma AbsentKeyIsOwned(s: Service, config: Config, c: nat)
    requires c < |s.callers| && s.callers[c].state.Missed? && s.callers[c].key !in s.flights
    ensures var t := Exec(s, config, Register(c));
            var key := s.callers[c].key;
            && |t.callers| == |s.callers| && t.callers[c].key == key && t.ledger == s.ledger && t.cache == s.cache
            && (forall d :: 0 <= d < |s.callers| && d != c ==> t.callers[d] == s.callers[d])
            && if |s.flights| < config.maxShared && !s.cancelled then
                 && t.callers[c].state == Waiting(|s.owners|, false)
                 && t.flights == s.flights[key := |s.owners|]
                 && |t.owners| == |s.owners| + 1 && t.owners[..|s.owners|] == s.owners
                 && t.owners[|s.owners|].key == key && t.owners[|s.owners|].cell.None?
                 && t.owners[|s.owners|].stage.Rechecking? && t.owners[|s.owners|].tokens == []
               else
                 && t.flights == s.flights && t.owners == s.owners
                 && t.callers[c].state.Answered? && t.callers[c].state.source.None?
                 && t.callers[c].state.result
                    == LookupResult(Failed(if |s.flights| < config.maxShared then ServiceUnavailable else ProviderBusy), false)
  {
  }

  /** A joined entry is a live lookup of the caller's own key. */
  lemma JoinedLookupIsLive(s: Service, config: Config, key: Key)
    requires Inv(s, config) && key in s.flights
    ensures s.flights[key] < |s.owners| && s.owners[s.flights[key]].key == key
    ensures s.owners[s.flights[key]].cell.None? && !s.owners[s.flights[key]].stage.Done?
  {
    assert InTable(s.flights, s.owners, s.flights[key]);
  }

  // ---- Everyone waiting can be answered ----

  /** Caller `c` was given what its lookup published; a joiner's is no cache hit. */
  predicate AnsweredBy(s: Service, c: nat, flight: nat, joined: bool) {
    c < |s.callers| && flight < |s.owners| && s.owners[flight].cell.Some?
    && s.callers[c].state.Answered? && s.callers[c].state.source == Some((flight, joined))
    && s.callers[c].state.result.outcome == s.owners[flight].cell.value.outcome
    && (s.callers[c].state.result.cacheHit <==> !joined && s.owners[flight].cell.value.cacheHit)
  }

  lemma ReceiveAnswers(s: Service, config: Config, c: nat)
    requires c < |s.callers| && s.callers[c].state.Waiting?
    requires s.callers[c].state.flight < |s.owners| && s.owners[s.callers[c].state.flight].cell.Some?
    ensures var t := Exec(s, config, Receive(c));
            && AnsweredBy(t, c, s.callers[c].state.flight, s.callers[c].state.joined)
            && t == s.(callers := t.callers) && |t.callers| == |s.callers|
            && forall d :: 0 <= d < |s.callers| && d != c ==> t.callers[d] == s.callers[d]
  {
  }

  /** The first `n` callers receive what their finished lookups published. */
  lemma {:induction false} ReceiveFirst(s: Service, config: Config, n: nat) returns (events: seq<Event>)
    requires CallerInv(s.callers, s.owners) && n <= |s.callers|
    requires forall i :: 0 <= i < |s.owners| ==> s.owners[i].cell.Some?
    ensures var t := Run(s, config, events);
            && t == s.(callers := t.callers) && |t.callers| == |s.callers|
            && (forall c :: 0 <= c < n && s.callers[c].state.Waiting? ==>
                  AnsweredBy(t, c, s.callers[c].state.flight, s.callers[c].state.joined))
            && (forall c :: 0 <= c < |s.callers| && (c >= n || !s.callers[c].state.Waiting?) ==>
                  t.callers[c] == s.callers[c])
  {
    if n == 0 {
      events := [];
    } else {
      events := ReceiveFirst(s, config, n - 1);
      var t := Run(s, config, events);
      assert t.callers[n - 1] == s.callers[n - 1] && CallerOk(s.callers[n - 1], s.owners);
      if s.callers[n - 1].state.Waiting? {
        RunOneMore(s, config, events, Receive(n - 1));
        ReceiveAnswers(t, config, n - 1);
        events := events + [Receive(n - 1)];
      }
    }
  }

  lemma RunOneMore(s: Service, config: Config, events: seq<Event>, e: Event)
    ensures Run(s, config, events + [e]) == Exec(Run(s, config, events), config, e)
  {
    assert (events + [e])[..|events|] == events;
  }

  /** In every state the service can reach, all lookups can publish and then every waiting caller be answered by its own. */
  lemma EveryWaiterCanBeAnswered(s: Service, config: Config) returns (finishing: seq<Event>, receiving: seq<Event>)
    requires config.Valid() && Inv(s, config)
    ensures var t := Run(Run(s, config, finishing), config, receiving);
            && t.flights == map[] && |t.callers| == |s.callers|
            && forall c :: 0 <= c < |s.callers| && s.callers[c].state.Waiting? ==>
                 AnsweredBy(t, c, s.callers[c].state.flight, s.callers[c].state.joined)
                 && t.owners[s.callers[c].state.flight].key == s.callers[c].key
  {
    finishing := EveryLookupCanFinish(s, config);
    var mid := Run(s, config, finishing);
    forall c | 0 <= c < |s.callers| && s.callers[c].state.Waiting?
      ensures mid.owners[s.callers[c].state.flight].key == s.callers[c].key
    {
      assert CallerOk(mid.callers[c], mid.owners);
    }
    receiving := ReceiveFirst(mid, config, |mid.callers|);
  }

  // ---- Cache hits ----

  /** A caller that finds its key cached is answered with the cached report at once; a miss or a fault goes on. */
  lemma ReadAnswers(s: Service, config: Config, c: nat, fault: bool)
    requires c < |s.callers| && s.callers[c].state.Reading? && s.gate.None?
    ensures var t := Exec(s, config, Read(c, fault));
            var key := s.callers[c].key;
            && t == s.(callers := t.callers) && |t.callers| == |s.callers| && t.callers[c].key == key
            && (forall d :: 0 <= d < |s.callers| && d != c ==> t.callers[d] == s.callers[d])
            && t.callers[c].state == if !fault && key in s.cache
                                     then Answered(LookupResult(Report(s.cache[key]), true), None) else Missed
  {
  }

  /** A lookup that finds its key cached publishes the cached report; a miss or a fault goes on to fetch. */
  lemma RecheckAnswers(s: Service, config: Config, i: nat, fault: bool)
    requires i < |s.owners| && s.owners[i].stage.Rechecking? && s.gate.None?
    ensures var t := Exec(s, config, Recheck(i, fault));
            var key := s.owners[i].key;
            && |t.owners| == |s.owners| && t.cache == s.cache
            && t.owners[i].stage == if !fault && key in s.cache
                                    then Publishing(LookupResult(Report(s.cache[key]), true)) else WantProvider(0)
  {
  }

  /** A response ends the attempt with its report, with its failure, or, once, in a backoff. */
  lemma ResponseDecides(s: Service, config: Config, i: nat, outcome: Outcome, retry: bool, asks: bool)
    requires i < |s.owners| && s.owners[i].stage.Receiving?
    ensures var t := Exec(s, config, Respond(i, outcome, retry, asks));
            var again := retry && s.owners[i].stage.attempt == 0;
            && |t.owners| == |s.owners|
            && match outcome
               case Report(id) => t.owners[i].stage == if again then Backoff else Caching(id)
               case Failed(code) =>
                 if asks then t.owners[i].stage == WantGate(s.owners[i].stage.attempt, Asking(code))
                 else t.owners[i].stage == if again then Backoff else Publishing(LookupResult(outcome, false))
  {
  }

  /** Storing a report caches it or does not; either way the lookup publishes it. */
  lemma StoringPublishes(s: Service, config: Config, i: nat, stored: bool)
    requires i < |s.owners| && s.owners[i].stage.Caching? && s.gate.None?
    ensures var t := Exec(s, config, Store(i, stored));
            && |t.owners| == |s.owners|
            && t.owners[i].stage == Publishing(LookupResult(Report(s.owners[i].stage.report), false))
            && t.cache == if stored then s.cache[s.owners[i].key := s.owners[i].stage.report] else s.cache
  {
  }

  /** What a lookup is told when the storage does not let it send. */
  lemma RefusalsAreTold(s: Service, config: Config, i: nat, reply: Reply, late: bool)
    requires i < |s.owners| && AtReserve(s.owners[i].stage)
    ensures var t := Exec(s, config, LeaveGate(i, reply, late));
            && |t.owners| == |s.owners|
            && match reply
               case Granted =>
                 t.owners[i].stage == if late then Publishing(LookupResult(Failed(ProviderTimeout), false))
                                      else Sending(s.owners[i].stage.attempt)
               case Refused => t.owners[i].stage == Publishing(LookupResult(Failed(QuotaExhausted), false))
               case Lost(_) => t.owners[i].stage == Publishing(LookupResult(Failed(StorageUnavailable), false))
  {
  }

  /** Publishing hands out exactly the result that was reached. */
  lemma PublishingTells(s: Service, config: Config, i: nat)
    requires i < |s.owners| && s.owners[i].stage.Publishing?
    ensures var t := Exec(s, config, Publish(i));
            && |t.owners| == |s.owners| && t.owners[i].stage.Done?
            && t.owners[i].cell == Some(s.owners[i].stage.result) && t.owners[i].key == s.owners[i].key
  {
  }

  /** The lookup has its report `id` and is on its way to publish it, or has. */
  predicate Brings(f: Flight, id: nat) {
    match f.stage
    case Caching(report) => report == id
    case Publishing(result) => result == LookupResult(Report(id), false)
    case Done => f.cell == Some(LookupResult(Report(id), false))
    case _ => false
  }

  lemma StepBrings(s: Service, config: Config, e: Event, i: nat, id: nat)
    requires LedgerInv(s.owners, s.ledger) && i < |s.owners| && Brings(s.owners[i], id)
    requires !(e.Break? && e.flight == i)
    ensures i < |Exec(s, config, e).owners| && Brings(Exec(s, config, e).owners[i], id)
  {
    StepKeepsFlights(s, config, e);
    match Target(e)
    case None => CallerEventKeepsFlights(s, config, e);
    case Some(k) =>
      if k != i {
        OwnerEventIsLocal(s, config, e, k);
      } else {
        OwnEventBrings(s, config, e, i, id);
      }
  }

  lemma OwnEventBrings(s: Service, config: Config, e: Event, i: nat, id: nat)
    requires i < |s.owners| && Brings(s.owners[i], id) && Target(e) == Some(i) && !e.Break?
    ensures i < |Exec(s, config, e).owners| && Brings(Exec(s, config, e).owners[i], id)
  {
  }

  /** A fetched report is what its lookup publishes, whether or not it could be cached, unless the task is cut short. */
  lemma {:induction false} FetchedReportIsPublished(s: Service, config: Config, events: seq<Event>, i: nat, id: nat)
    requires Inv(s, config) && i < |s.owners| && s.owners[i].stage == Caching(id)
    requires forall k :: 0 <= k < |events| ==> !(events[k].Break? && events[k].flight == i)
    ensures Inv(Run(s, config, events), config)
    ensures i < |Run(s, config, events).owners| && Brings(Run(s, config, events).owners[i], id)
  {
    if events != [] {
      var n := |events| - 1;
      FetchedReportIsPublished(s, config, events[..n], i, id);
      StepKeepsInv(Run(s, config, events[..n]), config, events[n]);
      StepBrings(Run(s, config, events[..n]), config, events[n], i, id);
    }
  }

  /** A caller that stops waiting, and a lookup whose task is cut short, are told why; nobody else is. */
  lemma GivingUpTells(s: Service, config: Config, c: nat, i: nat, code: ErrorCode)
    requires c < |s.callers| && !s.callers[c].state.Answered?
    requires i < |s.owners| && !s.owners[i].stage.Publishing? && !s.owners[i].stage.Done?
    ensures var t := Exec(s, config, GiveUp(c));
            && |t.callers| == |s.callers| && t == s.(callers := t.callers)
            && t.callers[c].state == Answered(LookupResult(Failed(RequestDeadlineExceeded), false), None)
            && forall d :: 0 <= d < |s.callers| && d != c ==> t.callers[d] == s.callers[d]
    ensures forall committed :: var t := Exec(s, config, Break(i, code, committed));
            |t.owners| == |s.owners| && t.owners[i].stage == Publishing(LookupResult(Failed(code), false))
  {
  }

  /** What needs the storage gate waits while it is taken, and what needs a permit waits while none is left. */
  lemma StepsWait(s: Service, config: Config, i: nat, c: nat, fault: bool, stored: bool)
    requires i < |s.owners|
    ensures s.gate.Some? ==> Exec(s, config, Read(c, fault)) == s && Exec(s, config, Recheck(i, fault)) == s
                             && Exec(s, config, EnterGate(i)) == s && Exec(s, config, Store(i, stored)) == s
    ensures s.providerFree.Get(s.owners[i].key.provider) <= 0 ==> Exec(s, config, TakeProvider(i)) == s
    ensures s.globalFree <= 0 ==> Exec(s, config, TakeGlobal(i)) == s
  {
  }

  /** Taking a permit takes exactly one, of the lookup's own provider or of the global ones. */
  lemma TakingTakesOne(s: Service, config: Config, i: nat, p: ProviderId)
    requires i < |s.owners|
    ensures s.owners[i].stage.WantProvider? && s.providerFree.Get(s.owners[i].key.provider) > 0 ==>
              var t := Exec(s, config, TakeProvider(i));
              t.globalFree == s.globalFree && |t.owners| == |s.owners| && t.owners[i].stage.WantGlobal?
              && t.providerFree.Get(p) == s.providerFree.Get(p) - if p == s.owners[i].key.provider then 1 else 0
    ensures s.owners[i].stage.WantGlobal? && s.globalFree > 0 ==>
              var t := Exec(s, config, TakeGlobal(i));
              t.globalFree == s.globalFree - 1 && |t.owners| == |s.owners| && t.owners[i].stage.WantGate?
              && t.providerFree.Get(p) == s.providerFree.Get(p)
  {
  }

  /** Global capacity is held only on top of the provider's own, and neither while waiting for it, asleep or storing. */
  lemma PermitOrder(f: Flight)
    ensures Holds(f, GlobalPermit) ==> Holds(f, ProviderPermit(f.key.provider))
    ensures forall p :: Holds(f, ProviderPermit(p)) ==> p == f.key.provider
    ensures (f.stage.WantProvider? || f.stage.Backoff? || f.stage.Rechecking? || f.stage.Caching? || f.stage.Publishing?
             || f.stage.Done?) ==> forall r :: !Holds(f, r)
    ensures f.stage.WantGlobal? ==> Holds(f, ProviderPermit(f.key.provider)) && !Holds(f, GlobalPermit)
    ensures (f.stage.WantGate? || f.stage.InGate? || f.stage.Sending? || f.stage.Receiving?) ==> Holds(f, GlobalPermit)
  {
  }

  // ---- Where reports come from ----

  /** The report that a step brings in from upstream, and the key it was fetched for. */
  function Fetched(s: Service, e: Event): set<(Key, nat)> {
    if e.Respond? && e.flight < |s.owners| && s.owners[e.flight].stage.Receiving? && e.outcome.Report?
    then {(s.owners[e.flight].key, e.outcome.id)} else {}
  }

  function AllFetched(s: Service, config: Config, events: seq<Event>): set<(Key, nat)> {
    if events == [] then {}
    else
      var n := |events| - 1;
      AllFetched(s, config, events[..n]) + Fetched(Run(s, config, events[..n]), events[n])
  }

  predicate ResultFrom(r: LookupResult, key: Key, fetched: set<(Key, nat)>) {
    r.outcome.Report? ==> (key, r.outcome.id) in fetched
  }

  predicate FlightFrom(f: Flight, fetched: set<(Key, nat)>) {
    (f.cell.Some? ==> ResultFrom(f.cell.value, f.key, fetched))
    && match f.stage
       case Caching(report) => (f.key, report) in fetched
       case Publishing(result) => ResultFrom(result, f.key, fetched)
       case _ => true
  }

  predicate CallerFrom(c: Caller, fetched: set<(Key, nat)>) {
    c.state.Answered? ==> ResultFrom(c.state.result, c.key, fetched)
  }

  ghost predicate Genuine(s: Service, fetched: set<(Key, nat)>) {
    && (forall k :: k in s.cache ==> (k, s.cache[k]) in fetched)
    && (forall i :: 0 <= i < |s.owners| ==> FlightFrom(s.owners[i], fetched))
    && (forall c :: 0 <= c < |s.callers| ==> CallerFrom(s.callers[c], fetched))
  }

  lemma OwnEventIsGenuine(s: Service, config: Config, e: Event, i: nat, fetched: set<(Key, nat)>)
    requires Genuine(s, fetched) && Target(e) == Some(i) && i < |s.owners|
    ensures var t := Exec(s, config, e);
            i < |t.owners| && FlightFrom(t.owners[i], fetched + Fetched(s, e))
            && forall k :: k in t.cache ==> (k, t.cache[k]) in fetched
  {
    assert FlightFrom(s.owners[i], fetched);
    if e.Respond? || e.LeaveGate? || e.Break? {
      AttemptEventIsGenuine(s, config, e, i, fetched);
    } else if e.Recheck? || e.Store? || e.Publish? {
      ResultEventIsGenuine(s, config, e, i, fetched);
    }
  }

  lemma AttemptEventIsGenuine(s: Service, config: Config, e: Event, i: nat, fetched: set<(Key, nat)>)
    requires Target(e) == Some(i) && i < |s.owners| && FlightFrom(s.owners[i], fetched)
    requires e.Respond? || e.LeaveGate? || e.Break?
    ensures var t := Exec(s, config, e);
            i < |t.owners| && FlightFrom(t.owners[i], fetched + Fetched(s, e)) && t.cache == s.cache
  {
    if e.Respond? {
      ResponseIsGenuine(s, config, i, e.outcome, e.retry, e.asks, fetched);
    } else if e.LeaveGate? {
      LeavingIsGenuine(s, config, i, e.reply, e.late, fetched);
    }
  }

  lemma ResponseIsGenuine(s: Service, config: Config, i: nat, outcome: Outcome, retry: bool, asks: bool,
                          fetched: set<(Key, nat)>)
    requires i < |s.owners| && FlightFrom(s.owners[i], fetched)
    ensures var e := Respond(i, outcome, retry, asks);
            var t := Exec(s, config, e);
            i < |t.owners| && FlightFrom(t.owners[i], fetched + Fetched(s, e)) && t.cache == s.cache
  {
    if s.owners[i].stage.Receiving? {
      ResponseDecides(s, config, i, outcome, retry, asks);
    }
  }

  lemma LeavingIsGenuine(s: Service, config: Config, i: nat, reply: Reply, late: bool, fetched: set<(Key, nat)>)
    requires i < |s.owners| && FlightFrom(s.owners[i], fetched)
    ensures var t := Exec(s, config, LeaveGate(i, reply, late));
            i < |t.owners| && FlightFrom(t.owners[i], fetched) && t.cache == s.cache
  {
    if AtReserve(s.owners[i].stage) {
      RefusalsAreTold(s, config, i, reply, late);
    }
  }

  lemma ResultEventIsGenuine(s: Service, config: Config, e: Event, i: nat, fetched: set<(Key, nat)>)
    requires Target(e) == Some(i) && i < |s.owners| && FlightFrom(s.owners[i], fetched)
    requires e.Recheck? || e.Store? || e.Publish?
    requires forall k :: k in s.cache ==> (k, s.cache[k]) in fetched
    ensures var t := Exec(s, config, e);
            i < |t.owners| && FlightFrom(t.owners[i], fetched)
            && forall k :: k in t.cache ==> (k, t.cache[k]) in fetched
  {
  }

  lemma CallerEventIsGenuine(s: Service, config: Config, e: Event, fetched: set<(Key, nat)>)
    requires Genuine(s, fetched) && Target(e).None? && CallerInv(s.callers, s.owners)
    ensures var t := Exec(s, config, e);
            (forall c :: 0 <= c < |t.callers| ==> CallerFrom(t.callers[c], fetched))
            && forall k :: k in t.cache ==> (k, t.cache[k]) in fetched
  {
    if e.Receive? {
      ReceivingIsGenuine(s, config, e.caller, fetched);
    } else {
      OtherCallerEventIsGenuine(s, config, e, fetched);
    }
  }

  lemma ReceivingIsGenuine(s: Service, config: Config, c: nat, fetched: set<(Key, nat)>)
    requires Genuine(s, fetched) && CallerInv(s.callers, s.owners)
    ensures var t := Exec(s, config, Receive(c));
            t.cache == s.cache && forall d :: 0 <= d < |t.callers| ==> CallerFrom(t.callers[d], fetched)
  {
    if c < |s.callers| && s.callers[c].state.Waiting? {
      var i := s.callers[c].state.flight;
      assert CallerOk(s.callers[c], s.owners);
      assert FlightFrom(s.owners[i], fetched);
      if s.owners[i].cell.Some? {
        ReceiveAnswers(s, config, c);
        assert Exec(s, config, Receive(c)).callers[c].key == s.callers[c].key;
      }
    }
  }

  lemma OtherCallerEventIsGenuine(s: Service, config: Config, e: Event, fetched: set<(Key, nat)>)
    requires Genuine(s, fetched) && Target(e).None? && !e.Receive?
    ensures var t := Exec(s, config, e);
            (forall c :: 0 <= c < |t.callers| ==> CallerFrom(t.callers[c], fetched))
            && forall k :: k in t.cache ==> (k, t.cache[k]) in fetched
  {
    if e.Register? {
      RegisteringIsGenuine(s, config, e.caller, fetched);
    } else if e.Read? {
      ReadingIsGenuine(s, config, e.caller, e.fault, fetched);
    } else {
      var t := Exec(s, config, e);
      forall c | 0 <= c < |t.callers| ensures CallerFrom(t.callers[c], fetched) {
        assert c < |s.callers| ==> CallerFrom(s.callers[c], fetched);
      }
    }
  }

  lemma RegisteringIsGenuine(s: Service, config: Config, c: nat, fetched: set<(Key, nat)>)
    requires Genuine(s, fetched)
    ensures var t := Exec(s, config, Register(c));
            t.cache == s.cache && forall d :: 0 <= d < |t.callers| ==> CallerFrom(t.callers[d], fetched)
  {
    if c < |s.callers| && s.callers[c].state.Missed? {
      if s.callers[c].key in s.flights {
        PresentKeyIsJoined(s, config, c);
      } else {
        AbsentKeyIsOwned(s, config, c);
      }
    }
  }

  lemma ReadingIsGenuine(s: Service, config: Config, c: nat, fault: bool, fetched: set<(Key, nat)>)
    requires Genuine(s, fetched)
    ensures var t := Exec(s, config, Read(c, fault));
            t.cache == s.cache && forall d :: 0 <= d < |t.callers| ==> CallerFrom(t.callers[d], fetched)
  {
    if c < |s.callers| && s.callers[c].state.Reading? && s.gate.None? {
      ReadAnswers(s, config, c, fault);
    }
  }

  lemma StepIsGenuine(s: Service, config: Config, e: Event, fetched: set<(Key, nat)>)
    requires Inv(s, config) && Genuine(s, fetched)
    ensures Genuine(Exec(s, config, e), fetched + Fetched(s, e))
  {
    match Target(e)
    case None =>
      CallerEventIsGenuine(s, config, e, fetched);
      OwnersUntouched(s, config, e, fetched);
    case Some(i) =>
      OwnerEventKeepsCallers(s, config, e);
      OthersUntouched(s, config, e, i, fetched);
      forall c | 0 <= c < |s.callers| ensures CallerFrom(s.callers[c], fetched + Fetched(s, e)) {
        assert CallerFrom(s.callers[c], fetched);
      }
  }

  lemma OwnersUntouched(s: Service, config: Config, e: Event, fetched: set<(Key, nat)>)
    requires Genuine(s, fetched) && Target(e).None?
    ensures forall i :: 0 <= i < |Exec(s, config, e).owners| ==> FlightFrom(Exec(s, config, e).owners[i], fetched)
  {
    var t := Exec(s, config, e);
    CallerEventKeepsFlights(s, config, e);
    forall i | 0 <= i < |t.owners| ensures FlightFrom(t.owners[i], fetched) {
      if i < |s.owners| { assert FlightFrom(s.owners[i], fetched); } else { NewFlightIsEmpty(s, config, e, i); }
    }
  }

  lemma OthersUntouched(s: Service, config: Config, e: Event, i: nat, fetched: set<(Key, nat)>)
    requires Genuine(s, fetched) && Target(e) == Some(i)
    ensures var t := Exec(s, config, e);
            (forall j :: 0 <= j < |t.owners| ==> FlightFrom(t.owners[j], fetched + Fetched(s, e)))
            && forall k :: k in t.cache ==> (k, t.cache[k]) in fetched
  {
    var t := Exec(s, config, e);
    OwnerEventIsLocal(s, config, e, i);
    if i < |s.owners| { OwnEventIsGenuine(s, config, e, i, fetched); } else { assert t == s; }
    forall j | 0 <= j < |t.owners| ensures FlightFrom(t.owners[j], fetched + Fetched(s, e)) {
      assert FlightFrom(s.owners[j], fetched);
    }
  }

  lemma NewFlightIsEmpty(s: Service, config: Config, e: Event, i: nat)
    requires Target(e).None? && |s.owners| <= i < |Exec(s, config, e).owners|
    ensures Exec(s, config, e).owners[i].cell.None? && Exec(s, config, e).owners[i].stage.Rechecking?
  {
  }

  lemma {:induction false} RunIsGenuine(config: Config, events: seq<Event>)
    ensures Genuine(Run(Start(config), config, events), AllFetched(Start(config), config, events))
  {
    if events != [] {
      var n := |events| - 1;
      RunIsGenuine(config, events[..n]);
      RunKeepsInv(config, events[..n]);
      StepIsGenuine(Run(Start(config), config, events[..n]), config, events[n],
                    AllFetched(Start(config), config, events[..n]));
    }
  }

  /** Every report a caller is given, from the cache, its own lookup or a joined one, was fetched for the caller's key. */
  lemma ReportsAreGenuine(config: Config, events: seq<Event>, c: nat)
    requires var s := Run(Start(config), config, events);
             c < |s.callers| && s.callers[c].state.Answered? && s.callers[c].state.result.outcome.Report?
    ensures var s := Run(Start(config), config, events);
            (s.callers[c].key, s.callers[c].state.result.outcome.id) in AllFetched(Start(config), config, events)
  {
    RunIsGenuine(config, events);
    assert CallerFrom(Run(Start(config), config, events).callers[c], AllFetched(Start(config), config, events));
  }
}
