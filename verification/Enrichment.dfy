/**
 The lookup service as an object: the locked stretches of `subscribe`, and the attempt loop of `fetch`
 with its permits and storage visits, each proved to take the steps of the shared-lookup protocol.
 */
module Enrichment {
  import opened Basics
  import opened SharedLookup

  /**
   What one attempt meets: the reservation's answer, the deadline, whether the response's head names feedback,
   and the outcome, with whether it may be retried and whether it is a 429.
   */
  datatype Meeting = Meeting(reply: Reply, late: bool, saves: bool, outcome: Outcome, retry: bool, asks: bool)

  function StageAfter(attempt: nat, m: Meeting): Stage {
    match m.reply
    case Refused => Publishing(LookupResult(Failed(QuotaExhausted), false))
    case Lost(_) => Publishing(LookupResult(Failed(StorageUnavailable), false))
    case Granted =>
      if m.late then Publishing(LookupResult(Failed(ProviderTimeout), false))
      else if m.retry && attempt == 0 && !(m.asks && m.outcome.Failed?) then Backoff
      else if m.outcome.Report? then Caching(m.outcome.id)
      else Publishing(LookupResult(Failed(m.outcome.code), false))
  }

  predicate Sends(m: Meeting) {
    m.reply == Granted && !m.late
  }

  /**
   The net effect of one attempt: every way out has given both permits and the gate back, a committed
   reservation stays in the ledger, and a send happened only on a granted, timely one, its token.
   */
  function AfterAttempt(s: Service, i: nat, attempt: nat, m: Meeting): Service
    requires i < |s.owners|
  {
    var f := s.owners[i];
    s.(ledger := s.ledger + (if m.reply == Granted || m.reply == Lost(true) then [i] else []),
       owners := s.owners[i := f.(stage := StageAfter(attempt, m),
                                  tokens := f.tokens + (if Sends(m) then [|s.ledger|] else []))])
  }

  // ---- An attempt as steps of the protocol ----

  /** Taking the permits, provider first, and the storage gate. */
  function EnterEvents(i: nat): seq<Event> {
    [TakeProvider(i), TakeGlobal(i), EnterGate(i)]
  }

  /** A step that may lead to a visit of the storage, and that visit; steps that do not apply change nothing. */
  function VisitEvents(i: nat, e: Event): seq<Event> {
    [e, EnterGate(i), Release(i)]
  }

  function AttemptEvents(i: nat, m: Meeting): seq<Event> {
    EnterEvents(i) + [LeaveGate(i, m.reply, m.late)]
    + VisitEvents(i, Head(i, m.saves)) + VisitEvents(i, Respond(i, m.outcome, m.retry, m.asks))
  }

  lemma RunOfAppend(s: Service, config: Config, events: seq<Event>, e: Event)
    ensures Run(s, config, events + [e]) == Exec(Run(s, config, events), config, e)
  {
    assert (events + [e])[..|events|] == events;
  }

  lemma ThreeSteps(s: Service, config: Config, events: seq<Event>, a: Event, b: Event, c: Event)
    ensures Run(s, config, events + [a, b, c])
            == Exec(Exec(Exec(Run(s, config, events), config, a), config, b), config, c)
  {
    assert events + [a, b, c] == events + [a] + [b] + [c];
    RunOfAppend(s, config, events, a);
    RunOfAppend(s, config, events + [a], b);
    RunOfAppend(s, config, events + [a] + [b], c);
  }

  /** Nothing that an attempt of lookup `i` needs is taken. */
  predicate Ready(s: Service, i: nat, attempt: nat) {
    i < |s.owners| && s.owners[i].stage == WantProvider(attempt) && s.gate.None?
    && s.providerFree.Get(s.owners[i].key.provider) > 0 && s.globalFree > 0
  }

  /** Lookup `i` inside the gate, holding both permits. */
  function Inside(s: Service, i: nat, attempt: nat): Service
    requires i < |s.owners|
  {
    var p := s.owners[i].key.provider;
    s.(owners := s.owners[i := s.owners[i].(stage := InGate(attempt, Reserving))], gate := Some(i),
       providerFree := s.providerFree.Set(p, s.providerFree.Get(p) - 1), globalFree := s.globalFree - 1)
  }

  lemma EnteringTakesAll(s: Service, config: Config, i: nat, attempt: nat)
    requires Ready(s, i, attempt)
    ensures Run(s, config, EnterEvents(i)) == Inside(s, i, attempt)
  {
    var s1 := Exec(s, config, TakeProvider(i));
    assert s1 == Move(s, i, WantGlobal(attempt));
    var s2 := Exec(s1, config, TakeGlobal(i));
    assert s2 == Move(s1, i, WantGate(attempt, Reserving));
    assert Exec(s2, config, EnterGate(i)) == Inside(s, i, attempt);
    assert [] + EnterEvents(i) == EnterEvents(i);
    ThreeSteps(s, config, [], TakeProvider(i), TakeGlobal(i), EnterGate(i));
  }

  /** Passing through the gate with permits in hand leaves no trace. */
  lemma ThroughGate(s: Service, i: nat, want: Stage, at: Stage, stage: Stage)
    requires i < |s.owners| && s.gate.None? && HoldsGlobal(s.owners[i].stage)
    requires want.WantGate? && at.InGate? && !stage.InGate?
    ensures Move(Move(Move(s, i, want), i, at).(gate := Some(i)), i, stage) == Move(s, i, stage)
  {
    assert Move(Move(s, i, want), i, at).owners == s.owners[i := s.owners[i].(stage := at)];
  }

  lemma HeadVisit(s: Service, config: Config, i: nat, attempt: nat, saves: bool)
    requires i < |s.owners| && s.owners[i].stage == Sending(attempt) && s.gate.None?
    ensures Run(s, config, VisitEvents(i, Head(i, saves))) == Move(s, i, Receiving(attempt))
  {
    var s1 := Exec(s, config, Head(i, saves));
    var s2 := Exec(s1, config, EnterGate(i));
    if saves {
      assert s1 == Move(s, i, WantGate(attempt, Saving));
      assert s2 == Move(s1, i, InGate(attempt, Saving)).(gate := Some(i));
      ThroughGate(s, i, WantGate(attempt, Saving), InGate(attempt, Saving), Receiving(attempt));
    } else {
      assert s2 == s1 == Move(s, i, Receiving(attempt));
    }
    assert Exec(s2, config, Release(i)) == Move(s, i, Receiving(attempt));
    assert [] + VisitEvents(i, Head(i, saves)) == VisitEvents(i, Head(i, saves));
    ThreeSteps(s, config, [], Head(i, saves), EnterGate(i), Release(i));
  }

  /** Where a response takes a lookup once a 429 has been told its delay. */
  function AfterAsking(attempt: nat, outcome: Outcome, retry: bool, asks: bool): Stage {
    if asks && outcome.Failed? then Publishing(LookupResult(outcome, false))
    else AfterResponse(attempt, outcome, retry, asks)
  }

  lemma ResponseVisit(s: Service, config: Config, i: nat, attempt: nat, outcome: Outcome, retry: bool, asks: bool)
    requires i < |s.owners| && s.owners[i].stage == Receiving(attempt) && s.gate.None?
    ensures Run(s, config, VisitEvents(i, Respond(i, outcome, retry, asks)))
            == Move(s, i, AfterAsking(attempt, outcome, retry, asks))
  {
    var e := Respond(i, outcome, retry, asks);
    var end := AfterAsking(attempt, outcome, retry, asks);
    var s1 := Exec(s, config, e);
    var s2 := Exec(s1, config, EnterGate(i));
    assert s1 == Move(s, i, AfterResponse(attempt, outcome, retry, asks));
    if asks && outcome.Failed? {
      assert s2 == Move(s1, i, InGate(attempt, Asking(outcome.code))).(gate := Some(i));
      ThroughGate(s, i, WantGate(attempt, Asking(outcome.code)), InGate(attempt, Asking(outcome.code)), end);
    } else {
      assert s2 == s1;
    }
    assert Exec(s2, config, Release(i)) == Move(s, i, end);
    assert [] + VisitEvents(i, e) == VisitEvents(i, e);
    ThreeSteps(s, config, [], e, EnterGate(i), Release(i));
  }

  lemma StoppedVisits(s: Service, config: Config, i: nat, e: Event)
    requires i < |s.owners| && s.owners[i].stage.Publishing? && (e.Head? || e.Respond?) && e.flight == i
    ensures Run(s, config, VisitEvents(i, e)) == s
  {
    assert Exec(s, config, e) == s && Exec(s, config, EnterGate(i)) == s && Exec(s, config, Release(i)) == s;
    assert [] + VisitEvents(i, e) == VisitEvents(i, e);
    ThreeSteps(s, config, [], e, EnterGate(i), Release(i));
  }

  lemma ThreeMore(s: Service, config: Config, events: seq<Event>, three: seq<Event>)
    requires |three| == 3
    ensures Run(s, config, events + three) == Run(Run(s, config, events), config, three)
  {
    assert three == [three[0], three[1], three[2]] == [] + three;
    ThreeSteps(s, config, events, three[0], three[1], three[2]);
    ThreeSteps(Run(s, config, events), config, [], three[0], three[1], three[2]);
  }

  /** The run of an attempt, after any earlier events, is its four stretches one after another. */
  lemma AttemptStretches(s: Service, config: Config, before: seq<Event>, i: nat, m: Meeting)
    ensures var entered := Run(Run(s, config, before), config, EnterEvents(i));
            var reserved := Exec(entered, config, LeaveGate(i, m.reply, m.late));
            Run(s, config, before + AttemptEvents(i, m))
            == Run(Run(reserved, config, VisitEvents(i, Head(i, m.saves))), config,
                   VisitEvents(i, Respond(i, m.outcome, m.retry, m.asks)))
  {
    var e1, e3 := EnterEvents(i), VisitEvents(i, Head(i, m.saves));
    var e2, e4 := LeaveGate(i, m.reply, m.late), VisitEvents(i, Respond(i, m.outcome, m.retry, m.asks));
    ThreeMore(s, config, before, e1);
    RunOfAppend(s, config, before + e1, e2);
    ThreeMore(s, config, before + e1 + [e2], e3);
    ThreeMore(s, config, before + e1 + [e2] + e3, e4);
    assert before + AttemptEvents(i, m) == before + e1 + [e2] + e3 + e4;
  }

  /** Leaving the scope of an attempt from the gate, or from the middle of the response. */
  lemma LeavingRestores(s: Service, i: nat, attempt: nat, f: Flight, gate: Option<nat>, stage: Stage)
    requires i < |s.owners| && f.key == s.owners[i].key && HoldsGlobal(f.stage) && s.gate.None?
    requires !HoldsGlobal(stage) && !stage.WantGlobal? && (gate.None? || gate == Some(i))
    ensures Move(Inside(s, i, attempt).(owners := s.owners[i := f], gate := gate), i, stage)
            == s.(owners := s.owners[i := f.(stage := stage)])
  {
  }

  lemma ReserveStep(s: Service, config: Config, i: nat, attempt: nat, m: Meeting)
    requires Ready(s, i, attempt)
    ensures var left := Exec(Inside(s, i, attempt), config, LeaveGate(i, m.reply, m.late));
            var f := s.owners[i].(tokens := s.owners[i].tokens + [|s.ledger|]);
            left == if Sends(m)
                    then Inside(Pay(s, i), i, attempt).(gate := None,
                                                        owners := s.owners[i := f.(stage := Sending(attempt))])
                    else AfterAttempt(s, i, attempt, m)
  {
    var left := Exec(Inside(s, i, attempt), config, LeaveGate(i, m.reply, m.late));
    if Sends(m) {
      assert left.owners == s.owners[i := left.owners[i]];
      SetSame(Inside(s, i, attempt).providerFree, s.owners[i].key.provider);
    } else {
      StopStep(s, config, i, attempt, m);
    }
  }

  lemma StopStep(s: Service, config: Config, i: nat, attempt: nat, m: Meeting)
    requires Ready(s, i, attempt) && !Sends(m)
    ensures Exec(Inside(s, i, attempt), config, LeaveGate(i, m.reply, m.late)) == AfterAttempt(s, i, attempt, m)
  {
    var f := s.owners[i].(stage := InGate(attempt, Reserving));
    var paid := if m.reply == Granted || m.reply == Lost(true) then Pay(s, i) else s;
    var stage := StageAfter(attempt, m);
    LeavingRestores(paid, i, attempt, f, Some(i), stage);
    assert Exec(Inside(s, i, attempt), config, LeaveGate(i, m.reply, m.late)) == Move(Inside(paid, i, attempt), i, stage);
    assert s.owners[i].tokens + [] == s.owners[i].tokens && s.ledger + [] == s.ledger;
  }

  /** An attempt that never has to wait is a run of the protocol's steps with that net effect. */
  lemma AttemptIsItsSteps(s0: Service, config: Config, before: seq<Event>, i: nat, attempt: nat, m: Meeting)
    requires Ready(Run(s0, config, before), i, attempt)
    ensures Run(s0, config, before + AttemptEvents(i, m)) == AfterAttempt(Run(s0, config, before), i, attempt, m)
  {
    var s := Run(s0, config, before);
    AttemptStretches(s0, config, before, i, m);
    EnteringTakesAll(s, config, i, attempt);
    ReserveStep(s, config, i, attempt, m);
    var left := Exec(Inside(s, i, attempt), config, LeaveGate(i, m.reply, m.late));
    if Sends(m) {
      SendingSteps(s, config, i, attempt, m, left);
    } else {
      StoppedVisits(left, config, i, Head(i, m.saves));
      StoppedVisits(left, config, i, Respond(i, m.outcome, m.retry, m.asks));
    }
  }

  lemma SendingSteps(s: Service, config: Config, i: nat, attempt: nat, m: Meeting, left: Service)
    requires Ready(s, i, attempt) && Sends(m)
    requires var f := s.owners[i].(tokens := s.owners[i].tokens + [|s.ledger|]);
             left == Inside(Pay(s, i), i, attempt).(gate := None,
                                                    owners := s.owners[i := f.(stage := Sending(attempt))])
    ensures Run(Run(left, config, VisitEvents(i, Head(i, m.saves))), config,
                VisitEvents(i, Respond(i, m.outcome, m.retry, m.asks)))
            == AfterAttempt(s, i, attempt, m)
  {
    var f := left.owners[i].(stage := Receiving(attempt));
    HeadVisit(left, config, i, attempt, m.saves);
    HeadMove(left, i, attempt);
    assert left.owners[i := f] == s.owners[i := f];
    ResponseRestores(s, config, i, attempt, m, f);
  }

  lemma ResponseRestores(s: Service, config: Config, i: nat, attempt: nat, m: Meeting, f: Flight)
    requires Ready(s, i, attempt) && Sends(m)
    requires f == s.owners[i].(tokens := s.owners[i].tokens + [|s.ledger|], stage := Receiving(attempt))
    ensures Run(Inside(Pay(s, i), i, attempt).(gate := None, owners := s.owners[i := f]), config,
                VisitEvents(i, Respond(i, m.outcome, m.retry, m.asks)))
            == AfterAttempt(s, i, attempt, m)
  {
    var read := Inside(Pay(s, i), i, attempt).(gate := None, owners := s.owners[i := f]);
    var stage := AfterAsking(attempt, m.outcome, m.retry, m.asks);
    assert stage == StageAfter(attempt, m);
    ResponseVisit(read, config, i, attempt, m.outcome, m.retry, m.asks);
    LeavingRestores(Pay(s, i), i, attempt, f, None, stage);
    assert Pay(s, i).(owners := s.owners[i := f.(stage := stage)]) == AfterAttempt(s, i, attempt, m);
  }

  lemma HeadMove(left: Service, i: nat, attempt: nat)
    requires i < |left.owners| && left.owners[i].stage == Sending(attempt) && left.gate.None?
    ensures Move(left, i, Receiving(attempt))
            == left.(owners := left.owners[i := left.owners[i].(stage := Receiving(attempt))])
  {
    SetSame(left.providerFree, left.owners[i].key.provider);
  }

  /** What the stretches of an attempt find and leave, in order. */
  lemma AttemptPlan(s: Service, config: Config, i: nat, attempt: nat, m: Meeting)
    requires Ready(s, i, attempt)
    ensures Run(s, config, AttemptEvents(i, m)) == AfterAttempt(s, i, attempt, m)
    ensures var left := Exec(Inside(s, i, attempt), config, LeaveGate(i, m.reply, m.late));
            var read := Run(left, config, VisitEvents(i, Head(i, m.saves)));
            if Sends(m) then
              && i < |left.owners| && left.owners[i].stage == Sending(attempt) && left.gate.None?
              && i < |read.owners| && read.owners[i].stage == Receiving(attempt) && read.gate.None?
              && Run(read, config, VisitEvents(i, Respond(i, m.outcome, m.retry, m.asks))) == AfterAttempt(s, i, attempt, m)
            else left == AfterAttempt(s, i, attempt, m)
  {
    assert [] + AttemptEvents(i, m) == AttemptEvents(i, m);
    AttemptIsItsSteps(s, config, [], i, attempt, m);
    ReserveStep(s, config, i, attempt, m);
    if Sends(m) {
      var left := Exec(Inside(s, i, attempt), config, LeaveGate(i, m.reply, m.late));
      HeadVisit(left, config, i, attempt, m.saves);
      SendingSteps(s, config, i, attempt, m, left);
    }
  }

  lemma SetSame(free: PerProvider<int>, p: ProviderId)
    ensures free.Set(p, free.Get(p)) == free
  {
  }

  lemma AttemptLeaves(s: Service, config: Config, i: nat, attempt: nat, m: Meeting)
    requires i < |s.owners| && s.gate.None?
    ensures var t := AfterAttempt(s, i, attempt, m);
            && t.owners[i].stage == StageAfter(attempt, m)
            && |t.owners[i].tokens| <= |s.owners[i].tokens| + 1
            && (attempt == 0 || !t.owners[i].stage.Backoff?)
            && (t.owners[i].stage.Backoff? || t.owners[i].stage.Caching? || t.owners[i].stage.Publishing?)
            && (t.owners[i].stage.Backoff? ==>
                  Exec(t, config, Wake(i)) == t.(owners := t.owners[i := t.owners[i].(stage := WantProvider(1))]))
  {
    var t := AfterAttempt(s, i, attempt, m);
    SetSame(t.providerFree, s.owners[i].key.provider);
  }

  /** An attempt, and the end of the backoff if one follows. */
  function TryEvents(i: nat, attempt: nat, m: Meeting): seq<Event> {
    AttemptEvents(i, m) + if StageAfter(attempt, m).Backoff? then [Wake(i)] else []
  }

  /** The whole loop: a second attempt only after a retryable first one, once the backoff is over. */
  function FetchEvents(i: nat, first: Meeting, second: Meeting): seq<Event> {
    TryEvents(i, 0, first) + if StageAfter(0, first).Backoff? then TryEvents(i, 1, second) else []
  }

  class Enrichment {
    const config: Config
    var flights: map<Key, nat>
    var owners: seq<Flight>
    var callers: seq<Caller>
    var cache: map<Key, nat>
    var providerFree: PerProvider<int>
    var outboundFree: int
    var gate: Option<nat>
    var cancelled: bool
    var ledger: seq<nat>

    function View(): Service
      reads this
    {
      Service(flights, owners, callers, cache, providerFree, outboundFree, gate, cancelled, ledger)
    }

    constructor (config: Config)
      ensures View() == Start(config) && this.config == config
    {
      this.config := config;
      flights, owners, callers, cache, ledger := map[], [], [], map[], [];
      providerFree := PerProvider(config.providerPermits.abuseipdb, config.providerPermits.virustotal);
      outboundFree, gate, cancelled := config.globalPermits, None, false;
    }

    /** `subscribe` from taking the table's lock to releasing it: join, refuse, or register and spawn. */
    method Subscribe(c: nat)
      requires c < |callers| && callers[c].state.Missed?
      modifies this
      ensures View() == Exec(old(View()), config, Register(c))
    {
      var key := callers[c].key;
      if key in flights {
        callers := callers[c := Caller(key, Waiting(flights[key], true))];
        return;
      }
      var code := ProviderBusy;
      if |flights| < config.maxShared {
        if !cancelled {
          var id := |owners|;
          flights := flights[key := id];
          owners := owners + [Flight(key, Rechecking, None, [])];
          callers := callers[c := Caller(key, Waiting(id, false))];
          return;
        }
        code := ServiceUnavailable;
      }
      callers := callers[c := Caller(key, Answered(LookupResult(Failed(code), false), None))];
    }

    /** The end of a lookup's task: publish and leave the table under one lock. */
    method PublishAndRemove(i: nat)
      requires i < |owners| && owners[i].stage.Publishing?
      modifies this
      ensures View() == Exec(old(View()), config, Publish(i))
    {
      var f := owners[i];
      owners := owners[i := f.(stage := Done, cell := Some(f.stage.result))];
      flights := flights - {f.key};
    }

    method SetStage(i: nat, stage: Stage)
      requires i < |owners|
      modifies this`owners
      ensures owners == old(owners)[i := old(owners)[i].(stage := stage)]
    {
      owners := owners[i := owners[i].(stage := stage)];
    }

    /** Provider capacity first, then global capacity, then the storage gate; here none has to be waited for. */
    method AcquireForReserve(i: nat, attempt: nat)
      requires Ready(View(), i, attempt)
      modifies this
      ensures View() == Inside(old(View()), i, attempt)
    {
      var p := owners[i].key.provider;
      providerFree := providerFree.Set(p, providerFree.Get(p) - 1);
      outboundFree := outboundFree - 1;
      SetStage(i, InGate(attempt, Reserving));
      gate := Some(i);
    }

    /** Leaving an attempt's scope drops both permits. */
    method LeaveScope(i: nat, stage: Stage)
      requires i < |owners| && HoldsGlobal(owners[i].stage) && !HoldsGlobal(stage) && !stage.WantGlobal?
      requires gate != Some(i)
      modifies this`owners, this`providerFree, this`outboundFree
      ensures View() == Move(old(View()), i, stage)
    {
      var p := owners[i].key.provider;
      SetStage(i, stage);
      providerFree := providerFree.Set(p, providerFree.Get(p) + 1);
      outboundFree := outboundFree + 1;
    }

    /** The reservation's reply, with the gate released; whether the attempt goes on to send. */
    method LeaveReserve(i: nat, reply: Reply, late: bool) returns (sends: bool)
      requires i < |owners| && AtReserve(owners[i].stage) && gate == Some(i)
      modifies this
      ensures View() == Exec(old(View()), config, LeaveGate(i, reply, late))
      ensures sends <==> reply == Granted && !late
    {
      var token := |ledger|;
      if reply == Granted || reply == Lost(true) {
        ledger := ledger + [i];
      }
      gate := None;
      sends := reply == Granted && !late;
      if sends {
        owners := owners[i := owners[i].(stage := Sending(owners[i].stage.attempt),
                                         tokens := owners[i].tokens + [token])];
      } else {
        var code := if reply == Granted then ProviderTimeout
                    else if reply == Refused then QuotaExhausted else StorageUnavailable;
        LeaveScope(i, Publishing(LookupResult(Failed(code), false)));
      }
    }

    /** A visit of the storage by a lookup that holds its permits. */
    method VisitStorage(i: nat, attempt: nat, visit: Visit)
      requires i < |owners| && HoldsGlobal(owners[i].stage) && gate.None?
      modifies this`owners, this`gate
      ensures gate.None? && owners == old(owners)[i := old(owners)[i].(stage := InGate(attempt, visit))]
    {
      SetStage(i, InGate(attempt, visit));
      gate := Some(i);
      gate := None;
    }

    /** The head of a response: its feedback is saved, under the gate, whether or not that works. */
    method HandleHead(i: nat, attempt: nat, saves: bool)
      requires i < |owners| && owners[i].stage == Sending(attempt) && gate.None?
      modifies this
      ensures View() == Run(old(View()), config, VisitEvents(i, Head(i, saves)))
    {
      HeadVisit(View(), config, i, attempt, saves);
      if saves {
        VisitStorage(i, attempt, Saving);
      }
      SetStage(i, Receiving(attempt));
    }

    /** The end of an attempt: a 429 first asks the storage for a delay, under the gate. */
    method HandleResponse(i: nat, attempt: nat, outcome: Outcome, retry: bool, asks: bool)
      requires i < |owners| && owners[i].stage == Receiving(attempt) && gate.None?
      modifies this
      ensures View() == Run(old(View()), config, VisitEvents(i, Respond(i, outcome, retry, asks)))
    {
      ghost var s := View();
      ResponseVisit(s, config, i, attempt, outcome, retry, asks);
      var end := if outcome.Report? then Caching(outcome.id) else Publishing(LookupResult(outcome, false));
      if outcome.Failed? && asks {
        VisitStorage(i, attempt, Asking(outcome.code));
      } else if retry && attempt == 0 {
        end := Backoff;
      }
      LeaveScope(i, end);
      assert owners == s.owners[i := s.owners[i].(stage := end)];
    }

    /** One attempt of the loop in `fetch`: a run of the protocol, with the net effect of `AfterAttempt`. */
    method Attempt(i: nat, attempt: nat, m: Meeting)
      requires Ready(View(), i, attempt)
      modifies this
      ensures View() == Run(old(View()), config, AttemptEvents(i, m))
      ensures View() == AfterAttempt(old(View()), i, attempt, m)
    {
      AttemptPlan(View(), config, i, attempt, m);
      AcquireForReserve(i, attempt);
      var sends := LeaveReserve(i, m.reply, m.late);
      if sends {
        HandleHead(i, attempt, m.saves);
        HandleResponse(i, attempt, m.outcome, m.retry, m.asks);
      }
    }

    /** One turn of the loop: whether another follows. */
    method TryOnce(i: nat, attempt: nat, m: Meeting, ghost start: Service, ghost trace: seq<Event>)
      returns (again: bool)
      requires attempt <= 1 && Ready(View(), i, attempt) && View() == Run(start, config, trace)
      modifies this
      ensures View() == Run(start, config, trace + TryEvents(i, attempt, m))
      ensures providerFree == old(providerFree) && outboundFree == old(outboundFree) && gate.None?
      ensures i < |owners| && |owners[i].tokens| <= |old(owners)[i].tokens| + 1
      ensures again <==> StageAfter(attempt, m).Backoff?
      ensures if again then attempt == 0 && Ready(View(), i, 1)
              else owners[i].stage.Caching? || owners[i].stage.Publishing?
    {
      AttemptIsItsSteps(start, config, trace, i, attempt, m);
      AttemptLeaves(View(), config, i, attempt, m);
      Attempt(i, attempt, m);
      again := attempt == 0 && owners[i].stage.Backoff?;
      if again {
        RunOfAppend(start, config, trace + AttemptEvents(i, m), Wake(i));
        assert trace + AttemptEvents(i, m) + [Wake(i)] == trace + TryEvents(i, attempt, m);
        SetStage(i, WantProvider(1));
      } else {
        assert trace + AttemptEvents(i, m) == trace + TryEvents(i, attempt, m);
      }
    }

    /** `fetch`: at most two attempts, with no permit held in between. */
    method Fetch(i: nat, first: Meeting, second: Meeting)
      requires Ready(View(), i, 0)
      modifies this
      ensures View() == Run(old(View()), config, FetchEvents(i, first, second))
      ensures i < |owners| && |owners[i].tokens| <= |old(owners)[i].tokens| + 2
      ensures owners[i].stage.Caching? || owners[i].stage.Publishing?
      ensures providerFree == old(providerFree) && outboundFree == old(outboundFree) && gate.None?
    {
      ghost var start := View();
      ghost var trace: seq<Event> := [];
      var attempt := 0;
      while attempt <= 1
        invariant 0 <= attempt <= 1
        invariant Ready(View(), i, attempt) && View() == Run(start, config, trace)
        invariant providerFree == start.providerFree && outboundFree == start.globalFree
        invariant trace == if attempt == 0 then [] else TryEvents(i, 0, first)
        invariant attempt == 1 ==> StageAfter(0, first).Backoff?
        invariant |owners[i].tokens| <= |start.owners[i].tokens| + attempt
        decreases 2 - attempt
      {
        var m := if attempt == 0 then first else second;
        var again := TryOnce(i, attempt, m, start, trace);
        trace := trace + TryEvents(i, attempt, m);
        if !again {
          assert trace == FetchEvents(i, first, second);
          return;
        }
        attempt := attempt + 1;
      }
    }
  }
}
