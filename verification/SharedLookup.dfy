/**
 The shared-lookup protocol: callers and the lookups they own or join, interleaved in every possible
 way over one flight table, one cache, the permits and the storage gate. A lookup's id is its index in
 `owners`; it is live until it publishes.
 */
module SharedLookup {
  import opened Basics

  datatype Key = Key(provider: ProviderId, digest: string)

  datatype ErrorCode =
    | ProviderBusy | ServiceUnavailable | ProviderTimeout | InternalError
    | QuotaExhausted | StorageUnavailable | RequestDeadlineExceeded | UpstreamFailure

  /** A cacheable report, standing for the ok and not-found outcomes, or a failure. */
  datatype Outcome = Report(id: nat) | Failed(code: ErrorCode)

  datatype LookupResult = LookupResult(outcome: Outcome, cacheHit: bool)

  /** Why an attempt visits the storage: to reserve, to save feedback, or to ask for the delay of a 429. */
  datatype Visit = Reserving | Saving | Asking(code: ErrorCode)

  /**
   Where a lookup's task is. `attempt` is 0, or 1 for the retry. `Receiving` starts when a response's head
   has been dealt with, or when the send has failed without one.
   */
  datatype Stage =
    | Rechecking
    | WantProvider(attempt: nat)
    | WantGlobal(attempt: nat)
    | WantGate(attempt: nat, visit: Visit)
    | InGate(attempt: nat, visit: Visit)
    | Sending(attempt: nat)
    | Receiving(attempt: nat)
    | Backoff
    | Caching(report: nat)
    | Publishing(result: LookupResult)
    | Done

  /** `tokens` are the reservations, as positions in the ledger, that this lookup's sends used. */
  datatype Flight = Flight(key: Key, stage: Stage, cell: Option<LookupResult>, tokens: seq<nat>)

  datatype CallerState =
    | Reading
    | Missed
    | Waiting(flight: nat, joined: bool)
    | Answered(result: LookupResult, source: Option<(nat, bool)>)

  datatype Caller = Caller(key: Key, state: CallerState)

  datatype Config = Config(maxShared: nat, providerPermits: PerProvider<nat>, globalPermits: nat) {
    predicate Valid() {
      0 < maxShared && 0 < globalPermits && forall p :: 0 < providerPermits.Get(p)
    }
  }

  /** `ledger` lists every committed reservation by the lookup it was made for; nothing removes from it. */
  datatype Service = Service(
    flights: map<Key, nat>, owners: seq<Flight>, callers: seq<Caller>, cache: map<Key, nat>,
    providerFree: PerProvider<int>, globalFree: int, gate: Option<nat>, cancelled: bool, ledger: seq<nat>)

  datatype Reply = Granted | Refused | Lost(committed: bool)

  datatype Event =
    | Ask(key: Key)
    | Read(caller: nat, fault: bool)
    | Register(caller: nat)
    | Receive(caller: nat)
    | GiveUp(caller: nat)
    | Recheck(flight: nat, fault: bool)
    | TakeProvider(flight: nat)
    | TakeGlobal(flight: nat)
    | EnterGate(flight: nat)
    | LeaveGate(flight: nat, reply: Reply, late: bool)
    | Head(flight: nat, saves: bool)
    | Release(flight: nat)
    | Respond(flight: nat, outcome: Outcome, retry: bool, asks: bool)
    | Wake(flight: nat)
    | Store(flight: nat, stored: bool)
    | Publish(flight: nat)
    | Break(flight: nat, code: ErrorCode, committed: bool)
    | CancelAll
    | Forget(key: Key)

  function Start(c: Config): Service {
    Service(map[], [], [], map[], PerProvider(c.providerPermits.abuseipdb, c.providerPermits.virustotal),
            c.globalPermits, None, false, [])
  }

  // ---- Permits ----

  datatype Resource = ProviderPermit(provider: ProviderId) | GlobalPermit

  predicate HoldsGlobal(stage: Stage) {
    stage.WantGate? || stage.InGate? || stage.Sending? || stage.Receiving?
  }

  predicate Holds(f: Flight, r: Resource) {
    match r
    case ProviderPermit(p) => f.key.provider == p && (f.stage.WantGlobal? || HoldsGlobal(f.stage))
    case GlobalPermit => HoldsGlobal(f.stage)
  }

  function One(b: bool): int {
    if b then 1 else 0
  }

  function Count(owners: seq<Flight>, r: Resource): nat {
    if owners == [] then 0
    else Count(owners[..|owners| - 1], r) + One(Holds(owners[|owners| - 1], r))
  }

  /** Moves a lookup to another stage; permits that the new stage does not hold are dropped, new ones taken. */
  function Move(s: Service, i: nat, stage: Stage): Service
    requires i < |s.owners|
  {
    var f := s.owners[i];
    var g := f.(stage := stage);
    var p := f.key.provider;
    s.(owners := s.owners[i := g],
       providerFree := s.providerFree.Set(p, s.providerFree.Get(p) + One(Holds(f, ProviderPermit(p)))
                                             - One(Holds(g, ProviderPermit(p)))),
       globalFree := s.globalFree + One(Holds(f, GlobalPermit)) - One(Holds(g, GlobalPermit)),
       gate := if s.gate == Some(i) && !stage.InGate? then None else s.gate)
  }

  function Fail(s: Service, i: nat, code: ErrorCode): Service
    requires i < |s.owners|
  {
    Move(s, i, Publishing(LookupResult(Failed(code), false)))
  }

  // ---- Steps ----

  function Answer(s: Service, c: nat, r: LookupResult, source: Option<(nat, bool)>): Service
    requires c < |s.callers|
  {
    s.(callers := s.callers[c := s.callers[c].(state := Answered(r, source))])
  }

  /** The stretch of `subscribe` that holds the table's lock. */
  function RegisterCaller(s: Service, config: Config, c: nat): Service
    requires c < |s.callers|
  {
    var key := s.callers[c].key;
    if key in s.flights then
      s.(callers := s.callers[c := Caller(key, Waiting(s.flights[key], true))])
    else if |s.flights| >= config.maxShared then
      Answer(s, c, LookupResult(Failed(ProviderBusy), false), None)
    else if s.cancelled then
      Answer(s, c, LookupResult(Failed(ServiceUnavailable), false), None)
    else
      NewFlight(s, c)
  }

  function NewFlight(s: Service, c: nat): Service
    requires c < |s.callers|
  {
    var key := s.callers[c].key;
    s.(flights := s.flights[key := |s.owners|],
       owners := s.owners + [Flight(key, Rechecking, None, [])],
       callers := s.callers[c := Caller(key, Waiting(|s.owners|, false))])
  }

  /** What a waiting caller is given: a joiner's result is never labelled a cache hit. */
  function Delivered(r: LookupResult, joined: bool): LookupResult {
    if joined then r.(cacheHit := false) else r
  }

  function UseToken(s: Service, i: nat, token: nat): Service
    requires i < |s.owners|
  {
    s.(owners := s.owners[i := s.owners[i].(tokens := s.owners[i].tokens + [token])])
  }

  /** A reservation was committed for lookup `i`. */
  function Pay(s: Service, i: nat): Service {
    s.(ledger := s.ledger + [i])
  }

  function LeaveGateWith(s: Service, i: nat, reply: Reply, late: bool): Service
    requires i < |s.owners| && s.owners[i].stage.InGate?
  {
    var token := |s.ledger|;
    match reply
    case Granted =>
      var paid := Pay(s, i);
      if late then Fail(paid, i, ProviderTimeout)
      else UseToken(Move(paid, i, Sending(s.owners[i].stage.attempt)), i, token)
    case Refused => Fail(s, i, QuotaExhausted)
    case Lost(committed) =>
      Fail(if committed then Pay(s, i) else s, i, StorageUnavailable)
  }

  function AfterRecheck(s: Service, key: Key, fault: bool): Stage {
    if !fault && key in s.cache then Publishing(LookupResult(Report(s.cache[key]), true)) else WantProvider(0)
  }

  predicate AtReserve(stage: Stage) {
    stage.InGate? && stage.visit.Reserving?
  }

  /** Saving feedback goes on to the body whether or not it worked; the asked delay only decorates a failure. */
  function AfterVisit(attempt: nat, visit: Visit): Stage
    requires !visit.Reserving?
  {
    match visit
    case Saving => Receiving(attempt)
    case Asking(code) => Publishing(LookupResult(Failed(code), false))
  }

  /** A 429 asks the storage for a delay and is not retried; other retryable responses are, once. */
  function AfterResponse(attempt: nat, outcome: Outcome, retry: bool, asks: bool): Stage {
    match outcome
    case Failed(code) =>
      if asks then WantGate(attempt, Asking(code))
      else if retry && attempt == 0 then Backoff
      else Publishing(LookupResult(outcome, false))
    case Report(id) => if retry && attempt == 0 then Backoff else Caching(id)
  }

  /** A live lookup's next step once it is not blocked. */
  function Exec(s: Service, config: Config, e: Event): Service {
    match e
    case Ask(key) => s.(callers := s.callers + [Caller(key, Reading)])
    case Read(c, fault) =>
      if c < |s.callers| && s.callers[c].state.Reading? && s.gate.None? then
        var key := s.callers[c].key;
        if !fault && key in s.cache then Answer(s, c, LookupResult(Report(s.cache[key]), true), None)
        else s.(callers := s.callers[c := Caller(key, Missed)])
      else s
    case Register(c) => if c < |s.callers| && s.callers[c].state.Missed? then RegisterCaller(s, config, c) else s
    case Receive(c) =>
      if c < |s.callers| && s.callers[c].state.Waiting? && s.callers[c].state.flight < |s.owners|
         && s.owners[s.callers[c].state.flight].cell.Some? then
        var w := s.callers[c].state;
        Answer(s, c, Delivered(s.owners[w.flight].cell.value, w.joined), Some((w.flight, w.joined)))
      else s
    case GiveUp(c) =>
      if c < |s.callers| && !s.callers[c].state.Answered? then
        Answer(s, c, LookupResult(Failed(RequestDeadlineExceeded), false), None)
      else s
    case Recheck(i, fault) =>
      if i < |s.owners| && s.owners[i].stage.Rechecking? && s.gate.None? then
        Move(s, i, AfterRecheck(s, s.owners[i].key, fault))
      else s
    case TakeProvider(i) =>
      if i < |s.owners| && s.owners[i].stage.WantProvider? && s.providerFree.Get(s.owners[i].key.provider) > 0 then
        Move(s, i, WantGlobal(s.owners[i].stage.attempt))
      else s
    case TakeGlobal(i) =>
      if i < |s.owners| && s.owners[i].stage.WantGlobal? && s.globalFree > 0 then
        Move(s, i, WantGate(s.owners[i].stage.attempt, Reserving))
      else s
    case EnterGate(i) =>
      if i < |s.owners| && s.owners[i].stage.WantGate? && s.gate.None? then
        Move(s, i, InGate(s.owners[i].stage.attempt, s.owners[i].stage.visit)).(gate := Some(i))
      else s
    case LeaveGate(i, reply, late) =>
      if i < |s.owners| && AtReserve(s.owners[i].stage) then LeaveGateWith(s, i, reply, late) else s
    case Head(i, saves) =>
      if i < |s.owners| && s.owners[i].stage.Sending? then
        var attempt := s.owners[i].stage.attempt;
        Move(s, i, if saves then WantGate(attempt, Saving) else Receiving(attempt))
      else s
    case Release(i) =>
      if i < |s.owners| && s.owners[i].stage.InGate? && !s.owners[i].stage.visit.Reserving? then
        Move(s, i, AfterVisit(s.owners[i].stage.attempt, s.owners[i].stage.visit))
      else s
    case Respond(i, outcome, retry, asks) =>
      if i < |s.owners| && s.owners[i].stage.Receiving? then
        Move(s, i, AfterResponse(s.owners[i].stage.attempt, outcome, retry, asks))
      else s
    case Wake(i) =>
      if i < |s.owners| && s.owners[i].stage.Backoff? then Move(s, i, WantProvider(1)) else s
    case Store(i, stored) =>
      if i < |s.owners| && s.owners[i].stage.Caching? && s.gate.None? then
        var report := s.owners[i].stage.report;
        Move(if stored then s.(cache := s.cache[s.owners[i].key := report]) else s, i,
             Publishing(LookupResult(Report(report), false)))
      else s
    case Publish(i) =>
      if i < |s.owners| && s.owners[i].stage.Publishing? then
        var f := s.owners[i];
        s.(owners := s.owners[i := f.(stage := Done, cell := Some(f.stage.result))], flights := s.flights - {f.key})
      else s
    case Break(i, code, committed) =>
      if i < |s.owners| && !s.owners[i].stage.Publishing? && !s.owners[i].stage.Done? then
        Fail(if committed && AtReserve(s.owners[i].stage) then Pay(s, i) else s, i, code)
      else s
    case CancelAll => s.(cancelled := true)
    case Forget(key) => s.(cache := s.cache - {key})
  }

  function Run(s: Service, config: Config, events: seq<Event>): Service {
    if events == [] then s else Exec(Run(s, config, events[..|events| - 1]), config, events[|events| - 1])
  }

  // ---- Invariants ----

  predicate InTable(flights: map<Key, nat>, owners: seq<Flight>, i: nat)
    requires i < |owners|
  {
    owners[i].key in flights && flights[owners[i].key] == i
  }

  /** The table holds exactly the lookups that have not published, one for each of its keys. */
  ghost predicate TableInv(flights: map<Key, nat>, owners: seq<Flight>, config: Config) {
    && |flights| <= config.maxShared
    && (forall k :: k in flights ==> flights[k] < |owners| && owners[flights[k]].key == k)
    && (forall i :: 0 <= i < |owners| ==> (owners[i].cell.None? <==> InTable(flights, owners, i)))
    && (forall i :: 0 <= i < |owners| ==> (owners[i].cell.None? <==> !owners[i].stage.Done?))
  }

  function Free(provider: PerProvider<int>, global: int, r: Resource): int {
    match r
    case ProviderPermit(p) => provider.Get(p)
    case GlobalPermit => global
  }

  function Capacity(config: Config, r: Resource): nat {
    match r
    case ProviderPermit(p) => config.providerPermits.Get(p)
    case GlobalPermit => config.globalPermits
  }

  /** Free and held permits add up to the configured number. */
  ghost predicate PermitInv(owners: seq<Flight>, provider: PerProvider<int>, global: int, config: Config) {
    forall r :: Free(provider, global, r) >= 0
                && Free(provider, global, r) + Count(owners, r) == Capacity(config, r)
  }

  /** The gate's holder is the one lookup inside it. */
  ghost predicate GateInv(owners: seq<Flight>, gate: Option<nat>) {
    (forall i :: 0 <= i < |owners| ==> (owners[i].stage.InGate? <==> gate == Some(i)))
    && (gate.Some? ==> gate.value < |owners|)
  }

  /** A waiting caller waits for its own key, and an answer taken from a lookup is what that lookup published. */
  predicate CallerOk(c: Caller, owners: seq<Flight>) {
    match c.state
    case Waiting(i, _) => i < |owners| && owners[i].key == c.key
    case Answered(r, Some((i, joined))) =>
      i < |owners| && owners[i].key == c.key && owners[i].cell.Some? && r == Delivered(owners[i].cell.value, joined)
    case _ => true
  }

  ghost predicate CallerInv(callers: seq<Caller>, owners: seq<Flight>) {
    forall c :: 0 <= c < |callers| ==> CallerOk(callers[c], owners)
  }

  function AttemptsSent(stage: Stage): nat {
    match stage
    case Rechecking => 0
    case WantProvider(a) => a
    case WantGlobal(a) => a
    case WantGate(a, visit) => if visit.Reserving? then a else a + 1
    case InGate(a, visit) => if visit.Reserving? then a else a + 1
    case Sending(a) => a + 1
    case Receiving(a) => a + 1
    case Backoff => 1
    case _ => 2
  }

  predicate AttemptOf(stage: Stage) {
    match stage
    case WantProvider(a) => a <= 1
    case WantGlobal(a) => a <= 1
    case WantGate(a, _) => a <= 1
    case InGate(a, _) => a <= 1
    case Sending(a) => a <= 1
    case Receiving(a) => a <= 1
    case _ => true
  }

  /** Each send of lookup `i` used its own reservation, made for that lookup; there are at most two. */
  predicate LedgerOk(f: Flight, i: nat, ledger: seq<nat>) {
    && AttemptOf(f.stage)
    && |f.tokens| <= AttemptsSent(f.stage)
    && (forall k :: 0 <= k < |f.tokens| ==> f.tokens[k] < |ledger| && ledger[f.tokens[k]] == i)
    && (forall j, k :: 0 <= j < k < |f.tokens| ==> f.tokens[j] < f.tokens[k])
  }

  ghost predicate LedgerInv(owners: seq<Flight>, ledger: seq<nat>) {
    forall i :: 0 <= i < |owners| ==> LedgerOk(owners[i], i, ledger)
  }

  ghost predicate Inv(s: Service, config: Config) {
    && TableInv(s.flights, s.owners, config)
    && PermitInv(s.owners, s.providerFree, s.globalFree, config)
    && GateInv(s.owners, s.gate)
    && CallerInv(s.callers, s.owners)
    && LedgerInv(s.owners, s.ledger)
  }

  predicate Fetching(stage: Stage) {
    stage.WantProvider? || stage.WantGlobal? || HoldsGlobal(stage) || stage.Backoff?
  }

  /** Fetching, or holding a fetched report that is not yet stored. */
  predicate AtWork(stage: Stage) {
    Fetching(stage) || stage.Caching?
  }

  /** No live lookup is fetching, or about to store, a key that is cached. */
  ghost predicate NoRefetch(owners: seq<Flight>, cache: map<Key, nat>) {
    forall i :: 0 <= i < |owners| && owners[i].key in cache ==> !AtWork(owners[i].stage)
  }

  ghost predicate NoRefetchInv(s: Service) {
    NoRefetch(s.owners, s.cache)
  }

  /** The cache neither forgets nor fails to answer. */
  predicate Faultless(e: Event) {
    match e
    case Read(_, fault) => !fault
    case Recheck(_, fault) => !fault
    case Forget(_) => false
    case _ => true
  }
}
