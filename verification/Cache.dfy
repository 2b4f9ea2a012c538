/**
 The persistent cache over whole runs: reads, insertions, cleanup and restarts under any wall clock.
 The table is durable; the high-water clock of a process restarts from what was last persisted.
 */
module Cache {
  import opened Basics
  import opened CacheTable

  /** `puts` lists every row ever committed by an insertion, in order; a row's `put` is its position. */
  datatype CacheState = CacheState(table: seq<Row>, durableHighWater: int, highWater: int, config: CacheConfig, puts: seq<Row>)

  datatype Event =
    | Get(provider: ProviderId, key: nat, kind: IndicatorKind, wall: int, deleted: bool)
    | Put(provider: ProviderId, key: nat, kind: IndicatorKind, outcome: Outcome, bytes: nat, asked: int, wall: int, landed: bool)
    | Cleanup(wall: int, landed: bool)
    | QuotaCommit(wall: int)
    | Restart(wall: int, config: CacheConfig)

  datatype Answer = Hit(outcome: Outcome, expiresAt: int) | Miss | Corrupt | Failing

  // ---- Reading ----

  /** Stored content that a read refuses to interpret. */
  predicate Readable(r: Row) {
    (r.status == StatusOk || r.status == StatusNotFound)
    && r.payload.status == r.status && r.payload.fetchedAt == Some(r.fetched) && !r.payload.failed
  }

  /** What a read sees of the row of its identity and kind, at wall time `wall` and effective time `now`. */
  function Lookup(s: CacheState, provider: ProviderId, key: nat, kind: IndicatorKind): Option<Row> {
    var r := Find(s.table, provider, key);
    if r.Some? && r.value.kind == kind then r else None
  }

  /** The read sees a row whose lifetime is over: only then is the row deleted. */
  predicate ExpiredOnRead(s: CacheState, r: Option<Row>, now: int) {
    r.Some? && Ttl(s.config, r.value.kind, r.value.status) != 0 && now >= EffectiveExpiry(s.config, r.value)
  }

  function GetAnswer(s: CacheState, e: Event): Answer
    requires e.Get?
  {
    var now := Max(s.highWater, e.wall);
    var r := Lookup(s, e.provider, e.key, e.kind);
    if r.None? then Miss
    else if r.value.status == StatusOther then Corrupt
    else if Ttl(s.config, r.value.kind, r.value.status) == 0 then Miss
    else if ExpiredOnRead(s, r, now) then (if e.deleted then Miss else Failing)
    else if r.value.fetched > e.wall then Miss
    else if !Readable(r.value) then Corrupt
    else Hit(r.value.payload, EffectiveExpiry(s.config, r.value))
  }

  // ---- Writing ----

  /** What an insertion checks before it takes the gate, the clock reading `asked`. */
  predicate Offered(s: CacheState, e: Event)
    requires e.Put?
  {
    e.outcome.status != StatusOther && Ttl(s.config, e.kind, e.outcome.status) != 0
    && e.outcome.fetchedAt.Some? && !e.outcome.failed && e.outcome.fetchedAt.value <= e.asked
    && e.bytes <= s.config.maxBytes
  }

  /** What it checks again under the gate, the clock reading `wall`. */
  predicate Storable(s: CacheState, e: Event)
    requires e.Put?
  {
    Offered(s, e)
    && e.outcome.fetchedAt.value <= e.wall
    && Max(s.highWater, e.wall) < e.outcome.fetchedAt.value + Ttl(s.config, e.kind, e.outcome.status)
  }

  function NewRow(s: CacheState, e: Event): Row
    requires e.Put? && e.outcome.fetchedAt.Some?
  {
    var fetched := e.outcome.fetchedAt.value;
    Row(e.provider, e.key, e.kind, e.outcome.status, fetched,
        fetched + Ttl(s.config, e.kind, e.outcome.status), e.outcome, e.bytes, |s.puts|)
  }

  /** One bounded cleanup, the insertion and the eviction, in one transaction. */
  function AfterPut(c: CacheConfig, t: seq<Row>, row: Row, wall: int, now: int): seq<Row> {
    EvictFifo(c, Upsert(DeleteStale(c, t, wall, now, CLEANUP_CHUNK), row))
  }

  /** Start-up: stale rows go in chunks until a chunk comes up short, then both limits are enforced. */
  function CleanAll(c: CacheConfig, t: seq<Row>, wall: int, now: int): seq<Row>
    decreases |t|
  {
    var r := DeleteStale(c, t, wall, now, CLEANUP_CHUNK);
    if |r| <= |t| - CLEANUP_CHUNK then CleanAll(c, r, wall, now) else r
  }

  function Initialized(c: CacheConfig, t: seq<Row>, wall: int, now: int): seq<Row> {
    EvictFifo(c, CleanAll(c, t, wall, now))
  }

  // ---- Steps ----

  function Exec(s: CacheState, e: Event): CacheState {
    match e
    case Get(provider, key, kind, wall, deleted) =>
      var now := Max(s.highWater, wall);
      var r := Lookup(s, provider, key, kind);
      if ExpiredOnRead(s, r, now) && r.value.status != StatusOther && deleted
      then s.(highWater := now, table := Without(s.table, provider, key))
      else s.(highWater := now)
    case Put(_, _, _, _, _, _, wall, landed) =>
      if !Offered(s, e) then s
      else
        var now := Max(s.highWater, wall);
        if Storable(s, e) && landed then
          s.(highWater := now, table := AfterPut(s.config, s.table, NewRow(s, e), wall, now),
             puts := s.puts + [NewRow(s, e)])
        else s.(highWater := now)
    case Cleanup(wall, landed) =>
      var now := Max(s.highWater, wall);
      s.(highWater := now,
         table := if landed then DeleteStale(s.config, s.table, wall, now, CLEANUP_CHUNK) else s.table)
    case QuotaCommit(wall) =>
      var now := Max(s.highWater, wall);
      s.(highWater := now, durableHighWater := Max(s.durableHighWater, now))
    case Restart(wall, config) =>
      var now := Max(s.durableHighWater, wall);
      s.(highWater := now, config := config, table := Initialized(config, s.table, wall, now))
  }

  function Run(s: CacheState, events: seq<Event>): CacheState {
    if events == [] then s else Exec(Run(s, events[..|events| - 1]), events[|events| - 1])
  }

  function Start(wall: int, config: CacheConfig): CacheState {
    CacheState([], wall, wall, config, [])
  }

  // ---- Invariant ----

  /** No insertion after `i` had the same identity. */
  ghost predicate Latest(puts: seq<Row>, i: nat) {
    i < |puts| && forall j :: i < j < |puts| ==> !SameIdentity(puts[i], puts[j])
  }

  /** Each stored row is, unchanged, the latest insertion of its identity. */
  ghost predicate RowOk(r: Row, puts: seq<Row>) {
    Readable(r) && r.put < |puts| && puts[r.put] == r && Latest(puts, r.put)
  }

  ghost predicate Inv(s: CacheState) {
    TableOk(s.table) && forall r :: r in s.table ==> RowOk(r, s.puts)
  }

  lemma {:induction false} CleanAllSound(c: CacheConfig, t: seq<Row>, wall: int, now: int)
    requires TableOk(t) && now >= wall
    ensures TableOk(CleanAll(c, t, wall, now)) && AllFresh(c, CleanAll(c, t, wall, now), wall, now)
    ensures forall r :: r in CleanAll(c, t, wall, now) ==> r in t
    ensures forall r :: r in t && Fresh(c, r, wall, now) ==> r in CleanAll(c, t, wall, now)
    decreases |t|
  {
    var r := DeleteStale(c, t, wall, now, CLEANUP_CHUNK);
    DeleteStaleSound(c, t, wall, now, CLEANUP_CHUNK);
    if |r| <= |t| - CLEANUP_CHUNK {
      CleanAllSound(c, r, wall, now);
    }
  }

  /** After start-up every row is one a read would return, and both limits hold. */
  lemma StartupReconciles(c: CacheConfig, t: seq<Row>, wall: int, now: int)
    requires TableOk(t) && now >= wall
    ensures var r := Initialized(c, t, wall, now);
            TableOk(r) && AllFresh(c, r, wall, now) && Fits(c, r) && forall x :: x in r ==> x in t
  {
    CleanAllSound(c, t, wall, now);
    EvictKeepsOrder(c, CleanAll(c, t, wall, now));
    SurvivorsAreLongestFit(c, CleanAll(c, t, wall, now));
  }

  lemma AfterPutSound(c: CacheConfig, t: seq<Row>, row: Row, wall: int, now: int)
    requires TableOk(t) && now >= wall
    ensures var r := AfterPut(c, t, row, wall, now);
            TableOk(r) && Fits(c, r) && forall x :: x in r ==> x == row || (x in t && !SameIdentity(x, row))
  {
    var cleaned := DeleteStale(c, t, wall, now, CLEANUP_CHUNK);
    DeleteStaleSound(c, t, wall, now, CLEANUP_CHUNK);
    UpsertKeepsOrder(cleaned, row);
    EvictKeepsOrder(c, Upsert(cleaned, row));
    SurvivorsAreLongestFit(c, Upsert(cleaned, row));
  }

  lemma PutKeepsInv(s: CacheState, e: Event)
    requires Inv(s) && e.Put? && Storable(s, e)
    ensures Inv(Exec(s, e))
  {
    var now := Max(s.highWater, e.wall);
    var row := NewRow(s, e);
    AfterPutSound(s.config, s.table, row, e.wall, now);
    var puts := s.puts + [row];
    forall r | r in AfterPut(s.config, s.table, row, e.wall, now) ensures RowOk(r, puts) {
      if r != row {
        assert RowOk(r, s.puts);
      }
    }
  }

  /** Apart from an inserted row, a step only ever removes rows. */
  lemma StepOnlyRemoves(s: CacheState, e: Event)
    requires Inv(s)
    ensures Inv(Exec(s, e))
    ensures s.puts <= Exec(s, e).puts
    ensures forall r :: r in Exec(s, e).table ==> r in s.table || r.put >= |s.puts|
  {
    match e
    case Get(provider, key, kind, wall, deleted) => WithoutKeepsOrder(s.table, provider, key);
    case Put(_, _, _, _, _, _, wall, _) =>
      if Storable(s, e) {
        PutKeepsInv(s, e);
        AfterPutSound(s.config, s.table, NewRow(s, e), wall, Max(s.highWater, wall));
      }
    case Cleanup(wall, _) => DeleteStaleSound(s.config, s.table, wall, Max(s.highWater, wall), CLEANUP_CHUNK);
    case QuotaCommit(_) =>
    case Restart(wall, config) => StartupReconciles(config, s.table, wall, Max(s.durableHighWater, wall));
  }

  lemma {:induction false} RunOnlyRemoves(s: CacheState, events: seq<Event>)
    requires Inv(s)
    ensures Inv(Run(s, events))
    ensures s.puts <= Run(s, events).puts
    ensures forall r :: r in Run(s, events).table ==> r in s.table || r.put >= |s.puts|
  {
    if events != [] {
      RunOnlyRemoves(s, events[..|events| - 1]);
      StepOnlyRemoves(Run(s, events[..|events| - 1]), events[|events| - 1]);
    }
  }

  // ---- Theorems ----

  lemma StartInv(wall: int, config: CacheConfig)
    ensures Inv(Start(wall, config))
  {
  }

  /**
   A hit returns the latest insertion for that provider, key and kind, strictly before both its stored
   expiry and its age limit under the current configuration, and never one dated after the wall clock.
   */
  lemma HitIsLatestAndFresh(wall: int, config: CacheConfig, events: seq<Event>, e: Event)
    requires e.Get?
    requires GetAnswer(Run(Start(wall, config), events), e).Hit?
    ensures var s := Run(Start(wall, config), events);
            var now := Max(s.highWater, e.wall);
            exists i: nat :: Latest(s.puts, i)
                        && var r := s.puts[i];
                           r.provider == e.provider && r.key == e.key && r.kind == e.kind
                           && GetAnswer(s, e) == Hit(r.payload, EffectiveExpiry(s.config, r))
                           && now < r.expires && now < r.fetched + Ttl(s.config, r.kind, r.status)
                           && r.fetched <= e.wall
  {
    StartInv(wall, config);
    RunOnlyRemoves(Start(wall, config), events);
    var s := Run(Start(wall, config), events);
    var r := Lookup(s, e.provider, e.key, e.kind).value;
    assert r in s.table && RowOk(r, s.puts);
  }

  /** Stored content is always readable: the data errors of a read cannot arise. */
  lemma ReadsAreNeverCorrupt(wall: int, config: CacheConfig, events: seq<Event>, e: Event)
    requires e.Get?
    ensures !GetAnswer(Run(Start(wall, config), events), e).Corrupt?
  {
    StartInv(wall, config);
    RunOnlyRemoves(Start(wall, config), events);
    var s := Run(Start(wall, config), events);
    var r := Lookup(s, e.provider, e.key, e.kind);
    assert r.Some? ==> RowOk(r.value, s.puts);
  }

  /** A read returns exactly the fresh row of its identity and kind, and misses when there is none. */
  lemma GetReturnsExactlyFresh(s: CacheState, e: Event)
    requires Inv(s) && e.Get?
    ensures var now := Max(s.highWater, e.wall);
            GetAnswer(s, e).Hit? <==>
            exists r :: r in s.table && r.provider == e.provider && r.key == e.key && r.kind == e.kind
                        && Fresh(s.config, r, e.wall, now)
  {
    var found := Lookup(s, e.provider, e.key, e.kind);
    assert found.Some? ==> RowOk(found.value, s.puts);
    forall r | r in s.table && r.provider == e.provider && r.key == e.key
      ensures Find(s.table, e.provider, e.key) == Some(r)
    {
      FindIsUnique(s.table, r);
    }
  }

  /** Cleanup takes away nothing that a read at the same instant would have returned. */
  lemma CleanupKeepsHits(s: CacheState, e: Event, landed: bool)
    requires Inv(s) && e.Get? && GetAnswer(s, e).Hit?
    ensures GetAnswer(Exec(s, Cleanup(e.wall, landed)), e) == GetAnswer(s, e)
  {
    var now := Max(s.highWater, e.wall);
    var r := Lookup(s, e.provider, e.key, e.kind).value;
    DeleteStaleSound(s.config, s.table, e.wall, now, CLEANUP_CHUNK);
    assert RowOk(r, s.puts);
    FindIsUnique(Exec(s, Cleanup(e.wall, landed)).table, r);
  }

  /**
   Once a read has missed because a row's lifetime was over, that row is gone for good: no rollback of
   the clock, no longer lifetime and no restart brings it back.
   */
  lemma ExpiredRowsStayGone(s: CacheState, e: Event, events: seq<Event>, r: Row)
    requires Inv(s) && e.Get? && Lookup(s, e.provider, e.key, e.kind) == Some(r)
    requires ExpiredOnRead(s, Some(r), Max(s.highWater, e.wall)) && GetAnswer(s, e).Miss?
    ensures r !in Run(Exec(s, e), events).table
  {
    var t := Exec(s, e);
    assert RowOk(r, s.puts);
    StepOnlyRemoves(s, e);
    RunOnlyRemoves(t, events);
    assert r !in t.table;
  }

  /** A cleanup takes at most 500 rows, and fewer only if it leaves none that a read would refuse. */
  lemma CleanupIsBounded(s: CacheState, wall: int)
    requires Inv(s)
    ensures var now := Max(s.highWater, wall);
            var t := Exec(s, Cleanup(wall, true));
            && |s.table| - 500 <= |t.table| <= |s.table|
            && (|t.table| > |s.table| - 500 ==> AllFresh(s.config, t.table, wall, now))
            && (forall r :: r in t.table ==> r in s.table)
            && (forall r :: r in s.table && r !in t.table ==> !Fresh(s.config, r, wall, now))
  {
    DeleteStaleSound(s.config, s.table, wall, Max(s.highWater, wall), CLEANUP_CHUNK);
  }

  /** By the configured lifetimes, a hit is younger than its status and kind allow. */
  lemma HitWithinLifetime(wall: int, config: CacheConfig, events: seq<Event>, e: Event)
    requires e.Get? && GetAnswer(Run(Start(wall, config), events), e).Hit?
    ensures var s := Run(Start(wall, config), events);
            var now := Max(s.highWater, e.wall);
            exists r :: r in s.table && r.provider == e.provider && r.key == e.key && r.kind == e.kind
                        && GetAnswer(s, e).outcome == r.payload && GetAnswer(s, e).expiresAt <= r.expires
                        && now < GetAnswer(s, e).expiresAt
                        && (r.status == StatusNotFound ==> Within(r, s.config.notFoundTtl, e.wall, now))
                        && (r.status == StatusOk && e.kind == Ip ==> Within(r, s.config.ipTtl, e.wall, now))
                        && (r.status == StatusOk && e.kind == Url ==> Within(r, s.config.urlTtl, e.wall, now))
                        && (r.status == StatusOk && e.kind == Hash ==> Within(r, s.config.hashTtl, e.wall, now))
  {
    var s := Run(Start(wall, config), events);
    var r := Lookup(s, e.provider, e.key, e.kind).value;
    FreshByLifetime(s.config, r, e.wall, Max(s.highWater, e.wall));
  }

  /** An insertion happens exactly for a fresh, error-free report that fits, and writes what was given. */
  lemma PutInsertsIff(s: CacheState, e: Event)
    requires e.Put?
    ensures var ttl := if e.outcome.status == StatusNotFound then s.config.notFoundTtl
                       else match e.kind case Ip => s.config.ipTtl case Url => s.config.urlTtl case Hash => s.config.hashTtl;
            var t := Exec(s, e);
            && (|t.puts| > |s.puts| <==>
                  && e.landed && (e.outcome.status == StatusOk || e.outcome.status == StatusNotFound)
                  && ttl > 0 && e.outcome.fetchedAt.Some? && !e.outcome.failed && e.bytes <= s.config.maxBytes
                  && e.outcome.fetchedAt.value <= e.asked && e.outcome.fetchedAt.value <= e.wall
                  && e.wall < e.outcome.fetchedAt.value + ttl && s.highWater < e.outcome.fetchedAt.value + ttl)
            && (|t.puts| > |s.puts| ==>
                  t.puts == s.puts + [Row(e.provider, e.key, e.kind, e.outcome.status, e.outcome.fetchedAt.value,
                                          e.outcome.fetchedAt.value + ttl, e.outcome, e.bytes, |s.puts|)])
            && (|t.puts| <= |s.puts| ==> t.puts == s.puts && t.table == s.table)
  {
  }

  /** A fresh row lost to an insertion was fetched before every row kept; so was the new row, if it is the one lost. */
  lemma InsertionEvictsOldest(c: CacheConfig, t: seq<Row>, row: Row, wall: int, now: int, x: Row, y: Row)
    requires TableOk(t) && now >= wall
    requires x == row || (x in t && Fresh(c, x, wall, now) && !SameIdentity(x, row))
    requires x !in AfterPut(c, t, row, wall, now) && y in AfterPut(c, t, row, wall, now)
    ensures FetchedBefore(x, y)
  {
    var cleaned := DeleteStale(c, t, wall, now, CLEANUP_CHUNK);
    DeleteStaleSound(c, t, wall, now, CLEANUP_CHUNK);
    UpsertKeepsOrder(cleaned, row);
    EvictionIsFifo(c, Upsert(cleaned, row), x, y);
  }

  /** A fresh row lost at start-up was fetched before every row kept. */
  lemma StartupEvictsOldest(c: CacheConfig, t: seq<Row>, wall: int, now: int, x: Row, y: Row)
    requires TableOk(t) && now >= wall && x in t && Fresh(c, x, wall, now)
    requires x !in Initialized(c, t, wall, now) && y in Initialized(c, t, wall, now)
    ensures FetchedBefore(x, y)
  {
    CleanAllSound(c, t, wall, now);
    EvictionIsFifo(c, CleanAll(c, t, wall, now), x, y);
  }

  /** After an insertion, the new row and every other survive exactly when they fit with the rows fetched after them. */
  lemma RowSurvivesIff(c: CacheConfig, t: seq<Row>, row: Row, wall: int, now: int, x: Row)
    requires TableOk(t) && now >= wall
    requires x == row || (x in t && Fresh(c, x, wall, now) && !SameIdentity(x, row))
    ensures var all := Upsert(DeleteStale(c, t, wall, now, CLEANUP_CHUNK), row);
            var younger := FetchedAfter(all, x);
            && (forall r :: r in all ==> r == row || (r in t && !SameIdentity(r, row)))
            && row in all && (forall r :: r in t && Fresh(c, r, wall, now) && !SameIdentity(r, row) ==> r in all)
            && (x in AfterPut(c, t, row, wall, now)
                <==> 1 + |younger| <= c.maxEntries && x.bytes + Bytes(younger) <= c.maxBytes)
  {
    var cleaned := DeleteStale(c, t, wall, now, CLEANUP_CHUNK);
    DeleteStaleSound(c, t, wall, now, CLEANUP_CHUNK);
    UpsertKeepsOrder(cleaned, row);
    SurvivesIff(c, Upsert(cleaned, row), x);
  }

  /** At start-up a fresh row survives exactly when it fits with the fresh rows fetched after it. */
  lemma StartupSurvivesIff(c: CacheConfig, t: seq<Row>, wall: int, now: int, x: Row)
    requires TableOk(t) && now >= wall && x in t && Fresh(c, x, wall, now)
    ensures var clean := CleanAll(c, t, wall, now);
            var younger := FetchedAfter(clean, x);
            && (forall r :: r in clean <==> r in t && Fresh(c, r, wall, now))
            && (x in Initialized(c, t, wall, now)
                <==> 1 + |younger| <= c.maxEntries && x.bytes + Bytes(younger) <= c.maxBytes)
  {
    CleanAllSound(c, t, wall, now);
    SurvivesIff(c, CleanAll(c, t, wall, now), x);
  }

  /** A read deletes nothing but the row it finds over age: a hit is read-only, and can be had again. */
  lemma ReadsAreReadOnly(s: CacheState, e: Event)
    requires Inv(s) && e.Get?
    ensures var t := Exec(s, e);
            && t.puts == s.puts && t.config == s.config
            && t.highWater == (if e.wall > s.highWater then e.wall else s.highWater)
            && (forall r :: r in t.table ==> r in s.table)
            && (forall r :: r in s.table && r !in t.table ==>
                  r.provider == e.provider && r.key == e.key && r.kind == e.kind && GetAnswer(s, e).Miss?
                  && !Fresh(s.config, r, e.wall, t.highWater))
            && (GetAnswer(s, e).Hit? ==> t.table == s.table && GetAnswer(t, e) == GetAnswer(s, e))
  {
    var r := Lookup(s, e.provider, e.key, e.kind);
    if r.Some? {
      assert RowOk(r.value, s.puts);
      forall x | x in s.table && SameIdentity(x, r.value) ensures x == r.value {
        FindIsUnique(s.table, x);
      }
    }
  }
}
