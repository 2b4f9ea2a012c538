/** The cache operations of the storage object, each proved to be one step of the cache's state machine. */
module CacheStore {
  import opened Basics
  import opened CacheTable
  import opened Cache

  class CacheStore {
    var table: seq<Row>
    var clockHighWater: int
    var highWater: int
    var config: CacheConfig
    var puts: seq<Row>  // every insertion ever committed, which only specifications speak of

    ghost function View(): CacheState
      reads this
    {
      CacheState(table, clockHighWater, highWater, config, puts)
    }

    constructor (wall: int, config: CacheConfig)
      ensures View() == Start(wall, config)
    {
      table, clockHighWater, highWater, puts := [], wall, wall, [];
      this.config := config;
    }

    method ObserveTime(wall: int) returns (now: int)
      modifies this`highWater
      ensures now == highWater == Max(old(highWater), wall)
    {
      highWater := Max(highWater, wall);
      now := highWater;
    }

    method CacheGet(provider: ProviderId, key: nat, kind: IndicatorKind, wall: int, deleted: bool) returns (a: Answer)
      modifies this
      ensures View() == Exec(old(View()), Get(provider, key, kind, wall, deleted))
      ensures a == GetAnswer(old(View()), Get(provider, key, kind, wall, deleted))
    {
      var found := Find(table, provider, key);
      var now := ObserveTime(wall);
      if found.None? || found.value.kind != kind {
        return Miss;
      }
      var row := found.value;
      if row.status == StatusOther {
        return Corrupt;
      }
      var ttl := Ttl(config, kind, row.status);
      if ttl == 0 {
        return Miss;
      }
      var effectiveExpiry := Min(row.expires, row.fetched + ttl);
      if now >= effectiveExpiry {
        if !deleted {
          return Failing;
        }
        table := Without(table, provider, key);
        return Miss;
      }
      if row.fetched > wall {
        return Miss;
      }
      if row.payload.status != row.status || row.payload.fetchedAt != Some(row.fetched) || row.payload.failed {
        return Corrupt;
      }
      a := Hit(row.payload, effectiveExpiry);
    }

    /** One bounded cleanup statement: how many rows it deleted. */
    method DeleteExpired(wall: int, now: int) returns (deleted: nat)
      modifies this`table
      ensures table == DeleteStale(config, old(table), wall, now, CLEANUP_CHUNK)
      ensures deleted == |old(table)| - |table| <= CLEANUP_CHUNK
    {
      DeletionsCounted(config, table, wall, now, CLEANUP_CHUNK);
      var after := DeleteStale(config, table, wall, now, CLEANUP_CHUNK);
      deleted := |table| - |after|;
      table := after;
    }

    /** The transaction of `cache_put`: bounded cleanup, insertion, eviction, and whether the row survived. */
    method InsertRow(row: Row, wall: int, now: int) returns (retained: bool)
      requires TableOk(table) && now >= wall && row.put == |puts| && forall r :: r in table ==> r.put < |puts|
      modifies this`table, this`puts
      ensures table == AfterPut(config, old(table), row, wall, now) && puts == old(puts) + [row]
      ensures retained <==> row in table
    {
      AfterPutSound(config, table, row, wall, now);
      var _ := DeleteExpired(wall, now);
      table := Upsert(table, row);
      var ok, kept := Evict(config, table);
      table := kept;
      puts := puts + [row];
      var found := Find(table, row.provider, row.key);
      if row in table {
        FindIsUnique(table, row);
      }
      retained := found.Some?;
    }

    /**
     Reports an expiry exactly when the new row is in the table afterwards and the commit was reported; errors
     are a cacheable outcome without a fetch time, and a commit that failed or went unreported.
     */
    method CachePut(provider: ProviderId, key: nat, kind: IndicatorKind, outcome: Outcome, bytes: nat,
                    asked: int, wall: int, landed: bool, reported: bool)
      returns (answer: Result<Option<int>, StorageError>)
      requires TableOk(table) && forall r :: r in table ==> r.put < |puts|
      modifies this
      ensures View() == Exec(old(View()), Put(provider, key, kind, outcome, bytes, asked, wall, landed))
      ensures answer == Err(InvalidData) <==>
              outcome.status != StatusOther && Ttl(config, kind, outcome.status) != 0 && outcome.fetchedAt.None?
      ensures answer == Err(Unavailable) <==>
              Storable(old(View()), Put(provider, key, kind, outcome, bytes, asked, wall, landed))
              && !(landed && reported)
      ensures answer != Err(Timeout)
      ensures answer.Ok? ==>
                && (answer.value.Some? <==> |puts| > |old(puts)| && puts[|old(puts)|] in table)
                && (answer.value.Some? ==> answer.value.value == puts[|old(puts)|].expires)
    {
      if outcome.status == StatusOther {
        return Ok(None);
      }
      var ttl := Ttl(config, kind, outcome.status);
      if ttl == 0 {
        return Ok(None);
      }
      if outcome.fetchedAt.None? {
        return Err(InvalidData);
      }
      var fetched := outcome.fetchedAt.value;
      if outcome.failed || fetched > asked || bytes > config.maxBytes {
        return Ok(None);
      }
      var expires := fetched + ttl;
      var now := ObserveTime(wall);
      if fetched > wall || now >= expires {
        return Ok(None);
      }
      if !landed {
        return Err(Unavailable);
      }
      var retained := InsertRow(
        Row(provider, key, kind, outcome.status, fetched, expires, outcome, bytes, |puts|), wall, now);
      answer := if !reported then Err(Unavailable) else Ok(if retained then Some(expires) else None);
    }

    method CleanupExpired(wall: int)
      modifies this
      ensures View() == Exec(old(View()), Cleanup(wall, true))
    {
      var now := ObserveTime(wall);
      var _ := DeleteExpired(wall, now);
    }

    /** Opening the database under a new configuration: cleanup in chunks until one comes up short, then eviction. */
    method Initialize(wall: int, newConfig: CacheConfig)
      modifies this
      ensures View() == Exec(old(View()), Restart(wall, newConfig))
      ensures TableOk(old(table)) ==> AllFresh(config, table, wall, highWater) && Fits(config, table)
    {
      config := newConfig;
      highWater := clockHighWater;
      var now := ObserveTime(wall);
      ghost var before := table;
      var deleted := DeleteExpired(wall, now);
      while deleted == CLEANUP_CHUNK
        invariant config == newConfig && clockHighWater == old(clockHighWater) && puts == old(puts) && highWater == now
        invariant deleted <= CLEANUP_CHUNK
        invariant CleanAll(config, before, wall, now)
                  == if deleted == CLEANUP_CHUNK then CleanAll(config, table, wall, now) else table
        decreases |table| + deleted
      {
        deleted := DeleteExpired(wall, now);
      }
      var ok, kept := Evict(config, table);
      table := kept;
      if TableOk(before) {
        StartupReconciles(config, before, wall, now);
      }
    }
  }

  lemma {:induction false} DeletionsCounted(c: CacheConfig, t: seq<Row>, wall: int, now: int, limit: nat)
    ensures |t| - limit <= |DeleteStale(c, t, wall, now, limit)| <= |t|
  {
    var i := FirstStale(c, t, wall, now);
    if limit > 0 && i.Some? {
      DeletionsCounted(c, Remove(t, i.value), wall, now, limit - 1);
    }
  }
}
