/**
 The cache table as a sequence of rows in its first-in-first-out order (fetched_at, cache_key, provider),
 with freshness, cleanup, insertion and eviction. A cache key is the number its hexadecimal digest spells,
 so that text order is numeric order.
 */
module CacheTable {
  import opened Basics

  datatype Status = StatusOk | StatusNotFound | StatusOther

  /** A lookup's outcome; `body` stands for its summary and raw report. */
  datatype Outcome = Outcome(status: Status, fetchedAt: Option<int>, failed: bool, body: nat)

  /** `put` identifies the insertion that wrote the row. */
  datatype Row = Row(
    provider: ProviderId, key: nat, kind: IndicatorKind, status: Status, fetched: int, expires: int,
    payload: Outcome, bytes: nat, put: nat)

  datatype CacheConfig = CacheConfig(
    maxEntries: nat, maxBytes: nat, ipTtl: nat, urlTtl: nat, hashTtl: nat, notFoundTtl: nat)

  const CLEANUP_CHUNK: nat := 500

  // ---- Freshness ----

  function Ttl(c: CacheConfig, kind: IndicatorKind, status: Status): nat {
    if status == StatusNotFound then c.notFoundTtl
    else match kind
      case Ip => c.ipTtl
      case Url => c.urlTtl
      case Hash => c.hashTtl
  }

  function EffectiveExpiry(c: CacheConfig, r: Row): int {
    Min(r.expires, r.fetched + Ttl(c, r.kind, r.status))
  }

  /** A read may return the row. `now` is the effective clock, never behind `wall`. */
  predicate Fresh(c: CacheConfig, r: Row, wall: int, now: int) {
    Ttl(c, r.kind, r.status) != 0 && now < EffectiveExpiry(c, r) && r.fetched <= wall
  }

  /** The condition of the cleanup statement. */
  predicate CleanupSelects(c: CacheConfig, r: Row, wall: int, now: int) {
    r.expires <= now || r.fetched > wall || r.fetched <= now - Ttl(c, r.kind, r.status)
  }

  /** The statement selects exactly the rows no read may return, a zero lifetime included. */
  lemma CleanupSelectsStale(c: CacheConfig, r: Row, wall: int, now: int)
    requires now >= wall
    ensures CleanupSelects(c, r, wall, now) <==> !Fresh(c, r, wall, now)
  {
  }

  /** It relies on the effective clock: against a clock behind the wall the two can differ. */
  lemma CleanupNeedsEffectiveClock()
    ensures exists c, r, wall, now :: now < wall && (CleanupSelects(c, r, wall, now) <==> Fresh(c, r, wall, now))
  {
    var c := CacheConfig(1, 1, 0, 0, 0, 0);
    var r := Row(Abuseipdb, 0, Ip, StatusOk, 5, 100, Outcome(StatusOk, Some(5), false, 0), 0, 0);
    assert !CleanupSelects(c, r, 5, 4) && !Fresh(c, r, 5, 4);
  }

  /** Freshness by the configured lifetimes: an absence lives as long as absences do, whatever its kind. */
  lemma FreshByLifetime(c: CacheConfig, r: Row, wall: int, now: int)
    ensures r.status == StatusNotFound ==> (Fresh(c, r, wall, now) <==> Within(r, c.notFoundTtl, wall, now))
    ensures r.status == StatusOk && r.kind == Ip ==> (Fresh(c, r, wall, now) <==> Within(r, c.ipTtl, wall, now))
    ensures r.status == StatusOk && r.kind == Url ==> (Fresh(c, r, wall, now) <==> Within(r, c.urlTtl, wall, now))
    ensures r.status == StatusOk && r.kind == Hash ==> (Fresh(c, r, wall, now) <==> Within(r, c.hashTtl, wall, now))
  {
  }

  predicate Within(r: Row, lifetime: nat, wall: int, now: int) {
    lifetime > 0 && now < r.expires && now < r.fetched + lifetime && r.fetched <= wall
  }

  // ---- Order and identity ----

  function ProviderRank(p: ProviderId): nat {
    match p
    case Abuseipdb => 0
    case Virustotal => 1
  }

  predicate Before(a: Row, b: Row) {
    a.fetched < b.fetched
    || (a.fetched == b.fetched
        && (a.key < b.key || (a.key == b.key && ProviderRank(a.provider) < ProviderRank(b.provider))))
  }

  predicate SameIdentity(a: Row, b: Row) {
    a.provider == b.provider && a.key == b.key
  }

  ghost predicate TableOk(t: seq<Row>) {
    (forall i, j :: 0 <= i < j < |t| ==> Before(t[i], t[j]))
    && forall i, j :: 0 <= i < j < |t| ==> !SameIdentity(t[i], t[j])
  }

  // ---- Deleting and inserting ----

  function Without(t: seq<Row>, provider: ProviderId, key: nat): (r: seq<Row>)
    ensures forall x :: x in r <==> x in t && !(x.provider == provider && x.key == key)
  {
    if t == [] then []
    else (if t[0].provider == provider && t[0].key == key then [] else [t[0]]) + Without(t[1..], provider, key)
  }

  function InsertFifo(t: seq<Row>, row: Row): (r: seq<Row>)
    ensures forall x :: x in r <==> x in t || x == row
  {
    if t == [] then [row]
    else if Before(row, t[0]) then [row] + t
    else [t[0]] + InsertFifo(t[1..], row)
  }

  function Upsert(t: seq<Row>, row: Row): seq<Row> {
    InsertFifo(Without(t, row.provider, row.key), row)
  }

  lemma {:induction false} WithoutKeepsOrder(t: seq<Row>, provider: ProviderId, key: nat)
    requires TableOk(t)
    ensures TableOk(Without(t, provider, key))
  {
    if t != [] {
      WithoutKeepsOrder(t[1..], provider, key);
      var rest := Without(t[1..], provider, key);
      forall x | x in rest ensures Before(t[0], x) && !SameIdentity(t[0], x) {
        var j :| 0 <= j < |t[1..]| && t[1..][j] == x;
        assert t[j + 1] == x;
      }
    }
  }

  lemma {:induction false} InsertKeepsOrder(t: seq<Row>, row: Row)
    requires TableOk(t) && forall x :: x in t ==> !SameIdentity(x, row)
    ensures TableOk(InsertFifo(t, row))
  {
    if t == [] {
    } else if Before(row, t[0]) {
      forall j | 0 <= j < |t| ensures Before(row, t[j]) && !SameIdentity(row, t[j]) {
        assert t[j] in t;
        assert j > 0 ==> Before(t[0], t[j]);
      }
    } else {
      InsertKeepsOrder(t[1..], row);
      var rest := InsertFifo(t[1..], row);
      assert t[0] in t;
      forall x | x in rest ensures Before(t[0], x) && !SameIdentity(t[0], x) {
        if x != row {
          var j :| 0 <= j < |t[1..]| && t[1..][j] == x;
          assert t[j + 1] == x;
        }
      }
    }
  }

  lemma UpsertKeepsOrder(t: seq<Row>, row: Row)
    requires TableOk(t)
    ensures TableOk(Upsert(t, row))
    ensures forall x :: x in Upsert(t, row) <==> x == row || (x in t && !SameIdentity(x, row))
  {
    WithoutKeepsOrder(t, row.provider, row.key);
    InsertKeepsOrder(Without(t, row.provider, row.key), row);
  }

  /** The row of an identity, if present. */
  function Find(t: seq<Row>, provider: ProviderId, key: nat): (r: Option<Row>)
    ensures r.Some? ==> r.value in t && r.value.provider == provider && r.value.key == key
    ensures r.None? ==> forall x :: x in t ==> !(x.provider == provider && x.key == key)
  {
    if t == [] then None
    else if t[0].provider == provider && t[0].key == key then Some(t[0])
    else Find(t[1..], provider, key)
  }

  lemma FindIsUnique(t: seq<Row>, row: Row)
    requires TableOk(t) && row in t
    ensures Find(t, row.provider, row.key) == Some(row)
  {
    var r := Find(t, row.provider, row.key).value;
    var i :| 0 <= i < |t| && t[i] == row;
    var j :| 0 <= j < |t| && t[j] == r;
    assert SameIdentity(t[i], t[j]);
    if i < j { assert false; } else if j < i { assert SameIdentity(t[j], t[i]); }
  }

  // ---- Bounded cleanup ----

  predicate ExpiresBefore(a: Row, b: Row) {
    a.expires < b.expires
    || (a.expires == b.expires
        && (a.key < b.key || (a.key == b.key && ProviderRank(a.provider) < ProviderRank(b.provider))))
  }

  function Remove(t: seq<Row>, i: nat): seq<Row>
    requires i < |t|
  {
    t[..i] + t[i + 1..]
  }

  /** The position of the stale row that the cleanup order puts first. */
  function FirstStale(c: CacheConfig, t: seq<Row>, wall: int, now: int): (r: Option<nat>)
    ensures r.Some? ==> r.value < |t| && CleanupSelects(c, t[r.value], wall, now)
    ensures r.None? ==> forall i :: 0 <= i < |t| ==> !CleanupSelects(c, t[i], wall, now)
  {
    if t == [] then None
    else
      var n := |t| - 1;
      var best := FirstStale(c, t[..n], wall, now);
      if CleanupSelects(c, t[n], wall, now) && (best.None? || ExpiresBefore(t[n], t[best.value])) then Some(n)
      else best
  }

  /** Deletes up to `limit` stale rows, first-expiring first. */
  function DeleteStale(c: CacheConfig, t: seq<Row>, wall: int, now: int, limit: nat): seq<Row> {
    var i := FirstStale(c, t, wall, now);
    if limit == 0 || i.None? then t
    else DeleteStale(c, Remove(t, i.value), wall, now, limit - 1)
  }

  ghost predicate AllFresh(c: CacheConfig, t: seq<Row>, wall: int, now: int) {
    forall i :: 0 <= i < |t| ==> Fresh(c, t[i], wall, now)
  }

  lemma RemoveKeepsOrder(t: seq<Row>, i: nat)
    requires TableOk(t) && i < |t|
    ensures TableOk(Remove(t, i))
    ensures forall x :: x in Remove(t, i) ==> x in t
    ensures forall x :: x in t ==> x in Remove(t, i) || x == t[i]
  {
    forall x | x in t ensures x in Remove(t, i) || x == t[i] {
      var j :| 0 <= j < |t| && t[j] == x;
      if j < i {
        assert Remove(t, i)[j] == x;
      } else if j > i {
        assert Remove(t, i)[j - 1] == x;
      }
    }
  }

  /** Cleanup removes stale rows only, and stops short of its bound only when none is left. */
  lemma {:induction false} DeleteStaleSound(c: CacheConfig, t: seq<Row>, wall: int, now: int, limit: nat)
    requires TableOk(t) && now >= wall
    ensures var r := DeleteStale(c, t, wall, now, limit);
            && TableOk(r)
            && |t| - limit <= |r| <= |t|
            && (forall x :: x in r ==> x in t)
            && (forall x :: x in t && Fresh(c, x, wall, now) ==> x in r)
            && (|r| > |t| - limit ==> AllFresh(c, r, wall, now))
  {
    var i := FirstStale(c, t, wall, now);
    if limit == 0 {
    } else if i.None? {
      forall k | 0 <= k < |t| ensures Fresh(c, t[k], wall, now) {
        CleanupSelectsStale(c, t[k], wall, now);
      }
    } else {
      RemoveKeepsOrder(t, i.value);
      CleanupSelectsStale(c, t[i.value], wall, now);
      DeleteStaleSound(c, Remove(t, i.value), wall, now, limit - 1);
    }
  }

  /** The first stale row found expires no later than any other, ties going by key and then provider. */
  lemma {:induction false} FirstStaleExpiresFirst(c: CacheConfig, t: seq<Row>, wall: int, now: int, k: nat)
    requires k < |t| && CleanupSelects(c, t[k], wall, now)
    ensures FirstStale(c, t, wall, now).Some?
    ensures var first := t[FirstStale(c, t, wall, now).value];
            first.expires < t[k].expires
            || (first.expires == t[k].expires
                && (first.key < t[k].key
                    || (first.key == t[k].key && (first.provider == t[k].provider || first.provider == Abuseipdb))))
  {
    var n := |t| - 1;
    if k < n {
      FirstStaleExpiresFirst(c, t[..n], wall, now, k);
    } else {
      var best := FirstStale(c, t[..n], wall, now);
    }
  }

  lemma FirstStaleIsEarliest(c: CacheConfig, t: seq<Row>, wall: int, now: int, y: Row)
    requires now >= wall && y in t && !Fresh(c, y, wall, now) && FirstStale(c, t, wall, now).Some?
    ensures t[FirstStale(c, t, wall, now).value].expires <= y.expires
  {
    var k :| 0 <= k < |t| && t[k] == y;
    CleanupSelectsStale(c, y, wall, now);
    FirstStaleExpiresFirst(c, t, wall, now, k);
  }

  /** Bounded cleanup deletes the stale rows that expire first: none it leaves expires before one it deletes. */
  lemma {:induction false} CleanupTakesFirstExpiring(c: CacheConfig, t: seq<Row>, wall: int, now: int, limit: nat, x: Row, y: Row)
    requires TableOk(t) && now >= wall
    requires x in t && x !in DeleteStale(c, t, wall, now, limit)
    requires y in DeleteStale(c, t, wall, now, limit) && !Fresh(c, y, wall, now)
    ensures x.expires <= y.expires
  {
    var i := FirstStale(c, t, wall, now).value;
    var rest := Remove(t, i);
    RemoveKeepsOrder(t, i);
    if x == t[i] {
      DeleteStaleSound(c, rest, wall, now, limit - 1);
      FirstStaleIsEarliest(c, t, wall, now, y);
    } else {
      CleanupTakesFirstExpiring(c, rest, wall, now, limit - 1, x, y);
    }
  }

  // ---- Eviction ----

  function Bytes(t: seq<Row>): nat {
    if t == [] then 0 else t[0].bytes + Bytes(t[1..])
  }

  predicate Fits(c: CacheConfig, t: seq<Row>) {
    |t| <= c.maxEntries && Bytes(t) <= c.maxBytes
  }

  /** The simple rule: drop the oldest row until both limits hold. */
  function EvictFifo(c: CacheConfig, t: seq<Row>): seq<Row> {
    if Fits(c, t) then t else EvictFifo(c, t[1..])
  }

  lemma {:induction false} SuffixFits(c: CacheConfig, t: seq<Row>, j: nat)
    requires j <= |t| && Fits(c, t)
    ensures Fits(c, t[j..])
  {
    if j > 0 {
      assert t[1..][j - 1..] == t[j..];
      SuffixFits(c, t[1..], j - 1);
    }
  }

  /** What survives is the longest suffix that fits; so a row survives exactly when it fits with all younger ones. */
  lemma {:induction false} SurvivorsAreLongestFit(c: CacheConfig, t: seq<Row>)
    ensures |EvictFifo(c, t)| <= |t| && EvictFifo(c, t) == t[|t| - |EvictFifo(c, t)|..]
    ensures Fits(c, EvictFifo(c, t))
    ensures forall j :: 0 <= j < |t| ==> (Fits(c, t[j..]) <==> j >= |t| - |EvictFifo(c, t)|)
  {
    if Fits(c, t) {
      forall j | 0 <= j < |t| ensures Fits(c, t[j..]) {
        SuffixFits(c, t, j);
      }
    } else {
      SurvivorsAreLongestFit(c, t[1..]);
      forall j | 0 <= j < |t| ensures Fits(c, t[j..]) <==> j >= |t| - |EvictFifo(c, t)| {
        if j == 0 {
          assert t[0..] == t;
        } else {
          assert t[j..] == t[1..][j - 1..];
        }
      }
      var k := |t[1..]| - |EvictFifo(c, t[1..])|;
      assert t[1..][k..] == t[k + 1..];
    }
  }

  /** Fetched earlier, or at the same time with a smaller key, or then for the provider whose name comes first. */
  predicate FetchedBefore(a: Row, b: Row) {
    a.fetched < b.fetched
    || (a.fetched == b.fetched && a.key < b.key)
    || (a.fetched == b.fetched && a.key == b.key && a.provider == Abuseipdb && b.provider == Virustotal)
  }

  /** First in, first out: every row evicted was fetched before every row kept. */
  lemma EvictionIsFifo(c: CacheConfig, t: seq<Row>, x: Row, y: Row)
    requires TableOk(t) && x in t && x !in EvictFifo(c, t) && y in EvictFifo(c, t)
    ensures FetchedBefore(x, y)
  {
    SurvivorsAreLongestFit(c, t);
    var k := |t| - |EvictFifo(c, t)|;
    InSuffix(t, k);
    var i :| 0 <= i < |t| && t[i] == x;
    var j :| 0 <= j < |EvictFifo(c, t)| && EvictFifo(c, t)[j] == y;
    assert y == t[k + j];
    assert Before(t[i], t[k + j]);
  }

  lemma InSuffix(t: seq<Row>, k: nat)
    requires k <= |t|
    ensures forall i :: k <= i < |t| ==> t[i] in t[k..]
  {
    forall i | k <= i < |t| ensures t[i] in t[k..] {
      assert t[k..][i - k] == t[i];
    }
  }

  /** The rows of `t` fetched after `row`. */
  function FetchedAfter(t: seq<Row>, row: Row): seq<Row> {
    if t == [] then []
    else (if FetchedBefore(row, t[0]) then [t[0]] else []) + FetchedAfter(t[1..], row)
  }

  lemma BeforeByFields(a: Row, b: Row)
    ensures Before(a, b) <==> FetchedBefore(a, b)
  {
  }

  /** In an ordered table, the rows fetched after one of its rows are those behind it. */
  lemma {:induction false} BehindIsAfter(t: seq<Row>, j: nat)
    requires TableOk(t) && j < |t|
    ensures FetchedAfter(t, t[j]) == t[j + 1..]
  {
    BeforeByFields(t[j], t[0]);
    if j == 0 {
      if |t| > 1 {
        assert Before(t[0], t[1]);
        AllAfter(t[1..], t[0]);
      }
    } else {
      assert Before(t[0], t[j]);
      BehindIsAfter(t[1..], j - 1);
      assert t[1..][j..] == t[j + 1..];
    }
  }

  lemma {:induction false} AllAfter(t: seq<Row>, row: Row)
    requires TableOk(t) && t != [] && Before(row, t[0])
    ensures FetchedAfter(t, row) == t
  {
    if |t| > 1 {
      assert Before(t[0], t[1]);
      AllAfter(t[1..], row);
    }
    assert t == [t[0]] + t[1..];
  }

  /** A row survives eviction exactly when it fits together with every row fetched after it. */
  lemma SurvivesIff(c: CacheConfig, t: seq<Row>, x: Row)
    requires TableOk(t) && x in t
    ensures x in EvictFifo(c, t) <==>
            1 + |FetchedAfter(t, x)| <= c.maxEntries && x.bytes + Bytes(FetchedAfter(t, x)) <= c.maxBytes
  {
    var j :| 0 <= j < |t| && t[j] == x;
    BehindIsAfter(t, j);
    SurvivesFrom(c, t, j);
    assert t[j..][0] == x && t[j..][1..] == t[j + 1..];
  }

  lemma SurvivesFrom(c: CacheConfig, all: seq<Row>, j: nat)
    requires TableOk(all) && j < |all|
    ensures all[j] in EvictFifo(c, all) <==> Fits(c, all[j..])
  {
    SurvivorsAreLongestFit(c, all);
    var k := |all| - |EvictFifo(c, all)|;
    if j >= k {
      assert all[k..][j - k] == all[j];
    } else {
      forall i | 0 <= i < |all[k..]| ensures all[k..][i] != all[j] {
        assert all[k..][i] == all[k + i] && !SameIdentity(all[j], all[k + i]);
      }
    }
  }

  lemma EvictKeepsOrder(c: CacheConfig, t: seq<Row>)
    requires TableOk(t)
    ensures TableOk(EvictFifo(c, t))
    ensures forall x :: x in EvictFifo(c, t) ==> x in t
  {
    SurvivorsAreLongestFit(c, t);
  }

  /**
   Eviction in chunks, with running totals, as the code does it. It equals the simple rule, and the
   error for an empty chunk (`ok` false) cannot arise.
   */
  method Evict(c: CacheConfig, t: seq<Row>) returns (ok: bool, kept: seq<Row>)
    ensures ok && kept == EvictFifo(c, t)
  {
    kept := t;
    var entries, bytes := |t|, Bytes(t);
    while entries > c.maxEntries || bytes > c.maxBytes
      invariant entries == |kept| && bytes == Bytes(kept)
      invariant EvictFifo(c, kept) == EvictFifo(c, t)
      decreases |kept|
    {
      var chunk := kept[..if |kept| < CLEANUP_CHUNK then |kept| else CLEANUP_CHUNK];
      var count := 0;
      while count < |chunk| && !(entries <= c.maxEntries && bytes <= c.maxBytes)
        invariant 0 <= count <= |chunk|
        invariant entries == |kept| - count && bytes == Bytes(kept[count..])
        invariant EvictFifo(c, kept[count..]) == EvictFifo(c, t)
        invariant count == 0 ==> entries > c.maxEntries || bytes > c.maxBytes
      {
        assert kept[count..][0] == chunk[count] && kept[count..][1..] == kept[count + 1..];
        entries := entries - 1;
        bytes := bytes - chunk[count].bytes;
        count := count + 1;
      }
      if count == 0 {
        return false, kept;
      }
      kept := kept[count..];
    }
    ok := true;
  }
}
