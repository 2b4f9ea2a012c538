/** Collapsing a request's indicator-provider slots to distinct lookups, and spreading the results back. */
module Batch {
  import opened Basics
  import opened Domain

  /** What a lookup depends on. */
  type Identity = (ProviderId, IndicatorKind, Option<HashAlgorithm>, string)

  type Pair = (ProviderId, Indicator)

  function IdentityOf(p: Pair): Identity {
    (p.0, p.1.kind, p.1.algorithm, p.1.lookupValue)
  }

  /** Slots share a lookup exactly when provider, kind, algorithm and lookup value all agree. */
  lemma SameLookupIff(a: Pair, b: Pair)
    ensures IdentityOf(a) == IdentityOf(b) <==>
            a.0 == b.0 && a.1.kind == b.1.kind && a.1.algorithm == b.1.algorithm && a.1.lookupValue == b.1.lookupValue
  {
  }

  /** One slot for each indicator and provider, indicators first. */
  function Slots(indicators: seq<Indicator>, providers: seq<ProviderId>): seq<Pair> {
    if indicators == [] then []
    else Slots(indicators[..|indicators| - 1], providers) + Row(indicators[|indicators| - 1], providers)
  }

  function Row(indicator: Indicator, providers: seq<ProviderId>): seq<Pair> {
    if providers == [] then []
    else Row(indicator, providers[..|providers| - 1]) + [(providers[|providers| - 1], indicator)]
  }

  // ---- Distinct lookups ----

  /** Slot `k` is the first with its identity. */
  ghost predicate FirstWithIdentity(slots: seq<Pair>, k: nat)
    requires k < |slots|
  {
    forall j :: 0 <= j < k ==> IdentityOf(slots[j]) != IdentityOf(slots[k])
  }

  /** The positions of the slots that are first with their identity, in order. */
  ghost function FirstsOf(slots: seq<Pair>): (firsts: seq<nat>)
    ensures |firsts| <= |slots|
  {
    if slots == [] then []
    else
      var n := |slots| - 1;
      FirstsOf(slots[..n]) + (if FirstWithIdentity(slots, n) then [n] else [])
  }

  /** In order and without repetition, they are the slots that are first with their identity, and no others. */
  lemma {:induction false} FirstsAreExactlyFirst(slots: seq<Pair>)
    ensures forall k: nat :: k in FirstsOf(slots) <==> k < |slots| && FirstWithIdentity(slots, k)
    ensures forall i, j :: 0 <= i < j < |FirstsOf(slots)| ==> FirstsOf(slots)[i] < FirstsOf(slots)[j]
  {
    if slots != [] {
      var n := |slots| - 1;
      var before := FirstsOf(slots[..n]);
      FirstsAreExactlyFirst(slots[..n]);
      forall k | 0 <= k < n ensures FirstWithIdentity(slots[..n], k) <==> FirstWithIdentity(slots, k) {
        assert forall j :: 0 <= j <= k ==> slots[..n][j] == slots[j];
      }
      forall i | 0 <= i < |before| ensures before[i] < n {
        assert before[i] in before;
      }
    }
  }

  /** Pairs are the first slots of each identity, and every slot is sent to the pair of its own identity. */
  ghost predicate Deduplicated(slots: seq<Pair>, pairs: seq<Pair>, positions: seq<nat>) {
    var firsts := FirstsOf(slots);
    && |pairs| == |firsts| && (forall i :: 0 <= i < |pairs| ==> firsts[i] < |slots| && pairs[i] == slots[firsts[i]])
    && |positions| == |slots|
    && (forall k :: 0 <= k < |slots| ==>
          positions[k] < |pairs| && IdentityOf(pairs[positions[k]]) == IdentityOf(slots[k]))
  }

  lemma PairsAreDistinct(slots: seq<Pair>, pairs: seq<Pair>, positions: seq<nat>, i: nat, j: nat)
    requires Deduplicated(slots, pairs, positions) && i < j < |pairs|
    ensures IdentityOf(pairs[i]) != IdentityOf(pairs[j])
  {
    FirstsAreExactlyFirst(slots);
    assert FirstsOf(slots)[j] in FirstsOf(slots);
  }

  lemma {:induction false} FirstsOfAppend(slots: seq<Pair>, slot: Pair, all: seq<Pair>)
    requires all == slots + [slot]
    ensures FirstsOf(all) == FirstsOf(slots) + (if FirstWithIdentity(all, |slots|) then [|slots|] else [])
  {
    assert |all| - 1 == |slots| && all[..|slots|] == slots;
  }

  lemma NewIdentity(slots: seq<Pair>, pairs: seq<Pair>, positions: seq<nat>, slot: Pair)
    requires Deduplicated(slots, pairs, positions)
    requires forall i :: 0 <= i < |pairs| ==> IdentityOf(pairs[i]) != IdentityOf(slot)
    ensures Deduplicated(slots + [slot], pairs + [slot], positions + [|pairs|])
  {
    forall j | 0 <= j < |slots| ensures IdentityOf((slots + [slot])[j]) != IdentityOf(slot) {
      assert IdentityOf(pairs[positions[j]]) == IdentityOf(slots[j]);
    }
    FirstsOfAppend(slots, slot, slots + [slot]);
  }

  lemma KnownIdentity(slots: seq<Pair>, pairs: seq<Pair>, positions: seq<nat>, slot: Pair, i: nat)
    requires Deduplicated(slots, pairs, positions)
    requires i < |pairs| && IdentityOf(pairs[i]) == IdentityOf(slot)
    ensures Deduplicated(slots + [slot], pairs, positions + [i])
  {
    assert IdentityOf((slots + [slot])[FirstsOf(slots)[i]]) == IdentityOf(slot);
    FirstsOfAppend(slots, slot, slots + [slot]);
  }

  /** The map entry for one slot: an identity seen before keeps its position, a new one gets the next pair. */
  method Place(unique: map<Identity, nat>, pairs: seq<Pair>, positions: seq<nat>, slot: Pair, ghost slots: seq<Pair>)
    returns (unique': map<Identity, nat>, pairs': seq<Pair>, positions': seq<nat>)
    requires Deduplicated(slots, pairs, positions) && Indexed(unique, pairs)
    ensures Deduplicated(slots + [slot], pairs', positions') && Indexed(unique', pairs')
  {
    var identity := IdentityOf(slot);
    if identity in unique {
      KnownIdentity(slots, pairs, positions, slot, unique[identity]);
      return unique, pairs, positions + [unique[identity]];
    }
    AbsentFromPairs(unique, pairs, identity);
    NewIdentity(slots, pairs, positions, slot);
    IndexedOneMore(unique, pairs, slot);
    return unique[identity := |pairs|], pairs + [slot], positions + [|pairs|];
  }

  /** The loop over indicators, with a map from identities to positions. */
  method Deduplicate(indicators: seq<Indicator>, providers: seq<ProviderId>)
    returns (pairs: seq<Pair>, positions: seq<nat>)
    ensures Deduplicated(Slots(indicators, providers), pairs, positions)
  {
    var unique: map<Identity, nat> := map[];
    pairs, positions := [], [];
    for i := 0 to |indicators|
      invariant Deduplicated(Slots(indicators[..i], providers), pairs, positions) && Indexed(unique, pairs)
    {
      ghost var slots := Slots(indicators[..i], providers);
      unique, pairs, positions := PlaceRow(unique, pairs, positions, indicators[i], providers, slots);
      SlotsOneMore(indicators, providers, i);
    }
    assert indicators[..|indicators|] == indicators;
  }

  /** The loop over the providers for one indicator. */
  method PlaceRow(unique: map<Identity, nat>, pairs: seq<Pair>, positions: seq<nat>, indicator: Indicator,
                  providers: seq<ProviderId>, ghost slots: seq<Pair>)
    returns (unique': map<Identity, nat>, pairs': seq<Pair>, positions': seq<nat>)
    requires Deduplicated(slots, pairs, positions) && Indexed(unique, pairs)
    ensures Deduplicated(slots + Row(indicator, providers), pairs', positions') && Indexed(unique', pairs')
  {
    unique', pairs', positions' := unique, pairs, positions;
    ghost var all := slots;
    for j := 0 to |providers|
      invariant all == slots + Row(indicator, providers[..j])
      invariant Deduplicated(all, pairs', positions') && Indexed(unique', pairs')
    {
      RowOneMore(slots, indicator, providers, j);
      var slot := (providers[j], indicator);
      unique', pairs', positions' := Place(unique', pairs', positions', slot, all);
      all := all + [slot];
    }
    assert providers[..|providers|] == providers;
  }

  /** The map holds exactly the identities of the pairs, each at its position. */
  ghost predicate Indexed(unique: map<Identity, nat>, pairs: seq<Pair>) {
    (forall id :: id in unique ==> unique[id] < |pairs| && IdentityOf(pairs[unique[id]]) == id)
    && forall i :: 0 <= i < |pairs| ==> IdentityOf(pairs[i]) in unique
  }

  lemma AbsentFromPairs(unique: map<Identity, nat>, pairs: seq<Pair>, identity: Identity)
    requires Indexed(unique, pairs) && identity !in unique
    ensures forall i :: 0 <= i < |pairs| ==> IdentityOf(pairs[i]) != identity
  {
  }

  lemma IndexedOneMore(unique: map<Identity, nat>, pairs: seq<Pair>, slot: Pair)
    requires Indexed(unique, pairs) && IdentityOf(slot) !in unique
    ensures Indexed(unique[IdentityOf(slot) := |pairs|], pairs + [slot])
  {
  }

  lemma RowOneMore(before: seq<Pair>, indicator: Indicator, providers: seq<ProviderId>, j: nat)
    requires j < |providers|
    ensures before + Row(indicator, providers[..j + 1]) == before + Row(indicator, providers[..j]) + [(providers[j], indicator)]
  {
    assert providers[..j + 1][..j] == providers[..j];
  }

  lemma SlotsOneMore(indicators: seq<Indicator>, providers: seq<ProviderId>, i: nat)
    requires i < |indicators|
    ensures Slots(indicators[..i + 1], providers) == Slots(indicators[..i], providers) + Row(indicators[i], providers)
  {
    assert indicators[..i + 1][..i] == indicators[..i];
  }

  lemma {:induction false} RowAt(indicator: Indicator, providers: seq<ProviderId>)
    ensures |Row(indicator, providers)| == |providers|
    ensures forall j :: 0 <= j < |providers| ==> Row(indicator, providers)[j] == (providers[j], indicator)
  {
    if providers != [] {
      RowAt(indicator, providers[..|providers| - 1]);
    }
  }

  /** The slots of indicator `i` are those from `start` on, one for each provider. */
  lemma {:induction false} SlotsFrom(indicators: seq<Indicator>, providers: seq<ProviderId>, i: nat, start: nat, j: nat)
    requires i < |indicators| && j < |providers| && start == i * |providers|
    ensures start + j < |Slots(indicators, providers)|
    ensures Slots(indicators, providers)[start + j] == (providers[j], indicators[i])
  {
    var n := |indicators| - 1;
    var front, row := Slots(indicators[..n], providers), Row(indicators[n], providers);
    RowAt(indicators[n], providers);
    if i < n {
      SlotsFrom(indicators[..n], providers, i, start, j);
    } else {
      SlotCount(indicators[..n], providers);
      assert |front| == start && (front + row)[start + j] == row[j];
    }
  }

  lemma {:induction false} SlotCount(indicators: seq<Indicator>, providers: seq<ProviderId>)
    ensures |Slots(indicators, providers)| == |indicators| * |providers|
  {
    if indicators != [] {
      var n, w := |indicators| - 1, |providers|;
      SlotCount(indicators[..n], providers);
      RowAt(indicators[n], providers);
      OneMoreRow(n, w);
    }
  }

  lemma OneMoreRow(n: nat, w: nat)
    ensures (n + 1) * w == n * w + w
  {
  }

  // ---- Counting lookups ----

  function Identities(pairs: seq<Pair>): set<Identity> {
    set k | 0 <= k < |pairs| :: IdentityOf(pairs[k])
  }

  lemma {:induction false} DistinctAreCounted(pairs: seq<Pair>)
    requires forall i, j :: 0 <= i < j < |pairs| ==> IdentityOf(pairs[i]) != IdentityOf(pairs[j])
    ensures |Identities(pairs)| == |pairs|
  {
    if pairs != [] {
      var n := |pairs| - 1;
      DistinctAreCounted(pairs[..n]);
      assert forall k :: 0 <= k < n ==> pairs[..n][k] == pairs[k];
      assert Identities(pairs) == Identities(pairs[..n]) + {IdentityOf(pairs[n])};
    }
  }

  lemma PairsCoverSlots(slots: seq<Pair>, pairs: seq<Pair>, positions: seq<nat>)
    requires Deduplicated(slots, pairs, positions)
    ensures Identities(pairs) == Identities(slots)
  {
    forall id | id in Identities(pairs) ensures id in Identities(slots) {
      var i :| 0 <= i < |pairs| && IdentityOf(pairs[i]) == id;
      assert IdentityOf(slots[FirstsOf(slots)[i]]) == id;
    }
    forall id | id in Identities(slots) ensures id in Identities(pairs) {
      var k :| 0 <= k < |slots| && IdentityOf(slots[k]) == id;
      assert IdentityOf(pairs[positions[k]]) == id;
    }
  }

  /** What there is to look up: each provider with each kind, algorithm and lookup value, once. */
  ghost function WantedLookups(indicators: seq<Indicator>, providers: seq<ProviderId>)
    : set<(ProviderId, IndicatorKind, Option<HashAlgorithm>, string)>
  {
    set i, j | 0 <= i < |indicators| && 0 <= j < |providers| ::
      (providers[j], indicators[i].kind, indicators[i].algorithm, indicators[i].lookupValue)
  }

  lemma {:induction false} WantedAreIdentities(indicators: seq<Indicator>, providers: seq<ProviderId>)
    ensures Identities(Slots(indicators, providers)) == WantedLookups(indicators, providers)
  {
    if indicators != [] {
      var n := |indicators| - 1;
      var front, row := Slots(indicators[..n], providers), Row(indicators[n], providers);
      WantedAreIdentities(indicators[..n], providers);
      RowAt(indicators[n], providers);
      IdentitiesOfAppend(front, row);
      assert Identities(row) == set j | 0 <= j < |providers| :: IdentityOf((providers[j], indicators[n]));
      WantedOneMore(indicators, providers);
    }
  }

  lemma IdentitiesOfAppend(a: seq<Pair>, b: seq<Pair>)
    ensures Identities(a + b) == Identities(a) + Identities(b)
  {
    forall id | id in Identities(a) + Identities(b) ensures id in Identities(a + b) {
      if id in Identities(a) {
        var k :| 0 <= k < |a| && IdentityOf(a[k]) == id;
        assert (a + b)[k] == a[k];
      } else {
        var k :| 0 <= k < |b| && IdentityOf(b[k]) == id;
        assert (a + b)[|a| + k] == b[k];
      }
    }
  }

  lemma WantedOneMore(indicators: seq<Indicator>, providers: seq<ProviderId>)
    requires indicators != []
    ensures var n := |indicators| - 1;
            WantedLookups(indicators, providers) == WantedLookups(indicators[..n], providers)
            + (set j | 0 <= j < |providers| :: IdentityOf((providers[j], indicators[n])))
  {
    var n := |indicators| - 1;
    forall id | id in WantedLookups(indicators[..n], providers) ensures id in WantedLookups(indicators, providers) {
      var i, j :| 0 <= i < n && 0 <= j < |providers|
                  && id == (providers[j], indicators[..n][i].kind, indicators[..n][i].algorithm, indicators[..n][i].lookupValue);
      assert indicators[..n][i] == indicators[i];
    }
    forall id | id in WantedLookups(indicators, providers)
      ensures id in WantedLookups(indicators[..n], providers)
              + (set j | 0 <= j < |providers| :: IdentityOf((providers[j], indicators[n])))
    {
      var i, j :| 0 <= i <= n && 0 <= j < |providers|
                  && id == (providers[j], indicators[i].kind, indicators[i].algorithm, indicators[i].lookupValue);
      if i < n {
        assert indicators[..n][i] == indicators[i];
      }
    }
  }

  // ---- Results ----

  /** Looking up each slot by itself. */
  function Naive<R>(slots: seq<Pair>, lookup: (ProviderId, Indicator) -> R): (r: seq<R>)
    ensures |r| == |slots| && forall k :: 0 <= k < |slots| ==> r[k] == lookup(slots[k].0, slots[k].1)
  {
    seq(|slots|, k requires 0 <= k < |slots| => lookup(slots[k].0, slots[k].1))
  }

  /** Sends each pair's result to the slots at its position; a position without a result would fail. */
  method Scatter<R>(positions: seq<nat>, uniqueResults: seq<R>, failure: R) returns (results: seq<R>)
    ensures |results| == |positions|
    ensures forall k :: 0 <= k < |positions| ==>
              results[k] == if positions[k] < |uniqueResults| then uniqueResults[positions[k]] else failure
  {
    results := [];
    for k := 0 to |positions|
      invariant |results| == k
      invariant forall i :: 0 <= i < k ==>
                  results[i] == if positions[i] < |uniqueResults| then uniqueResults[positions[i]] else failure
    {
      results := results + [if positions[k] < |uniqueResults| then uniqueResults[positions[k]] else failure];
    }
  }

  /** The lookup depends on provider, kind, algorithm and lookup value only. */
  ghost predicate Canonical<R>(lookup: (ProviderId, Indicator) -> R) {
    forall p: ProviderId, a: Indicator, b: Indicator ::
      a.kind == b.kind && a.algorithm == b.algorithm && a.lookupValue == b.lookupValue ==> lookup(p, a) == lookup(p, b)
  }

  /** The result for indicator `i` and provider `j`, with `width` providers to each indicator, is `r`. */
  ghost predicate ResultAt<R>(results: seq<R>, i: int, width: nat, j: int, r: R) {
    0 <= i * width + j < |results| && results[i * width + j] == r
  }

  /**
   With canonical lookups, looking up each pair once gives the slot of every indicator and provider the result of
   looking up just that one, and takes as many lookups as there are different ones wanted.
   */
  method LookupBatch<R>(indicators: seq<Indicator>, providers: seq<ProviderId>,
                        lookup: (ProviderId, Indicator) -> R, failure: R)
    returns (results: seq<R>, lookups: nat)
    requires Canonical(lookup)
    ensures |results| == |indicators| * |providers|
    ensures forall i, j :: 0 <= i < |indicators| && 0 <= j < |providers| ==>
              ResultAt(results, i, |providers|, j, lookup(providers[j], indicators[i]))
    ensures lookups == |WantedLookups(indicators, providers)|
  {
    var pairs, positions := Deduplicate(indicators, providers);
    ghost var slots := Slots(indicators, providers);
    var uniqueResults := Naive(pairs, lookup);
    results := Scatter(positions, uniqueResults, failure);
    lookups := |pairs|;
    SpreadIsNaive(slots, pairs, positions, lookup);
    assert results == Naive(slots, lookup);
    NaiveIsPerSlot(indicators, providers, lookup);
    PairsAreCounted(slots, pairs, positions);
    WantedAreIdentities(indicators, providers);
  }

  lemma NaiveIsPerSlot<R>(indicators: seq<Indicator>, providers: seq<ProviderId>, lookup: (ProviderId, Indicator) -> R)
    ensures var results := Naive(Slots(indicators, providers), lookup);
            |results| == |indicators| * |providers|
            && forall i, j :: 0 <= i < |indicators| && 0 <= j < |providers| ==>
                 ResultAt(results, i, |providers|, j, lookup(providers[j], indicators[i]))
  {
    SlotCount(indicators, providers);
    forall i, j | 0 <= i < |indicators| && 0 <= j < |providers|
      ensures ResultAt(Naive(Slots(indicators, providers), lookup), i, |providers|, j, lookup(providers[j], indicators[i]))
    {
      SlotsFrom(indicators, providers, i, i * |providers|, j);
    }
  }

  lemma SpreadIsNaive<R>(slots: seq<Pair>, pairs: seq<Pair>, positions: seq<nat>, lookup: (ProviderId, Indicator) -> R)
    requires Deduplicated(slots, pairs, positions) && Canonical(lookup)
    ensures forall k :: 0 <= k < |slots| ==>
              positions[k] < |pairs| && Naive(pairs, lookup)[positions[k]] == lookup(slots[k].0, slots[k].1)
  {
    forall k | 0 <= k < |slots|
      ensures positions[k] < |pairs| && Naive(pairs, lookup)[positions[k]] == lookup(slots[k].0, slots[k].1)
    {
      SameLookupIff(pairs[positions[k]], slots[k]);
    }
  }

  lemma PairsAreCounted(slots: seq<Pair>, pairs: seq<Pair>, positions: seq<nat>)
    requires Deduplicated(slots, pairs, positions)
    ensures |pairs| == |Identities(slots)|
  {
    forall i, j | 0 <= i < j < |pairs| ensures IdentityOf(pairs[i]) != IdentityOf(pairs[j]) {
      PairsAreDistinct(slots, pairs, positions, i, j);
    }
    DistinctAreCounted(pairs);
    PairsCoverSlots(slots, pairs, positions);
  }
}
