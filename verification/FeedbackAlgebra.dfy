/**
 Laws of provider feedback: reports can be coalesced in any order and any grouping, applying one
 twice changes nothing, and coalescing errs towards less remaining allowance except in one case.
 */
module FeedbackAlgebra {
  import opened Basics
  import opened QuotaSpec

  lemma MergeCommutes(a: Feedback, b: Feedback)
    ensures MergeFeedback(a, b) == MergeFeedback(b, a)
  {
  }

  lemma MergeAssociates(a: Feedback, b: Feedback, c: Feedback)
    ensures MergeFeedback(MergeFeedback(a, b), c) == MergeFeedback(a, MergeFeedback(b, c))
  {
  }

  /** Merging a report with itself keeps it exactly when the report is well formed. */
  lemma MergeIdempotentIff(a: Feedback)
    ensures MergeFeedback(a, a) == a <==> a.WellFormed()
  {
  }

  /** The merged cooldown is the later of the two, so neither is forgotten. */
  lemma MergeKeepsCooldowns(a: Feedback, b: Feedback)
    ensures MergeFeedback(a, b).cooldown == LatestOf(a.cooldown, b.cooldown)
  {
  }

  /** Field by field: the later cooldown with its mark, the smaller count, the later reset. */
  lemma MergeFields(a: Feedback, b: Feedback)
    ensures var m := MergeFeedback(a, b);
            && (m.cooldown.Some? <==> a.cooldown.Some? || b.cooldown.Some?)
            && (a.cooldown.Some? ==> a.cooldown.value <= m.cooldown.value)
            && (b.cooldown.Some? ==> b.cooldown.value <= m.cooldown.value)
            && (m.unknownReset <==> (a.cooldown.Some? && m.cooldown == a.cooldown && a.unknownReset)
                                    || (b.cooldown.Some? && m.cooldown == b.cooldown && b.unknownReset))
            && (m.remaining.Some? <==> a.remaining.Some? || b.remaining.Some?)
            && (a.remaining.Some? ==> m.remaining.value <= a.remaining.value)
            && (b.remaining.Some? ==> m.remaining.value <= b.remaining.value)
            && (m.reset.Some? <==> a.reset.Some? || b.reset.Some?)
            && (a.reset.Some? ==> a.reset.value <= m.reset.value)
            && (b.reset.Some? ==> b.reset.value <= m.reset.value)
            && m.cooldown in [a.cooldown, b.cooldown] && m.remaining in [a.remaining, b.remaining]
            && m.reset in [a.reset, b.reset]
  {
  }

  /** Any number of reports waiting together. */
  function MergeAll(reports: seq<Feedback>): Feedback
    requires reports != []
  {
    if |reports| == 1 then reports[0]
    else MergeFeedback(MergeAll(reports[..|reports| - 1]), reports[|reports| - 1])
  }

  lemma {:induction false} MergeAllSplits(a: seq<Feedback>, b: seq<Feedback>)
    requires a != [] && b != []
    ensures MergeAll(a + b) == MergeFeedback(MergeAll(a), MergeAll(b))
  {
    var n := |b| - 1;
    assert (a + b)[..|a| + n] == a + b[..n];
    if n > 0 {
      MergeAllSplits(a, b[..n]);
      MergeAssociates(MergeAll(a), MergeAll(b[..n]), b[n]);
    } else {
      assert a + b[..0] == a;
    }
  }

  /** Two batches of reports arriving in either order wait as the same single report. */
  lemma BatchesCommute(a: seq<Feedback>, b: seq<Feedback>)
    requires a != [] && b != []
    ensures MergeAll(a + b) == MergeAll(b + a)
  {
    MergeAllSplits(a, b);
    MergeAllSplits(b, a);
    MergeCommutes(MergeAll(a), MergeAll(b));
  }

  lemma {:induction false} MergeAllWellFormed(reports: seq<Feedback>)
    requires reports != [] && forall i :: 0 <= i < |reports| ==> reports[i].WellFormed()
    ensures MergeAll(reports).WellFormed()
  {
    if |reports| > 1 {
      MergeAllWellFormed(reports[..|reports| - 1]);
    }
  }

  /** Well-formed reports that arrive again, after any others, leave what waits unchanged. */
  lemma DuplicatesAreAbsorbed(before: seq<Feedback>, again: seq<Feedback>, between: seq<Feedback>)
    requires before != [] && again != [] && forall i :: 0 <= i < |again| ==> again[i].WellFormed()
    ensures MergeAll(before + again + between + again) == MergeAll(before + again + between)
  {
    var x, y := MergeAll(before), MergeAll(again);
    MergeAllWellFormed(again);
    MergeIdempotentIff(y);
    MergeAllSplits(before, again);
    MergeAssociates(x, y, y);
    MergeAllSplits(before + again + between, again);
    if between == [] {
      assert before + again + between == before + again;
    } else {
      var z := MergeAll(between);
      MergeAllSplits(before + again, between);
      MergeAssociates(MergeFeedback(x, y), z, y);
      MergeCommutes(z, y);
      MergeAssociates(MergeFeedback(x, y), y, z);
    }
  }

  /** A report applied again at the same time changes nothing. */
  lemma ApplyIdempotent(q: Quota, f: Feedback, now: int, unobserved: nat)
    requires ApplyFeedback(q, f, now, unobserved).Ok?
    ensures var q1 := ApplyFeedback(q, f, now, unobserved).value;
            ApplyFeedback(q1, f, now, unobserved) == Ok(q1)
  {
  }

  /** `a` permits no more attempts than `b`; an absent count permits any number. */
  predicate NoMore(a: Option<nat>, b: Option<nat>) {
    b.None? || (a.Some? && a.value <= b.value)
  }

  predicate Storable(f: Feedback) {
    f.remaining.Some? ==> f.remaining.value <= I64_MAX
  }

  predicate AllStorable(reports: seq<Feedback>) {
    forall i :: 0 <= i < |reports| ==> Storable(reports[i])
  }

  /** A count without a reset time, merged with only reports whose windows have ended, is dropped as stale. */
  predicate StaleTaint(reports: seq<Feedback>, now: int)
    requires reports != []
  {
    MergeAll(reports).Stale(now)
    && exists i :: 0 <= i < |reports| && reports[i].reset.None? && reports[i].remaining.Some?
  }

  function OneByOne(q: Quota, reports: seq<Feedback>, now: int, unobserved: nat): Quota
    requires AllStorable(reports)
  {
    if reports == [] then q
    else
      var n := |reports| - 1;
      ApplyFeedback(OneByOne(q, reports[..n], now, unobserved), reports[n], now, unobserved).value
  }

  function Coalesced(q: Quota, reports: seq<Feedback>, now: int, unobserved: nat): Quota
    requires reports != [] && AllStorable(reports)
  {
    MergeAllBounds(reports);
    ApplyFeedback(q, MergeAll(reports), now, unobserved).value
  }

  /** The merged reset is no earlier, and the merged count no larger, than any report's. */
  lemma {:induction false} MergeAllBounds(reports: seq<Feedback>)
    requires reports != []
    ensures var m := MergeAll(reports);
            && (AllStorable(reports) ==> Storable(m))
            && forall i :: 0 <= i < |reports| ==>
                 && (reports[i].reset.Some? ==> m.reset.Some? && reports[i].reset.value <= m.reset.value)
                 && (reports[i].remaining.Some? ==> m.remaining.Some? && m.remaining.value <= reports[i].remaining.value)
  {
    if |reports| > 1 {
      var n := |reports| - 1;
      MergeAllBounds(reports[..n]);
      forall i | 0 <= i < n
        ensures reports[i].reset.Some? ==>
                  MergeAll(reports).reset.Some? && reports[i].reset.value <= MergeAll(reports).reset.value
        ensures reports[i].remaining.Some? ==>
                  MergeAll(reports).remaining.Some? && MergeAll(reports).remaining.value <= reports[i].remaining.value
      {
        assert reports[..n][i] == reports[i];
      }
    }
  }

  /** The count a report leaves, given the count that survived expiry. */
  function Lowered(left: Option<nat>, f: Feedback, now: int, unobserved: nat): Option<nat> {
    if f.Stale(now) then left else LowerRemaining(left, f.remaining, unobserved)
  }

  function LoweredEach(left: Option<nat>, reports: seq<Feedback>, now: int, unobserved: nat): Option<nat> {
    if reports == [] then left
    else
      var n := |reports| - 1;
      Lowered(LoweredEach(left, reports[..n], now, unobserved), reports[n], now, unobserved)
  }

  lemma ApplyLowers(q: Quota, f: Feedback, now: int, unobserved: nat)
    requires Storable(f)
    ensures var q1 := ApplyFeedback(q, f, now, unobserved).value;
            q1.remaining == Lowered(ExpireFeedback(q, now).remaining, f, now, unobserved)
            && ExpireFeedback(q1, now) == q1
  {
  }

  lemma {:induction false} OneByOneLowers(q: Quota, reports: seq<Feedback>, now: int, unobserved: nat)
    requires AllStorable(reports)
    ensures ExpireFeedback(OneByOne(q, reports, now, unobserved), now).remaining
            == LoweredEach(ExpireFeedback(q, now).remaining, reports, now, unobserved)
    ensures reports != [] ==> ExpireFeedback(OneByOne(q, reports, now, unobserved), now)
                              == OneByOne(q, reports, now, unobserved)
  {
    if reports != [] {
      var n := |reports| - 1;
      OneByOneLowers(q, reports[..n], now, unobserved);
      ApplyLowers(OneByOne(q, reports[..n], now, unobserved), reports[n], now, unobserved);
    }
  }

  /** Reports of at least `low` leave no less than one report of `low` would. */
  lemma {:induction false} EachLeavesAtLeast(left: Option<nat>, reports: seq<Feedback>, low: nat, now: int, unobserved: nat)
    requires forall i :: 0 <= i < |reports| && reports[i].remaining.Some? ==> low <= reports[i].remaining.value
    ensures NoMore(LowerRemaining(left, Some(low), unobserved), LoweredEach(left, reports, now, unobserved))
    ensures left.Some? ==> LoweredEach(left, reports, now, unobserved).Some?
  {
    if reports != [] {
      EachLeavesAtLeast(left, reports[..|reports| - 1], low, now, unobserved);
    }
  }

  lemma {:induction false} StaleOrEmptyChangesNothing(left: Option<nat>, reports: seq<Feedback>, now: int, unobserved: nat)
    requires forall i :: 0 <= i < |reports| ==> reports[i].Stale(now) || reports[i].remaining.None?
    ensures LoweredEach(left, reports, now, unobserved) == left
  {
    if reports != [] {
      StaleOrEmptyChangesNothing(left, reports[..|reports| - 1], now, unobserved);
    }
  }

  lemma {:induction false} OpenCountIsKept(left: Option<nat>, reports: seq<Feedback>, i: nat, now: int, unobserved: nat)
    requires i < |reports| && reports[i].remaining.Some? && !reports[i].Stale(now)
    ensures LoweredEach(left, reports, now, unobserved).Some?
  {
    var n := |reports| - 1;
    if i < n {
      OpenCountIsKept(left, reports[..n], i, now, unobserved);
    }
  }

  lemma CoalescingIsConservative(q: Quota, reports: seq<Feedback>, now: int, unobserved: nat)
    requires reports != [] && AllStorable(reports) && !StaleTaint(reports, now)
    ensures NoMore(Coalesced(q, reports, now, unobserved).remaining, OneByOne(q, reports, now, unobserved).remaining)
  {
    var left, m := ExpireFeedback(q, now).remaining, MergeAll(reports);
    MergeAllBounds(reports);
    ApplyLowers(q, m, now, unobserved);
    OneByOneLowers(q, reports, now, unobserved);
    if m.Stale(now) || m.remaining.None? {
      StaleOrEmptyChangesNothing(left, reports, now, unobserved);
    } else {
      EachLeavesAtLeast(left, reports, m.remaining.value, now, unobserved);
    }
  }

  /** Coalescing any reports never leaves more than applying them in turn, on every row, exactly without `StaleTaint`. */
  lemma CoalescingConservativeIff(reports: seq<Feedback>, now: int, unobserved: nat)
    requires reports != [] && AllStorable(reports)
    ensures (forall q :: NoMore(Coalesced(q, reports, now, unobserved).remaining,
                                OneByOne(q, reports, now, unobserved).remaining))
            <==> !StaleTaint(reports, now)
  {
    if StaleTaint(reports, now) {
      var q := Quota(0, 0, None, false, None, None);
      var i :| 0 <= i < |reports| && reports[i].reset.None? && reports[i].remaining.Some?;
      MergeAllBounds(reports);
      ApplyLowers(q, MergeAll(reports), now, unobserved);
      OneByOneLowers(q, reports, now, unobserved);
      OpenCountIsKept(None, reports, i, now, unobserved);
      assert Coalesced(q, reports, now, unobserved).remaining.None?;
      assert OneByOne(q, reports, now, unobserved).remaining.Some?;
    } else {
      forall q ensures NoMore(Coalesced(q, reports, now, unobserved).remaining,
                              OneByOne(q, reports, now, unobserved).remaining)
      {
        CoalescingIsConservative(q, reports, now, unobserved);
      }
    }
  }
}
