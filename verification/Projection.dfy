/**
 Projecting lookup results onto the response: compact JSON, a greedy budget for raw reports, and two
 serializations, the first to measure the envelope without raw reports and the second to write it.
 */
module Projection {
  import opened Basics
  import opened Serialization

  const ENVELOPE_LIMIT: nat := 1024 * 1024

  /** What a lookup contributes to one slot: its rendered members, and its rendered raw report if it has one. */
  datatype Slot = Slot(members: seq<Bytes>, raw: Option<Bytes>)

  datatype OmittedReason = ResponseSizeLimit | NotAvailable

  /** A provider entry of the response; `members` are the fields before `raw`. */
  datatype Entry = Entry(members: seq<Bytes>, raw: Option<Bytes>, omitted: Option<OmittedReason>)

  /** `heads` holds the fields before `providers` of each indicator; entries are in slot order, `width` per indicator. */
  datatype Envelope = Envelope(requestId: Bytes, heads: seq<Bytes>, width: nat, entries: seq<Entry>) {
    predicate Valid() {
      |entries| == |heads| * width && forall e :: e in entries ==> e.members != []
    }

    function Items(): seq<Bytes> {
      RenderItems(heads, Groups(|heads|, width, entries))
    }
  }

  datatype ProjectError = InternalError | ResponseTooLarge

  // ---- Compact JSON ----

  function Ascii(text: string): (r: Bytes)
    ensures |r| == |text|
  {
    seq(|text|, i requires 0 <= i < |text| => (text[i] as int % 256) as Byte)
  }

  /** Values separated by commas. */
  function Join(parts: seq<Bytes>): Bytes {
    if parts == [] then [] else if |parts| == 1 then parts[0]
    else Join(parts[..|parts| - 1]) + Ascii(",") + parts[|parts| - 1]
  }

  function RawMember(raw: Option<Bytes>): seq<Bytes> {
    if raw.None? then [] else [Ascii("\"raw\":") + raw.value]
  }

  function OmittedMember(reason: Option<OmittedReason>): seq<Bytes> {
    match reason
    case None => []
    case Some(ResponseSizeLimit) => [Ascii("\"raw_omitted_reason\":") + Ascii("\"response_size_limit\"")]
    case Some(NotAvailable) => [Ascii("\"raw_omitted_reason\":") + Ascii("\"not_available\"")]
  }

  function RenderEntry(e: Entry): Bytes {
    Ascii("{") + Join(e.members + RawMember(e.raw) + OmittedMember(e.omitted)) + Ascii("}")
  }

  function RenderEntries(entries: seq<Entry>): seq<Bytes> {
    seq(|entries|, i requires 0 <= i < |entries| => RenderEntry(entries[i]))
  }

  function RenderItem(head: Bytes, entries: seq<Entry>): Bytes {
    Ascii("{") + head + Ascii(",\"providers\":[") + Join(RenderEntries(entries)) + Ascii("]}")
  }

  /** The entries of each item, `width` to an item. */
  function Groups(count: nat, width: nat, entries: seq<Entry>): (groups: seq<seq<Entry>>)
    ensures |groups| == count
  {
    if count == 0 then []
    else
      var k := SaturatingSub(|entries|, width);
      Groups(count - 1, width, entries[..k]) + [entries[k..]]
  }

  function RenderItems(heads: seq<Bytes>, groups: seq<seq<Entry>>): (items: seq<Bytes>)
    requires |heads| == |groups|
  {
    seq(|heads|, i requires 0 <= i < |heads| => RenderItem(heads[i], groups[i]))
  }

  function Render(v: Envelope): Bytes
    requires v.Valid()
  {
    Ascii("{") + v.requestId + Ascii(",\"results\":[") + Join(v.Items()) + Ascii("]}")
  }

  // ---- What a raw report costs ----

  function Strip(entries: seq<Entry>): (r: seq<Entry>)
    ensures |r| == |entries|
    ensures forall i :: 0 <= i < |r| ==> r[i] == entries[i].(raw := None)
  {
    seq(|entries|, i requires 0 <= i < |entries| => entries[i].(raw := None))
  }

  function RawBytes(entries: seq<Entry>): nat {
    if entries == [] then 0
    else
      var last := entries[|entries| - 1].raw;
      RawBytes(entries[..|entries| - 1]) + (if last.Some? then |last.value| else 0)
  }

  function RawCount(entries: seq<Entry>): nat {
    if entries == [] then 0
    else RawCount(entries[..|entries| - 1]) + (if entries[|entries| - 1].raw.Some? then 1 else 0)
  }

  function TotalSize(parts: seq<Bytes>): nat {
    if parts == [] then 0 else TotalSize(parts[..|parts| - 1]) + |parts[|parts| - 1]|
  }

  lemma {:induction false} JoinSize(parts: seq<Bytes>)
    ensures |Join(parts)| == TotalSize(parts) + (if parts == [] then 0 else |parts| - 1)
  {
    if |parts| > 1 {
      JoinSize(parts[..|parts| - 1]);
    } else if |parts| == 1 {
      assert parts[..0] == [];
    }
  }

  lemma {:induction false} TotalSizeOfAppend(a: seq<Bytes>, b: seq<Bytes>)
    ensures TotalSize(a + b) == TotalSize(a) + TotalSize(b)
  {
    if b == [] {
      assert a + b == a;
    } else {
      assert (a + b)[..|a + b| - 1] == a + b[..|b| - 1];
      TotalSizeOfAppend(a, b[..|b| - 1]);
    }
  }

  /** An included raw report adds its own size and the seven bytes `,"raw":` to its entry. */
  lemma RawCostsSevenMore(e: Entry)
    requires e.members != [] && e.raw.Some?
    ensures |RenderEntry(e)| == |RenderEntry(e.(raw := None))| + |e.raw.value| + 7
  {
    var omitted := OmittedMember(e.omitted);
    var plain := e.members + RawMember(None) + omitted;
    var full := e.members + RawMember(e.raw) + omitted;
    JoinSize(plain);
    JoinSize(full);
    TotalSizeOfAppend(e.members + RawMember(e.raw), omitted);
    TotalSizeOfAppend(e.members, RawMember(e.raw));
    TotalSizeOfAppend(e.members + RawMember(None), omitted);
    TotalSizeOfAppend(e.members, RawMember(None));
    assert RawMember(e.raw)[..0] == [];
    assert TotalSize(RawMember(e.raw)) == |e.raw.value| + 6;
  }

  /** Two renderings of the same entries, one without raw reports, differ by exactly the raw cost. */
  lemma {:induction false} EntriesCost(entries: seq<Entry>)
    requires forall e :: e in entries ==> e.members != []
    ensures TotalSize(RenderEntries(entries))
            == TotalSize(RenderEntries(Strip(entries))) + RawBytes(entries) + 7 * RawCount(entries)
  {
    if entries != [] {
      var n := |entries| - 1;
      assert RenderEntries(entries)[..n] == RenderEntries(entries[..n]);
      assert RenderEntries(Strip(entries))[..n] == RenderEntries(Strip(entries[..n]));
      EntriesCost(entries[..n]);
      assert entries[n] in entries;
      if entries[n].raw.Some? {
        RawCostsSevenMore(entries[n]);
      } else {
        assert entries[n].(raw := None) == entries[n];
      }
    }
  }

  lemma {:induction false} CostsOfAppend(a: seq<Entry>, b: seq<Entry>)
    ensures RawBytes(a + b) == RawBytes(a) + RawBytes(b) && RawCount(a + b) == RawCount(a) + RawCount(b)
  {
    if b == [] {
      assert a + b == a;
    } else {
      assert (a + b)[..|a + b| - 1] == a + b[..|b| - 1];
      CostsOfAppend(a, b[..|b| - 1]);
    }
  }

  lemma ItemCost(head: Bytes, entries: seq<Entry>)
    requires forall e :: e in entries ==> e.members != []
    ensures |RenderItem(head, entries)| == |RenderItem(head, Strip(entries))| + RawBytes(entries) + 7 * RawCount(entries)
  {
    EntriesCost(entries);
    JoinSize(RenderEntries(entries));
    JoinSize(RenderEntries(Strip(entries)));
  }

  lemma {:induction false} ItemsCost(heads: seq<Bytes>, width: nat, entries: seq<Entry>)
    requires |entries| == |heads| * width && forall e :: e in entries ==> e.members != []
    ensures TotalSize(RenderItems(heads, Groups(|heads|, width, entries)))
            == TotalSize(RenderItems(heads, Groups(|heads|, width, Strip(entries))))
               + RawBytes(entries) + 7 * RawCount(entries)
  {
    if heads != [] {
      var n, k := |heads| - 1, |entries| - width;
      LastStarts(|heads|, width);
      var front, back := entries[..k], entries[k..];
      assert |front| == n * width;
      ItemsCost(heads[..n], width, front);
      ItemCost(heads[n], back);
      SplitAt(entries, k);
      SplitStrip(entries, k);
      LastItemSize(heads, width, entries, k);
      LastItemSize(heads, width, Strip(entries), k);
    }
  }

  lemma LastItemSize(heads: seq<Bytes>, width: nat, entries: seq<Entry>, k: nat)
    requires heads != [] && k == SaturatingSub(|entries|, width)
    ensures var n := |heads| - 1;
            TotalSize(RenderItems(heads, Groups(|heads|, width, entries)))
            == TotalSize(RenderItems(heads[..n], Groups(n, width, entries[..k]))) + |RenderItem(heads[n], entries[k..])|
  {
    var n := |heads| - 1;
    var groups := Groups(|heads|, width, entries);
    assert groups[..n] == Groups(n, width, entries[..k]) && groups[n] == entries[k..];
    ItemsSize(heads, groups);
  }

  lemma ItemsSize(heads: seq<Bytes>, groups: seq<seq<Entry>>)
    requires |heads| == |groups| > 0
    ensures var n := |heads| - 1;
            TotalSize(RenderItems(heads, groups))
            == TotalSize(RenderItems(heads[..n], groups[..n])) + |RenderItem(heads[n], groups[n])|
  {
    var n := |heads| - 1;
    assert RenderItems(heads, groups)[..n] == RenderItems(heads[..n], groups[..n]);
  }

  lemma LastStarts(count: nat, width: nat)
    requires count > 0
    ensures count * width == (count - 1) * width + width && (count - 1) * width >= 0
  {
  }

  lemma SplitAt(entries: seq<Entry>, k: nat)
    requires k <= |entries|
    ensures RawBytes(entries) == RawBytes(entries[..k]) + RawBytes(entries[k..])
    ensures RawCount(entries) == RawCount(entries[..k]) + RawCount(entries[k..])
  {
    var front, back := entries[..k], entries[k..];
    assert entries == front + back;
    CostsOfAppend(front, back);
  }

  lemma SplitStrip(entries: seq<Entry>, k: nat)
    requires k <= |entries|
    ensures Strip(entries)[..k] == Strip(entries[..k]) && Strip(entries)[k..] == Strip(entries[k..])
  {
  }

  lemma EnvelopeCost(v: Envelope)
    requires v.Valid()
    ensures v.(entries := Strip(v.entries)).Valid()
    ensures |Render(v)| == |Render(v.(entries := Strip(v.entries)))| + RawBytes(v.entries) + 7 * RawCount(v.entries)
  {
    ItemsCost(v.heads, v.width, v.entries);
    JoinSize(v.Items());
    JoinSize(v.(entries := Strip(v.entries)).Items());
  }

  // ---- The raw budget ----

  /** The budget left after the slots so far: each available report is taken if it still fits. */
  function Left(slots: seq<Slot>, budget: nat): nat {
    if slots == [] then budget
    else
      var left := Left(slots[..|slots| - 1], budget);
      var raw := slots[|slots| - 1].raw;
      if raw.Some? && |raw.value| <= left then left - |raw.value| else left
  }

  /** The entry of slot `k`: its report is included exactly when it fits what the slots before it left. */
  function EntryOf(slots: seq<Slot>, k: nat, includeRaw: bool, budget: nat): Entry
    requires k < |slots|
  {
    var s := slots[k];
    if !includeRaw then Entry(s.members, None, None)
    else if s.raw.None? then Entry(s.members, None, Some(NotAvailable))
    else if |s.raw.value| <= Left(slots[..k], budget) then Entry(s.members, s.raw, None)
    else Entry(s.members, None, Some(ResponseSizeLimit))
  }

  function Entries(slots: seq<Slot>, includeRaw: bool, budget: nat): (r: seq<Entry>)
    ensures |r| == |slots|
    ensures forall k :: 0 <= k < |r| ==> r[k] == EntryOf(slots, k, includeRaw, budget)
  {
    seq(|slots|, k requires 0 <= k < |slots| => EntryOf(slots, k, includeRaw, budget))
  }

  /** The included reports add up to exactly what was taken from the budget. */
  lemma {:induction false} IncludedWithinBudget(slots: seq<Slot>, includeRaw: bool, budget: nat)
    ensures RawBytes(Entries(slots, includeRaw, budget)) + (if includeRaw then Left(slots, budget) else budget) == budget
  {
    if slots != [] {
      var n := |slots| - 1;
      IncludedWithinBudget(slots[..n], includeRaw, budget);
      var all := Entries(slots, includeRaw, budget);
      assert all[..n] == Entries(slots[..n], includeRaw, budget) by {
        forall k | 0 <= k < n ensures all[k] == EntryOf(slots[..n], k, includeRaw, budget) {
          assert slots[..n][..k] == slots[..k];
        }
      }
    }
  }

  // ---- Projection ----

  /** The response `project` intends, from one slot per indicator and provider. */
  function Intended(requestId: Bytes, heads: seq<Bytes>, width: nat, slots: seq<Slot>, includeRaw: bool, budget: nat)
    : Envelope
  {
    Envelope(requestId, heads, width, Entries(slots, includeRaw, budget))
  }

  /** How a serializer cuts its output into buffers is its own affair. */
  ghost predicate Emits(chunks: seq<Bytes>, text: Bytes) {
    Flatten(chunks) == text
  }

  method Cut(text: Bytes) returns (chunks: seq<Bytes>)
    ensures Emits(chunks, text)
  {
    chunks := [text];
    assert chunks[..0] == [];
  }

  /** The state of the first pass after `next` slots: entries without raw reports, and the reports aside. */
  ghost predicate Collected(slots: seq<Slot>, includeRaw: bool, budget: nat, next: nat,
                            entries: seq<Entry>, raws: seq<Option<Bytes>>, selected: nat, remaining: nat)
  {
    next <= |slots|
    && var plan := Entries(slots[..next], includeRaw, budget);
       entries == Strip(plan) && raws == Raws(plan) && selected == RawCount(plan)
       && remaining == if includeRaw then Left(slots[..next], budget) else budget
  }

  /** The choice for one slot, measuring its report with a counting writer. */
  method ChooseRaw(slot: Slot, includeRaw: bool, remaining: nat)
    returns (raw: Option<Bytes>, reason: Option<OmittedReason>, left: nat)
    requires slot.raw.Some? ==> |slot.raw.value| <= USIZE_MAX
    ensures raw == if includeRaw && slot.raw.Some? && |slot.raw.value| <= remaining then slot.raw else None
    ensures left == if raw.Some? then remaining - |raw.value| else remaining
    ensures reason == if !includeRaw || raw.Some? then None
                      else if slot.raw.None? then Some(NotAvailable) else Some(ResponseSizeLimit)
  {
    raw, reason, left := None, None, remaining;
    if includeRaw {
      if slot.raw.Some? {
        var counter := new CountingWriter();
        var chunks := Cut(slot.raw.value);
        var ok := counter.Serialize(chunks);
        if counter.count <= remaining {
          left := remaining - counter.count;
          raw := slot.raw;
        } else {
          reason := Some(ResponseSizeLimit);
        }
      } else {
        reason := Some(NotAvailable);
      }
    }
  }

  /** The first pass: indicators in order, providers in order, one outcome each. */
  method Collect(count: nat, width: nat, outcomes: seq<Slot>, includeRaw: bool, budget: nat)
    returns (ok: bool, entries: seq<Entry>, raws: seq<Option<Bytes>>, selected: nat)
    requires forall s :: s in outcomes ==> (s.raw.Some? ==> |s.raw.value| <= USIZE_MAX)
    ensures ok <==> |outcomes| >= count * width
    ensures ok ==> exists left :: Collected(outcomes, includeRaw, budget, count * width, entries, raws, selected, left)
  {
    var remaining, next := budget, 0;
    entries, raws, selected := [], [], 0;
    for index := 0 to count
      invariant next == index * width
      invariant Collected(outcomes, includeRaw, budget, next, entries, raws, selected, remaining)
    {
      for provider := 0 to width
        invariant next == index * width + provider
        invariant Collected(outcomes, includeRaw, budget, next, entries, raws, selected, remaining)
      {
        if next == |outcomes| {
          SlotsBelowTotal(index, provider, count, width);
          return false, entries, raws, selected;
        }
        var slot := outcomes[next];
        assert slot in outcomes;
        var raw, reason, left := ChooseRaw(slot, includeRaw, remaining);
        CollectedGrows(outcomes, includeRaw, budget, next, entries, raws, selected, remaining, raw, reason, left);
        raws := raws + [raw];
        entries := entries + [Entry(slot.members, None, reason)];
        selected := selected + if raw.Some? then 1 else 0;
        remaining, next := left, next + 1;
      }
      assert index * width + width == (index + 1) * width;
    }
    ok := true;
  }

  lemma CollectedGrows(slots: seq<Slot>, includeRaw: bool, budget: nat, next: nat, entries: seq<Entry>,
                       raws: seq<Option<Bytes>>, selected: nat, remaining: nat,
                       raw: Option<Bytes>, reason: Option<OmittedReason>, left: nat)
    requires Collected(slots, includeRaw, budget, next, entries, raws, selected, remaining) && next < |slots|
    requires raw == if includeRaw && slots[next].raw.Some? && |slots[next].raw.value| <= remaining
                    then slots[next].raw else None
    requires left == if raw.Some? then remaining - |raw.value| else remaining
    requires reason == if !includeRaw || raw.Some? then None
                       else if slots[next].raw.None? then Some(NotAvailable) else Some(ResponseSizeLimit)
    ensures Collected(slots, includeRaw, budget, next + 1, entries + [Entry(slots[next].members, None, reason)],
                      raws + [raw], selected + (if raw.Some? then 1 else 0), left)
  {
    var plan := Entries(slots[..next], includeRaw, budget);
    var more := Entries(slots[..next + 1], includeRaw, budget);
    assert slots[..next + 1][..next] == slots[..next];
    PlanPrefix(slots[..next + 1], next, includeRaw, budget);
    assert more[..next] == plan;
    assert more[next] == Entry(slots[next].members, raw, reason);
    assert Strip(more) == Strip(plan) + [more[next].(raw := None)];
    assert Raws(more) == Raws(plan) + [raw];
  }

  /**
   Builds the response. It fails only when outcomes are missing or the envelope, with the structural
   bytes of its raw reports, passes its limit; never in the final write. Its output is the intended
   response and stays within the envelope limit plus the raw budget.
   */
  method Project(requestId: Bytes, heads: seq<Bytes>, width: nat, outcomes: seq<Slot>, includeRaw: bool, budget: nat)
    returns (r: Result<Bytes, ProjectError>)
    requires ENVELOPE_LIMIT + budget <= USIZE_MAX
    requires forall s :: s in outcomes ==> s.members != [] && (s.raw.Some? ==> |s.raw.value| <= USIZE_MAX)
    ensures r == Err(InternalError) <==> |outcomes| < |heads| * width
    ensures |outcomes| >= |heads| * width ==>
              var v := Intended(requestId, heads, width, outcomes[..|heads| * width], includeRaw, budget);
              v.Valid()
              && (r.Ok? <==> |Render(v.(entries := Strip(v.entries)))| + 7 * RawCount(v.entries) <= 1_048_576)
              && (r.Ok? ==> r.value == Render(v))
    ensures r.Ok? ==> |r.value| <= 1_048_576 + budget
  {
    var ok, entries, raws, selected := Collect(|heads|, width, outcomes, includeRaw, budget);
    if !ok {
      return Err(InternalError);
    }
    ghost var slots := outcomes[..|heads| * width];
    ghost var v := Intended(requestId, heads, width, slots, includeRaw, budget);
    EnvelopeCost(v);
    IncludedWithinBudget(slots, includeRaw, budget);
    var envelope := Envelope(requestId, heads, width, entries);
    assert envelope == v.(entries := Strip(v.entries));
    var counter := new CountingWriter();
    var chunks := Cut(Render(envelope));
    ok := counter.Serialize(chunks);
    if !ok || counter.count + selected * 7 > ENVELOPE_LIMIT {
      return Err(ResponseTooLarge);
    }
    entries := PatchRaw(entries, raws);
    StripAndRawsDetermine(entries, v.entries);
    envelope := envelope.(entries := entries);
    var writer := new LimitedWriter(ENVELOPE_LIMIT + budget);
    chunks := Cut(Render(envelope));
    ok := writer.Serialize(chunks);
    assert ok;
    r := Ok(writer.bytes);
  }

  function Raws(entries: seq<Entry>): (r: seq<Option<Bytes>>)
    ensures |r| == |entries|
    ensures forall i :: 0 <= i < |r| ==> r[i] == entries[i].raw
  {
    seq(|entries|, i requires 0 <= i < |entries| => entries[i].raw)
  }

  lemma StripAndRawsDetermine(a: seq<Entry>, b: seq<Entry>)
    requires Strip(a) == Strip(b) && Raws(a) == Raws(b)
    ensures a == b
  {
    assert |a| == |b|;
    forall i | 0 <= i < |a| ensures a[i] == b[i] {
      assert Strip(a)[i] == Strip(b)[i] && Raws(a)[i] == Raws(b)[i];
    }
  }

  lemma PlanPrefix(slots: seq<Slot>, k: nat, includeRaw: bool, budget: nat)
    requires k <= |slots|
    ensures Entries(slots[..k], includeRaw, budget) == Entries(slots, includeRaw, budget)[..k]
  {
    forall i | 0 <= i < k ensures EntryOf(slots[..k], i, includeRaw, budget) == EntryOf(slots, i, includeRaw, budget) {
      assert slots[..k][..i] == slots[..i];
    }
  }

  lemma SlotsBelowTotal(i: nat, j: nat, n: nat, width: nat)
    requires i < n && j < width
    ensures i * width + j < n * width
  {
    assert (i + 1) * width <= n * width;
    assert (i + 1) * width == i * width + width;
  }

  /** Puts each raw value into its entry, in order. */
  method PatchRaw(entries: seq<Entry>, raws: seq<Option<Bytes>>) returns (patched: seq<Entry>)
    requires |entries| == |raws|
    ensures Strip(patched) == Strip(entries) && Raws(patched) == raws
  {
    patched := entries;
    for i := 0 to |raws|
      invariant |patched| == |entries|
      invariant forall k :: 0 <= k < |entries| ==>
                  patched[k] == if k < i then entries[k].(raw := raws[k]) else entries[k]
    {
      patched := patched[i := patched[i].(raw := raws[i])];
    }
  }
}
