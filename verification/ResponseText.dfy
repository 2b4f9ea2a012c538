/** Reading the response text back: the members of an entry, the entries of an item, the items of the response. */
module ResponseText {
  import opened Basics
  import opened Serialization
  import opened Projection

  // ---- Characters ----

  /** The text of the structure is the text's own characters, which are all ASCII. */
  lemma AsciiIsText(text: string)
    requires forall i :: 0 <= i < |text| ==> text[i] as int < 128
    ensures |Ascii(text)| == |text| && forall i :: 0 <= i < |text| ==> Ascii(text)[i] as int == text[i] as int
  {
  }

  /** Different ASCII texts stay different. */
  lemma AsciiIsInjective(a: string, b: string)
    requires forall i :: 0 <= i < |a| ==> a[i] as int < 128
    requires forall i :: 0 <= i < |b| ==> b[i] as int < 128
    requires Ascii(a) == Ascii(b)
    ensures a == b
  {
    AsciiIsText(a);
    AsciiIsText(b);
    assert |a| == |b|;
    forall i | 0 <= i < |a| ensures a[i] == b[i] {
      assert Ascii(a)[i] == Ascii(b)[i];
    }
  }

  // ---- Lists ----

  /** Where part `k` of a joined list begins. */
  function Offset(parts: seq<Bytes>, k: nat): nat
    requires k <= |parts|
  {
    TotalSize(parts[..k]) + k
  }

  /** Each part of a joined list can be cut out again, and single commas stand between them. */
  lemma {:induction false} JoinedPartAt(parts: seq<Bytes>, k: nat)
    requires k < |parts|
    ensures Offset(parts, k) + |parts[k]| <= |Join(parts)|
    ensures Join(parts)[Offset(parts, k)..Offset(parts, k) + |parts[k]|] == parts[k]
    ensures k > 0 ==> Join(parts)[Offset(parts, k) - 1] as int == ',' as int
    ensures k == |parts| - 1 ==> Offset(parts, k) + |parts[k]| == |Join(parts)|
  {
    var n := |parts| - 1;
    if n == 0 {
      assert parts[..0] == [];
    } else {
      var front := parts[..n];
      var comma := Ascii(",");
      JoinSize(front);
      assert Join(parts) == Join(front) + comma + parts[n];
      assert parts[..k] == front[..k] == parts[..n][..k];
      if k < n {
        JoinedPartAt(front, k);
        assert Join(parts)[..|Join(front)|] == Join(front);
        assert Join(parts)[Offset(parts, k)..Offset(parts, k) + |parts[k]|]
               == Join(front)[Offset(front, k)..Offset(front, k) + |front[k]|];
      }
    }
  }

  // ---- An entry ----

  /** The value of the member named `name` that is all of `tail` up to the closing brace. */
  function ReadMember(name: Bytes, tail: Bytes): Option<Bytes> {
    var before, close := Ascii(",") + name + Ascii(":"), Ascii("}");
    if |tail| > |before| && tail[..|before|] == before && tail[|tail| - 1..] == close
    then Some(tail[|before|..|tail| - 1]) else None
  }

  /** What is read after the fields before `raw`: the raw report, or why it is left out, or neither. */
  function ReadTail(tail: Bytes): Option<(Option<Bytes>, Option<OmittedReason>)> {
    var raw, reason := ReadMember(Ascii("\"raw\""), tail), ReadMember(Ascii("\"raw_omitted_reason\""), tail);
    if tail == Ascii("}") then Some((None, None))
    else if raw.Some? then Some((raw, None))
    else if reason == Some(Ascii("\"response_size_limit\"")) then Some((None, Some(ResponseSizeLimit)))
    else if reason == Some(Ascii("\"not_available\"")) then Some((None, Some(NotAvailable)))
    else None
  }

  function Opening(members: seq<Bytes>): Bytes {
    Ascii("{") + Join(members)
  }

  /** An entry opens with its fields in order, and the rest tells exactly its raw report or the reason for none. */
  lemma EntryReadsBack(e: Entry)
    requires e.members != [] && (e.raw.None? || e.omitted.None?)
    ensures Opening(e.members) <= RenderEntry(e)
    ensures ReadTail(RenderEntry(e)[|Opening(e.members)|..]) == Some((e.raw, e.omitted))
  {
    var open := Opening(e.members);
    if e.raw.Some? {
      assert e.members + RawMember(e.raw) + OmittedMember(None) == e.members + RawMember(e.raw);
      OneMoreMember(e, RawMember(e.raw)[0]);
      RawTail(e.raw.value);
    } else if e.omitted.Some? {
      assert e.members + RawMember(None) + OmittedMember(e.omitted) == e.members + OmittedMember(e.omitted);
      OneMoreMember(e, OmittedMember(e.omitted)[0]);
      OmittedTail(e.omitted.value);
    } else {
      assert e.members + RawMember(None) + OmittedMember(None) == e.members;
      assert RenderEntry(e) == open + Ascii("}");
      assert RenderEntry(e)[|open|..] == Ascii("}");
    }
  }

  /** What follows the fields when there is one more member. */
  function Tail(member: Bytes): Bytes {
    Ascii(",") + member + Ascii("}")
  }

  lemma OneMoreMember(e: Entry, member: Bytes)
    requires e.members != [] && e.members + RawMember(e.raw) + OmittedMember(e.omitted) == e.members + [member]
    ensures RenderEntry(e) == Opening(e.members) + Tail(member)
    ensures RenderEntry(e)[|Opening(e.members)|..] == Tail(member)
  {
    var all := e.members + [member];
    assert all[..|e.members|] == e.members;
  }

  lemma MemberReadsBack(name: Bytes, value: Bytes)
    ensures ReadMember(name, Tail(name + Ascii(":") + value)) == Some(value)
  {
    var before, tail := Ascii(",") + name + Ascii(":"), Tail(name + Ascii(":") + value);
    assert tail == before + value + Ascii("}");
    assert tail[..|before|] == before && tail[|before|..|tail| - 1] == value && tail[|tail| - 1..] == Ascii("}");
  }

  lemma RawTail(raw: Bytes)
    ensures ReadTail(Tail(RawMember(Some(raw))[0])) == Some((Some(raw), None))
  {
    var name := Ascii("\"raw\"");
    assert Ascii("\"raw\":") == name + Ascii(":");
    MemberReadsBack(name, raw);
  }

  lemma OmittedTail(reason: OmittedReason)
    ensures ReadTail(Tail(OmittedMember(Some(reason))[0])) == Some((None, Some(reason)))
  {
    var name := Ascii("\"raw_omitted_reason\"");
    assert Ascii("\"raw_omitted_reason\":") == name + Ascii(":");
    var value := if reason == NotAvailable then Ascii("\"not_available\"") else Ascii("\"response_size_limit\"");
    MemberReadsBack(name, value);
    NotRaw(value);
    assert |Ascii("\"not_available\"")| != |Ascii("\"response_size_limit\"")|;
  }

  /** The reason's name is told from the raw report's by its fifth character. */
  lemma NotRaw(value: Bytes)
    ensures ReadMember(Ascii("\"raw\""), Tail(Ascii("\"raw_omitted_reason\"") + Ascii(":") + value)) == None
  {
    var name, other := "\"raw\"", "\"raw_omitted_reason\"";
    var tail := Tail(Ascii(other) + Ascii(":") + value);
    var before := Ascii(",") + Ascii(name) + Ascii(":");
    assert name[4] == '\"' && other[4] == '_';
    assert before[5] == Ascii(name)[4] && tail[5] == Ascii(other)[4];
  }

  /** The entries that a projection writes are of that form, so every slot's choice can be read from the text. */
  lemma PlannedEntryReadsBack(slots: seq<Slot>, k: nat, includeRaw: bool, budget: nat)
    requires k < |slots| && slots[k].members != []
    ensures var text := RenderEntry(Entries(slots, includeRaw, budget)[k]);
            var open := Opening(slots[k].members);
            && open <= text
            && ReadTail(text[|open|..]) ==
               Some(if !includeRaw then (None, None)
                    else if slots[k].raw.None? then (None, Some(NotAvailable))
                    else if |slots[k].raw.value| <= Left(slots[..k], budget) then (slots[k].raw, None)
                    else (None, Some(ResponseSizeLimit)))
  {
    EntryReadsBack(Entries(slots, includeRaw, budget)[k]);
  }

  // ---- Items and the response ----

  /** The entries of item `i` are the `width` from position `i * width` on. */
  lemma {:induction false} GroupAt(count: nat, width: nat, entries: seq<Entry>, i: nat, start: nat)
    requires |entries| == count * width && i < count && start == i * width
    ensures start + width <= |entries| && Groups(count, width, entries)[i] == entries[start..start + width]
  {
    var k := |entries| - width;
    LastStarts(count, width);
    if i < count - 1 {
      GroupAt(count - 1, width, entries[..k], i, start);
      assert entries[..k][start..start + width] == entries[start..start + width];
    } else {
      assert entries[k..] == entries[k..k + width];
    }
  }

  /** So item `i` of a response has its own head and the entries of its own slots, in order. */
  lemma ItemAt(v: Envelope, i: nat, start: nat)
    requires v.Valid() && i < |v.heads| && start == i * v.width
    ensures start + v.width <= |v.entries|
    ensures v.Items()[i] == RenderItem(v.heads[i], v.entries[start..start + v.width])
  {
    GroupAt(|v.heads|, v.width, v.entries, i, start);
    assert Groups(|v.heads|, v.width, v.entries)[i] == v.entries[start..start + v.width];
  }

  /** An item is its head and, between the brackets of `providers`, its entries. */
  lemma ItemReadsBack(head: Bytes, entries: seq<Entry>)
    ensures var open := Ascii("{") + head + Ascii(",\"providers\":[");
            var text := RenderItem(head, entries);
            && |open| + 2 <= |text| && open <= text && text[|text| - 2..] == Ascii("]}")
            && text[|open|..|text| - 2] == Join(RenderEntries(entries))
  {
  }

  /** The response is its request's id and, between the brackets of `results`, its items. */
  lemma ResponseReadsBack(v: Envelope)
    requires v.Valid()
    ensures var open := Ascii("{") + v.requestId + Ascii(",\"results\":[");
            var text := Render(v);
            && |open| + 2 <= |text| && open <= text && text[|text| - 2..] == Ascii("]}")
            && text[|open|..|text| - 2] == Join(v.Items())
  {
  }
}
