/** Request validation is all or nothing: it accepts exactly the wholly valid requests, and drops no item. */
module DomainProofs {
  import opened Basics
  import opened Domain

  // ---- Paths ----

  /** Both replacements together escape character by character. */
  lemma {:induction false} EscapeStep(field: string)
    requires field != []
    ensures Escape(field) ==
            (if field[0] == '~' then "~0" else if field[0] == '/' then "~1" else [field[0]]) + Escape(field[1..])
  {
    var head := if field[0] == '~' then "~0" else [field[0]];
    var rest := Replace(field[1..], '~', "~0");
    assert Replace(field, '~', "~0") == head + rest;
    ReplaceOfAppend(head, rest, '/', "~1");
    if field[0] == '~' {
      assert "~0"[1..] == "0" && "0"[1..] == "";
      assert Replace("0", '/', "~1") == "0";
      assert Replace("~0", '/', "~1") == "~0";
    } else {
      assert [field[0]][1..] == [];
      assert Replace([field[0]], '/', "~1") == if field[0] == '/' then "~1" else [field[0]];
    }
  }

  lemma {:induction false} ReplaceOfAppend(a: string, b: string, c: char, text: string)
    ensures Replace(a + b, c, text) == Replace(a, c, text) + Replace(b, c, text)
  {
    if a == [] {
      assert a + b == b;
    } else {
      ReplaceOfAppend(a[1..], b, c, text);
      var head := if a[0] == c then text else [a[0]];
      var ra, rb := Replace(a[1..], c, text), Replace(b, c, text);
      assert (a + b)[0] == a[0] && (a + b)[1..] == a[1..] + b;
      assert Replace(a + b, c, text) == head + (ra + rb);
      assert head + (ra + rb) == (head + ra) + rb;
    }
  }

  /** An escaped field name can be read back, so different fields never share a path. */
  lemma {:induction false} UnescapeReversesEscape(field: string)
    ensures Unescape(Escape(field)) == field
  {
    if field != [] {
      EscapeStep(field);
      UnescapeReversesEscape(field[1..]);
      var rest := Escape(field[1..]);
      if field[0] == '~' {
        assert ("~0" + rest)[2..] == rest;
      } else if field[0] == '/' {
        assert ("~1" + rest)[2..] == rest;
      } else {
        assert ([field[0]] + rest)[1..] == rest;
      }
      assert field == [field[0]] + field[1..];
    }
  }

  lemma {:induction false} EscapedHasNoSlash(field: string)
    ensures '/' !in Escape(field)
  {
    if field != [] {
      EscapeStep(field);
      EscapedHasNoSlash(field[1..]);
    }
  }

  /** A path's last slash tells its parent and its field apart. */
  lemma PointerIsInjective(p: string, a: string, q: string, b: string)
    requires Pointer(p, a) == Pointer(q, b)
    ensures p == q && a == b
  {
    var path := Pointer(p, a);
    assert path[|p|] == '/' && path[|q|] == '/';
    assert path[|p| + 1..] == Escape(a) && path[|q| + 1..] == Escape(b);
    if |p| < |q| {
      assert Escape(a)[|q| - |p| - 1] == '/';
      EscapedHasNoSlash(a);
      assert false;
    } else if |q| < |p| {
      assert Escape(b)[|p| - |q| - 1] == '/';
      EscapedHasNoSlash(b);
      assert false;
    }
    assert p == path[..|p|] && q == path[..|q|];
    UnescapeReversesEscape(a);
    UnescapeReversesEscape(b);
  }

  /** Different places in a request never share an error path, however deep and under whatever parents. */
  lemma {:induction false} PathsAreDistinct(a: seq<string>, b: seq<string>)
    requires PathOf(a) == PathOf(b)
    ensures a == b
  {
    if a != [] && b != [] {
      var m, n := |a| - 1, |b| - 1;
      PointerIsInjective(PathOf(a[..m]), a[m], PathOf(b[..n]), b[n]);
      PathsAreDistinct(a[..m], b[..n]);
      assert a == a[..m] + [a[m]] && b == b[..n] + [b[n]];
    }
  }

  // ---- Items ----

  /** An item's field is in order, given the kind its type field declares. */
  predicate FieldOk(kind: Option<IndicatorKind>, field: (string, Json), check: Check) {
    match ItemFieldOf(field.0)
    case FType => field.1.String? && kind.Some?
    case FValue =>
      field.1.String? && 1 <= Utf8Length(field.1.s) <= MAX_VALUE_BYTES
      && (kind.Some? ==> check(kind.value, field.1.s).Ok?)
    case FUnknown => false
  }

  ghost predicate AllFieldsOk(kind: Option<IndicatorKind>, fields: seq<(string, Json)>, check: Check) {
    forall i :: 0 <= i < |fields| ==> FieldOk(kind, fields[i], check)
  }

  lemma AllFieldsOkOneMore(kind: Option<IndicatorKind>, fields: seq<(string, Json)>, check: Check)
    requires fields != []
    ensures AllFieldsOk(kind, fields, check) <==>
            AllFieldsOk(kind, fields[..|fields| - 1], check) && FieldOk(kind, fields[|fields| - 1], check)
  {
    assert forall i :: 0 <= i < |fields| - 1 ==> fields[..|fields| - 1][i] == fields[i];
  }

  lemma ItemFieldErrorsIff(kind: Option<IndicatorKind>, field: (string, Json), path: string, check: Check)
    ensures ItemFieldErrors(kind, field, path, check) == [] <==> FieldOk(kind, field, check)
  {
  }

  lemma {:induction false} NoItemFieldErrorsIff(kind: Option<IndicatorKind>, fields: seq<(string, Json)>, path: string,
                                                check: Check)
    ensures ItemFieldsErrors(kind, fields, path, check) == [] <==> AllFieldsOk(kind, fields, check)
  {
    if fields != [] {
      NoItemFieldErrorsIff(kind, fields[..|fields| - 1], path, check);
      ItemFieldErrorsIff(kind, fields[|fields| - 1], path, check);
      AllFieldsOkOneMore(kind, fields, check);
    }
  }

  lemma {:induction false} SomeFieldIndicator(kind: Option<IndicatorKind>, fields: seq<(string, Json)>, check: Check)
    ensures FieldsIndicator(kind, fields, check).Some? <==>
            exists i :: 0 <= i < |fields| && FieldIndicator(kind, fields[i], check).Some?
  {
    if fields != [] {
      var n := |fields| - 1;
      SomeFieldIndicator(kind, fields[..n], check);
      if i :| 0 <= i < n && FieldIndicator(kind, fields[i], check).Some? {
        assert fields[..n][i] == fields[i];
      }
    }
  }

  /** The item has both its fields and all of them are in order. */
  ghost predicate ItemOk(fields: seq<(string, Json)>, check: Check) {
    HasItemField(fields, FType) && HasItemField(fields, FValue)
    && AllFieldsOk(DeclaredKind(fields), fields, check)
  }

  lemma NoItemErrorsMeansOk(item: Json, path: string, check: Check)
    ensures ItemErrors(item, path, check) == [] <==> item.Object? && ItemOk(item.fields, check)
  {
    if item.Object? {
      NoItemFieldErrorsIff(DeclaredKind(item.fields), item.fields, path, check);
    }
  }

  lemma OkItemHasIndicator(fields: seq<(string, Json)>, check: Check)
    requires ItemOk(fields, check)
    ensures FieldsIndicator(DeclaredKind(fields), fields, check).Some?
  {
    var t :| 0 <= t < |fields| && ItemFieldOf(fields[t].0) == FType;
    assert FieldOk(DeclaredKind(fields), fields[t], check);
    var v :| 0 <= v < |fields| && ItemFieldOf(fields[v].0) == FValue;
    assert FieldOk(DeclaredKind(fields), fields[v], check);
    assert FieldIndicator(DeclaredKind(fields), fields[v], check).Some?;
    SomeFieldIndicator(DeclaredKind(fields), fields, check);
  }

  /** `validate_item` never drops an item silently: without an indicator there is an error. */
  lemma NoneMeansError(item: Json, path: string, check: Check)
    requires ItemErrors(item, path, check) == []
    ensures ItemIndicator(item, check).Some?
  {
    NoItemErrorsMeansOk(item, path, check);
    OkItemHasIndicator(item.fields, check);
  }

  lemma {:induction false} KindOfDistinct(fields: seq<(string, Json)>, t: nat)
    requires DistinctKeys(fields) && t < |fields| && ItemFieldOf(fields[t].0) == FType
    ensures DeclaredKind(fields) == if fields[t].1.String? then ParseKind(fields[t].1.s) else None
  {
    if t > 0 {
      assert fields[0].0 != fields[t].0;
      KindOfDistinct(fields[1..], t - 1);
    }
  }

  lemma OkMeansValid(fields: seq<(string, Json)>, check: Check)
    requires DistinctKeys(fields) && ItemOk(fields, check)
    ensures ValidItem(Object(fields), check)
  {
    var t :| 0 <= t < |fields| && ItemFieldOf(fields[t].0) == FType;
    var v :| 0 <= v < |fields| && ItemFieldOf(fields[v].0) == FValue;
    KindOfDistinct(fields, t);
    assert FieldOk(DeclaredKind(fields), fields[t], check) && FieldOk(DeclaredKind(fields), fields[v], check);
    assert ValidAt(fields, t, v, check);
    forall i | 0 <= i < |fields| ensures ItemFieldOf(fields[i].0) != FUnknown {
      assert FieldOk(DeclaredKind(fields), fields[i], check);
    }
  }

  lemma ValidMeansOk(fields: seq<(string, Json)>, check: Check)
    requires DistinctKeys(fields) && ValidItem(Object(fields), check)
    ensures ItemOk(fields, check)
  {
    var t, v :| ValidAt(fields, t, v, check);
    KindOfDistinct(fields, t);
    forall i | 0 <= i < |fields| ensures FieldOk(DeclaredKind(fields), fields[i], check) {
      if ItemFieldOf(fields[i].0) == FType {
        SameKeySameField(fields, i, t);
      } else {
        SameKeySameField(fields, i, v);
      }
    }
  }

  lemma SameKeySameField(fields: seq<(string, Json)>, i: int, j: int)
    requires DistinctKeys(fields) && 0 <= i < |fields| && 0 <= j < |fields| && fields[i].0 == fields[j].0
    ensures i == j
  {
  }

  /** The part of `UniqueKeys` that concerns the value itself. */
  predicate OwnKeysDistinct(j: Json) {
    j.Object? ==> DistinctKeys(j.fields)
  }

  lemma NoItemErrorsIff(item: Json, path: string, check: Check)
    requires OwnKeysDistinct(item)
    ensures ItemErrors(item, path, check) == [] <==> ValidItem(item, check)
  {
    NoItemErrorsMeansOk(item, path, check);
    if item.Object? {
      if ItemOk(item.fields, check) {
        OkMeansValid(item.fields, check);
      }
      if ValidItem(item, check) {
        ValidMeansOk(item.fields, check);
      }
    }
  }

  lemma AllItemsValidOneMore(items: seq<Json>, check: Check)
    requires items != []
    ensures AllItemsValid(items, check) <==>
            AllItemsValid(items[..|items| - 1], check) && ValidItem(items[|items| - 1], check)
  {
    assert forall i :: 0 <= i < |items| - 1 ==> items[..|items| - 1][i] == items[i];
  }

  lemma {:induction false} NoItemsErrorsIff(items: seq<Json>, path: string, check: Check)
    requires forall i :: 0 <= i < |items| ==> OwnKeysDistinct(items[i])
    ensures ItemsErrors(items, path, check) == [] <==> AllItemsValid(items, check)
  {
    if items != [] {
      var n := |items| - 1;
      var front, last := ItemsErrors(items[..n], path, check), ItemErrors(items[n], Pointer(path, Decimal(n)), check);
      assert |ItemsErrors(items, path, check)| == |front| + |last|;
      AllItemsValidOneMore(items, check);
      NoItemsErrorsIff(items[..n], path, check);
      NoItemErrorsIff(items[n], Pointer(path, Decimal(n)), check);
    }
  }

  lemma ValidItemHasIndicator(item: Json, check: Check)
    requires OwnKeysDistinct(item) && ValidItem(item, check)
    ensures ItemIndicator(item, check).Some?
  {
    ValidMeansOk(item.fields, check);
    OkItemHasIndicator(item.fields, check);
  }

  lemma {:induction false} OneIndicatorPerItem(items: seq<Json>, check: Check)
    requires forall i :: 0 <= i < |items| ==> ItemIndicator(items[i], check).Some?
    ensures |ItemsIndicators(items, check)| == |items|
    ensures forall i :: 0 <= i < |items| ==> ItemIndicator(items[i], check) == Some(ItemsIndicators(items, check)[i])
  {
    if items != [] {
      OneIndicatorPerItem(items[..|items| - 1], check);
    }
  }

  // ---- Providers ----

  lemma {:induction false} NamedMembers(items: seq<Json>, p: ProviderId)
    ensures p in ProvidersNamed(items) <==> exists i :: 0 <= i < |items| && NamedProvider(items[i]) == Some(p)
  {
    if items != [] {
      var n := |items| - 1;
      NamedMembers(items[..n], p);
      if i :| 0 <= i < n && NamedProvider(items[i]) == Some(p) {
        assert items[..n][i] == items[i];
      }
    }
  }

  lemma {:induction false} NamedInOrder(items: seq<Json>)
    requires NamedOnce(items)
    ensures |ProvidersNamed(items)| == |items|
    ensures forall i :: 0 <= i < |items| ==> NamedProvider(items[i]) == Some(ProvidersNamed(items)[i])
  {
    if items != [] {
      var n := |items| - 1;
      NamedInOrder(items[..n]);
      NamedMembers(items[..n], NamedProvider(items[n]).value);
    }
  }

  lemma ProviderErrorIff(before: seq<Json>, item: Json, path: string)
    ensures ProviderErrors(before, item, path) == [] <==>
            NamedProvider(item).Some? && forall j :: 0 <= j < |before| ==> NamedProvider(before[j]) != NamedProvider(item)
  {
    if NamedProvider(item).Some? {
      NamedMembers(before, NamedProvider(item).value);
    }
  }

  lemma NamedOnceOneMore(items: seq<Json>)
    requires items != []
    ensures var n := |items| - 1;
            NamedOnce(items) <==>
            NamedOnce(items[..n]) && NamedProvider(items[n]).Some?
            && forall j :: 0 <= j < |items[..n]| ==> NamedProvider(items[..n][j]) != NamedProvider(items[n])
  {
    assert forall i :: 0 <= i < |items| - 1 ==> items[..|items| - 1][i] == items[i];
  }

  lemma {:induction false} NoProvidersErrorsIff(items: seq<Json>, path: string)
    ensures ProvidersErrors(items, path) == [] <==> NamedOnce(items)
  {
    if items != [] {
      var n := |items| - 1;
      NoProvidersErrorsIff(items[..n], path);
      ProviderErrorIff(items[..n], items[n], Pointer(path, Decimal(n)));
      NamedOnceOneMore(items);
    }
  }

  // ---- The request ----

  lemma NoIndicatorsErrorsIff(field: (string, Json), maxBatch: nat, check: Check)
    requires UniqueKeys(field.1) && RequestFieldOf(field.0) == FIndicators
    ensures RequestFieldErrors(field, maxBatch, check) == [] <==> ValidField(field, maxBatch, check)
  {
    if field.1.Array? {
      assert forall i :: 0 <= i < |field.1.items| ==> UniqueKeys(field.1.items[i]);
      NoItemsErrorsIff(field.1.items, Pointer("", field.0), check);
    }
  }

  lemma NoProviderListErrorsIff(field: (string, Json), maxBatch: nat, check: Check)
    requires RequestFieldOf(field.0) == FProviders
    ensures RequestFieldErrors(field, maxBatch, check) == [] <==> ValidField(field, maxBatch, check)
  {
    if field.1.Array? {
      NoProvidersErrorsIff(field.1.items, Pointer("", field.0));
    }
  }

  lemma NoFieldErrorsIff(field: (string, Json), maxBatch: nat, check: Check)
    requires UniqueKeys(field.1)
    ensures RequestFieldErrors(field, maxBatch, check) == [] <==> ValidField(field, maxBatch, check)
  {
    match RequestFieldOf(field.0)
    case FIndicators => NoIndicatorsErrorsIff(field, maxBatch, check);
    case FProviders => NoProviderListErrorsIff(field, maxBatch, check);
    case _ =>
  }

  ghost predicate AllFieldsValid(fields: seq<(string, Json)>, maxBatch: nat, check: Check) {
    forall i :: 0 <= i < |fields| ==> ValidField(fields[i], maxBatch, check)
  }

  lemma AllFieldsValidOneMore(fields: seq<(string, Json)>, maxBatch: nat, check: Check)
    requires fields != []
    ensures AllFieldsValid(fields, maxBatch, check) <==>
            AllFieldsValid(fields[..|fields| - 1], maxBatch, check) && ValidField(fields[|fields| - 1], maxBatch, check)
  {
    assert forall i :: 0 <= i < |fields| - 1 ==> fields[..|fields| - 1][i] == fields[i];
  }

  lemma {:induction false} NoFieldsErrorsIff(fields: seq<(string, Json)>, maxBatch: nat, check: Check)
    requires forall i :: 0 <= i < |fields| ==> UniqueKeys(fields[i].1)
    ensures RequestFieldsErrors(fields, maxBatch, check) == [] <==> AllFieldsValid(fields, maxBatch, check)
  {
    if fields != [] {
      NoFieldsErrorsIff(fields[..|fields| - 1], maxBatch, check);
      NoFieldErrorsIff(fields[|fields| - 1], maxBatch, check);
      AllFieldsValidOneMore(fields, maxBatch, check);
    }
  }

  /** The one field of kind `f`, if there is one. */
  ghost predicate OnlyAt(fields: seq<(string, Json)>, f: RequestField, k: int) {
    0 <= k < |fields| && RequestFieldOf(fields[k].0) == f
    && forall i :: 0 <= i < |fields| && i != k ==> RequestFieldOf(fields[i].0) != f
  }

  lemma DistinctMeansOnly(fields: seq<(string, Json)>, f: RequestField, k: nat)
    requires DistinctKeys(fields) && k < |fields| && RequestFieldOf(fields[k].0) == f && f != FOther
    ensures OnlyAt(fields, f, k)
  {
    forall i | 0 <= i < |fields| && i != k ensures RequestFieldOf(fields[i].0) != f {
      assert fields[i].0 != fields[k].0;
    }
  }

  /** The request shows what the field of kind `f` says. */
  ghost predicate Marked(r: ValidatedRequest, f: RequestField, value: Json, check: Check) {
    match f
    case FIndicators => value.Array? ==> r.indicators == ItemsIndicators(value.items, check)
    case FProviders => value.Array? ==> r.providers == ProvidersNamed(value.items)
    case FIncludeRaw => value.Bool? ==> r.includeRaw == value.b
    case FOther => true
  }

  lemma FoldedKeepsMark(before: ValidatedRequest, field: (string, Json), f: RequestField, value: Json, check: Check)
    requires Marked(before, f, value, check) && RequestFieldOf(field.0) != f
    ensures Marked(Folded(before, field, check), f, value, check)
  {
  }

  lemma FoldedMarks(before: ValidatedRequest, field: (string, Json), check: Check)
    requires before.indicators == []
    ensures Marked(Folded(before, field, check), RequestFieldOf(field.0), field.1, check)
  {
    if field.1.Array? {
      assert [] + ItemsIndicators(field.1.items, check) == ItemsIndicators(field.1.items, check);
    }
  }

  lemma FoldedMarksOther(before: ValidatedRequest, field: (string, Json), check: Check)
    requires RequestFieldOf(field.0) != FIndicators
    ensures Marked(Folded(before, field, check), RequestFieldOf(field.0), field.1, check)
  {
  }

  /** A field that occurs once leaves its mark whatever the other fields are. */
  lemma {:induction false} AccumulatedAt(fields: seq<(string, Json)>, enabled: seq<ProviderId>, check: Check,
                                         f: RequestField, k: nat)
    requires OnlyAt(fields, f, k)
    ensures Marked(Accumulated(fields, enabled, check), f, fields[k].1, check)
  {
    var n := |fields| - 1;
    var front := fields[..n];
    assert forall i :: 0 <= i < n ==> front[i] == fields[i];
    if k < n {
      AccumulatedAt(front, enabled, check, f, k);
      FoldedKeepsMark(Accumulated(front, enabled, check), fields[n], f, fields[k].1, check);
    } else if f == FIndicators {
      AccumulatedWithout(front, enabled, check, f);
      FoldedMarks(Accumulated(front, enabled, check), fields[n], check);
    } else {
      FoldedMarksOther(Accumulated(front, enabled, check), fields[n], check);
    }
  }

  /** An absent field leaves its default. */
  lemma {:induction false} AccumulatedWithout(fields: seq<(string, Json)>, enabled: seq<ProviderId>, check: Check,
                                              f: RequestField)
    requires forall i :: 0 <= i < |fields| ==> RequestFieldOf(fields[i].0) != f
    ensures var r := Accumulated(fields, enabled, check);
            && (f == FIndicators ==> r.indicators == [])
            && (f == FProviders ==> r.providers == DefaultProviders(enabled))
            && (f == FIncludeRaw ==> !r.includeRaw)
  {
    if fields != [] {
      AccumulatedWithout(fields[..|fields| - 1], enabled, check, f);
    }
  }

  /** Acceptance is exactly whole validity; the errors told are the first hundred, in request order. */
  lemma AcceptsExactlyValid(parsed: Option<Json>, maxBatch: nat, enabled: seq<ProviderId>, check: Check)
    ensures Verdict(parsed, maxBatch, enabled, check).Ok? <==>
            parsed.Some? && UniqueKeys(parsed.value) && ValidRequest(parsed.value, maxBatch, check)
    ensures Verdict(parsed, maxBatch, enabled, check).Err?
            && Verdict(parsed, maxBatch, enabled, check).error.Semantic? ==>
              var shown := Verdict(parsed, maxBatch, enabled, check).error.details;
              0 < |shown| <= MAX_DETAILS && shown <= RequestErrors(parsed.value, maxBatch, check)
              && (|shown| < MAX_DETAILS ==> shown == RequestErrors(parsed.value, maxBatch, check))
  {
    if parsed.Some? && UniqueKeys(parsed.value) && parsed.value.Object? {
      NoFieldsErrorsIff(parsed.value.fields, maxBatch, check);
      assert AllFieldsValid(parsed.value.fields, maxBatch, check) <==>
             forall i :: 0 <= i < |parsed.value.fields| ==> ValidField(parsed.value.fields[i], maxBatch, check);
    }
  }

  /** What one field of an accepted request became. */
  ghost predicate Reflects(r: ValidatedRequest, field: (string, Json), check: Check) {
    match RequestFieldOf(field.0)
    case FIndicators =>
      field.1.Array? && |r.indicators| == |field.1.items|
      && forall i :: 0 <= i < |r.indicators| ==> ItemIndicator(field.1.items[i], check) == Some(r.indicators[i])
    case FProviders =>
      field.1.Array? && |r.providers| == |field.1.items|
      && forall i :: 0 <= i < |r.providers| ==> NamedProvider(field.1.items[i]) == Some(r.providers[i])
    case FIncludeRaw => field.1 == Bool(r.includeRaw)
    case FOther => false
  }

  lemma AccumulatedReflects(fields: seq<(string, Json)>, maxBatch: nat, enabled: seq<ProviderId>, check: Check, k: nat)
    requires DistinctKeys(fields) && k < |fields| && ValidField(fields[k], maxBatch, check)
    requires fields[k].1.Array? ==> forall i :: 0 <= i < |fields[k].1.items| ==> OwnKeysDistinct(fields[k].1.items[i])
    ensures Reflects(Accumulated(fields, enabled, check), fields[k], check)
  {
    var f := RequestFieldOf(fields[k].0);
    DistinctMeansOnly(fields, f, k);
    AccumulatedAt(fields, enabled, check, f, k);
    if f == FIndicators {
      ValidItemsHaveIndicators(fields[k].1.items, check);
    } else if f == FProviders {
      NamedInOrder(fields[k].1.items);
    }
  }

  lemma UniqueKeysOwn(j: Json)
    requires UniqueKeys(j)
    ensures OwnKeysDistinct(j)
    ensures j.Array? ==> forall i :: 0 <= i < |j.items| ==> OwnKeysDistinct(j.items[i])
  {
    if j.Array? {
      forall i | 0 <= i < |j.items| ensures OwnKeysDistinct(j.items[i]) {
        assert UniqueKeys(j.items[i]);
      }
    }
  }

  /** An accepted request has one validated indicator for each submitted item, in order, and the named providers. */
  lemma AcceptedMeaning(parsed: Option<Json>, maxBatch: nat, enabled: seq<ProviderId>, check: Check, k: nat)
    requires Verdict(parsed, maxBatch, enabled, check).Ok? && k < |parsed.value.fields|
    ensures Reflects(Verdict(parsed, maxBatch, enabled, check).value, parsed.value.fields[k], check)
  {
    AcceptsExactlyValid(parsed, maxBatch, enabled, check);
    UniqueKeysOwn(parsed.value.fields[k].1);
    AccumulatedReflects(parsed.value.fields, maxBatch, enabled, check, k);
  }

  lemma ValidItemsHaveIndicators(items: seq<Json>, check: Check)
    requires AllItemsValid(items, check) && forall i :: 0 <= i < |items| ==> OwnKeysDistinct(items[i])
    ensures |ItemsIndicators(items, check)| == |items|
    ensures forall i :: 0 <= i < |items| ==> ItemIndicator(items[i], check) == Some(ItemsIndicators(items, check)[i])
  {
    forall i | 0 <= i < |items| ensures ItemIndicator(items[i], check).Some? {
      ValidItemHasIndicator(items[i], check);
    }
    OneIndicatorPerItem(items, check);
  }

  /** Fields the request leaves out take their defaults. */
  lemma AcceptedDefaults(parsed: Option<Json>, maxBatch: nat, enabled: seq<ProviderId>, check: Check)
    ensures Verdict(parsed, maxBatch, enabled, check).Ok? ==>
            var r := Verdict(parsed, maxBatch, enabled, check).value;
            var fields := parsed.value.fields;
            HasRequestField(fields, FIndicators)
            && (!HasRequestField(fields, FProviders) ==> r.providers == DefaultProviders(enabled))
            && (!HasRequestField(fields, FIncludeRaw) ==> !r.includeRaw)
  {
    AcceptsExactlyValid(parsed, maxBatch, enabled, check);
    if Verdict(parsed, maxBatch, enabled, check).Ok? {
      var fields := parsed.value.fields;
      if !HasRequestField(fields, FProviders) {
        AccumulatedWithout(fields, enabled, check, FProviders);
      }
      if !HasRequestField(fields, FIncludeRaw) {
        AccumulatedWithout(fields, enabled, check, FIncludeRaw);
      }
    }
  }
}
