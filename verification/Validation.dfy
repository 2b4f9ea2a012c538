/** Request validation as the code runs it: one pass over the fields, pushing errors onto a capped list. */
module Validation {
  import opened Basics
  import opened Domain

  /** The first hundred of the errors raised. */
  function Capped(errors: seq<Detail>): seq<Detail> {
    if |errors| <= MAX_DETAILS then errors else Capped(errors[..|errors| - 1])
  }

  lemma {:induction false} CappedIsPrefix(errors: seq<Detail>)
    ensures Capped(errors) == errors[..Min(MAX_DETAILS, |errors|)]
  {
    if |errors| > MAX_DETAILS {
      CappedIsPrefix(errors[..|errors| - 1]);
    }
  }

  lemma CappedOneMore(errors: seq<Detail>, d: Detail)
    ensures Capped(errors + [d]) == if |Capped(errors)| < MAX_DETAILS then Capped(errors) + [d] else Capped(errors)
  {
    CappedIsPrefix(errors);
    assert (errors + [d])[..|errors|] == errors;
  }

  lemma ItemFieldsErrorsOneMore(kind: Option<IndicatorKind>, fields: seq<(string, Json)>, path: string, check: Check, i: nat)
    requires i < |fields|
    ensures ItemFieldsErrors(kind, fields[..i + 1], path, check) ==
            ItemFieldsErrors(kind, fields[..i], path, check) + ItemFieldErrors(kind, fields[i], path, check)
  {
    assert fields[..i + 1][..i] == fields[..i];
  }

  lemma ItemsErrorsOneMore(items: seq<Json>, path: string, check: Check, i: nat)
    requires i < |items|
    ensures ItemsErrors(items[..i + 1], path, check) ==
            ItemsErrors(items[..i], path, check) + ItemErrors(items[i], Pointer(path, Decimal(i)), check)
  {
    assert items[..i + 1][..i] == items[..i];
  }

  lemma ProvidersErrorsOneMore(items: seq<Json>, path: string, i: nat)
    requires i < |items|
    ensures ProvidersErrors(items[..i + 1], path) ==
            ProvidersErrors(items[..i], path) + ProviderErrors(items[..i], items[i], Pointer(path, Decimal(i)))
  {
    assert items[..i + 1][..i] == items[..i];
  }

  lemma RequestFieldsErrorsOneMore(fields: seq<(string, Json)>, maxBatch: nat, check: Check, i: nat)
    requires i < |fields|
    ensures RequestFieldsErrors(fields[..i + 1], maxBatch, check) ==
            RequestFieldsErrors(fields[..i], maxBatch, check) + RequestFieldErrors(fields[i], maxBatch, check)
  {
    assert fields[..i + 1][..i] == fields[..i];
  }

  lemma FieldsIndicatorOneMore(kind: Option<IndicatorKind>, fields: seq<(string, Json)>, check: Check, i: nat)
    requires i < |fields|
    ensures FieldsIndicator(kind, fields[..i + 1], check) ==
            var last := FieldIndicator(kind, fields[i], check);
            if last.Some? then last else FieldsIndicator(kind, fields[..i], check)
  {
    assert fields[..i + 1][..i] == fields[..i];
  }

  lemma ItemsIndicatorsOneMore(items: seq<Json>, check: Check, i: nat)
    requires i < |items|
    ensures ItemsIndicators(items[..i + 1], check) ==
            ItemsIndicators(items[..i], check)
            + (if ItemIndicator(items[i], check).Some? then [ItemIndicator(items[i], check).value] else [])
  {
    assert items[..i + 1][..i] == items[..i];
  }

  lemma ProvidersNamedOneMore(items: seq<Json>, i: nat)
    requires i < |items|
    ensures ProvidersNamed(items[..i + 1]) ==
            var before := ProvidersNamed(items[..i]);
            var p := NamedProvider(items[i]);
            if p.Some? && p.value !in before then before + [p.value] else before
  {
    assert items[..i + 1][..i] == items[..i];
  }

  lemma AccumulatedOneMore(fields: seq<(string, Json)>, enabled: seq<ProviderId>, check: Check, i: nat)
    requires i < |fields|
    ensures Accumulated(fields[..i + 1], enabled, check) ==
            Folded(Accumulated(fields[..i], enabled, check), fields[i], check)
  {
    assert fields[..i + 1][..i] == fields[..i];
  }

  lemma RaisedInTurn(before: seq<Detail>, first: seq<Detail>, second: seq<Detail>)
    ensures before + first + second == before + (first + second)
  {
  }

  lemma HasItemFieldOneMore(fields: seq<(string, Json)>, i: nat, f: ItemField)
    requires i < |fields|
    ensures HasItemField(fields[..i + 1], f) <==> HasItemField(fields[..i], f) || ItemFieldOf(fields[i].0) == f
  {
    if HasItemField(fields[..i], f) {
      var k :| 0 <= k < |fields[..i]| && ItemFieldOf(fields[..i][k].0) == f;
      assert fields[..i + 1][k] == fields[..i][k];
    }
    if HasItemField(fields[..i + 1], f) {
      var k :| 0 <= k < |fields[..i + 1]| && ItemFieldOf(fields[..i + 1][k].0) == f;
      assert k < i ==> fields[..i][k] == fields[..i + 1][k];
    }
    assert fields[..i + 1][i] == fields[i];
  }

  lemma HasRequestFieldOneMore(fields: seq<(string, Json)>, i: nat, f: RequestField)
    requires i < |fields|
    ensures HasRequestField(fields[..i + 1], f) <==> HasRequestField(fields[..i], f) || RequestFieldOf(fields[i].0) == f
  {
    if HasRequestField(fields[..i], f) {
      var k :| 0 <= k < |fields[..i]| && RequestFieldOf(fields[..i][k].0) == f;
      assert fields[..i + 1][k] == fields[..i][k];
    }
    if HasRequestField(fields[..i + 1], f) {
      var k :| 0 <= k < |fields[..i + 1]| && RequestFieldOf(fields[..i + 1][k].0) == f;
      assert k < i ==> fields[..i][k] == fields[..i + 1][k];
    }
    assert fields[..i + 1][i] == fields[i];
  }

  /** The error list keeps the first hundred of all errors raised. */
  class Details {
    var list: seq<Detail>
    ghost var raised: seq<Detail>

    ghost predicate Valid()
      reads this
    {
      list == Capped(raised)
    }

    constructor ()
      ensures Valid() && raised == []
    {
      list, raised := [], [];
    }

    method Add(path: string, code: string)
      requires Valid()
      modifies this
      ensures Valid() && raised == old(raised) + [Detail(path, code)]
    {
      CappedOneMore(raised, Detail(path, code));
      if |list| < MAX_DETAILS {
        list := list + [Detail(path, code)];
      }
      raised := raised + [Detail(path, code)];
    }

    method InvalidType(path: string)
      requires Valid()
      modifies this
      ensures Valid() && raised == old(raised) + [Detail(path, "invalid_type")]
    {
      Add(path, "invalid_type");
    }

    method Require(present: bool, path: string)
      requires Valid()
      modifies this
      ensures Valid() && raised == old(raised) + Missing(present, path)
    {
      if !present {
        Add(path, "required");
      }
    }
  }

  /** One field of an item. */
  method ValidateItemField(kind: Option<IndicatorKind>, field: (string, Json), path: string, check: Check, details: Details)
    returns (validated: Option<Indicator>)
    requires details.Valid()
    modifies details
    ensures details.Valid() && details.raised == old(details.raised) + ItemFieldErrors(kind, field, path, check)
    ensures validated == FieldIndicator(kind, field, check)
  {
    validated := None;
    var fieldPath := Pointer(path, field.0);
    match ItemFieldOf(field.0)
    case FType =>
      if !field.1.String? {
        details.InvalidType(fieldPath);
      } else if kind.None? {
        details.Add(fieldPath, "invalid_indicator_type");
      }
    case FValue =>
      if !field.1.String? {
        details.InvalidType(fieldPath);
      } else if Utf8Length(field.1.s) == 0 || Utf8Length(field.1.s) > MAX_VALUE_BYTES {
        details.Add(fieldPath, "invalid_value_length");
      } else if kind.Some? {
        match check(kind.value, field.1.s)
        case Ok(indicator) => validated := Some(indicator);
        case Err(code) => details.Add(fieldPath, code);
      }
    case FUnknown => details.Add(fieldPath, "unknown_field");
  }

  /** What the loop over an item's fields knows after `i` of them. */
  ghost predicate ItemProgress(kind: Option<IndicatorKind>, fields: seq<(string, Json)>, check: Check, i: nat,
                               validated: Option<Indicator>, hasKind: bool, hasValue: bool)
  {
    i <= |fields| && validated == FieldsIndicator(kind, fields[..i], check)
    && hasKind == HasItemField(fields[..i], FType) && hasValue == HasItemField(fields[..i], FValue)
  }

  lemma ItemProgressGrows(kind: Option<IndicatorKind>, fields: seq<(string, Json)>, check: Check, i: nat,
                          validated: Option<Indicator>, hasKind: bool, hasValue: bool, one: Option<Indicator>)
    requires ItemProgress(kind, fields, check, i, validated, hasKind, hasValue) && i < |fields|
    requires one == FieldIndicator(kind, fields[i], check)
    ensures ItemProgress(kind, fields, check, i + 1, if one.Some? then one else validated,
                         hasKind || ItemFieldOf(fields[i].0) == FType, hasValue || ItemFieldOf(fields[i].0) == FValue)
  {
    HasItemFieldOneMore(fields, i, FType);
    HasItemFieldOneMore(fields, i, FValue);
    FieldsIndicatorOneMore(kind, fields, check, i);
  }

  /** All fields of an item, in order. */
  method ValidateItemFields(kind: Option<IndicatorKind>, fields: seq<(string, Json)>, path: string, check: Check,
                            details: Details)
    returns (validated: Option<Indicator>, hasKind: bool, hasValue: bool)
    requires details.Valid()
    modifies details
    ensures details.Valid()
    ensures details.raised == old(details.raised) + ItemFieldsErrors(kind, fields, path, check)
    ensures validated == FieldsIndicator(kind, fields, check)
    ensures hasKind == HasItemField(fields, FType) && hasValue == HasItemField(fields, FValue)
  {
    validated, hasKind, hasValue := None, false, false;
    for i := 0 to |fields|
      invariant details.Valid() && details.raised == old(details.raised) + ItemFieldsErrors(kind, fields[..i], path, check)
      invariant ItemProgress(kind, fields, check, i, validated, hasKind, hasValue)
    {
      ItemFieldsErrorsOneMore(kind, fields, path, check, i);
      var field, named := fields[i], ItemFieldOf(fields[i].0);
      var one := ValidateItemField(kind, field, path, check, details);
      RaisedInTurn(old(details.raised), ItemFieldsErrors(kind, fields[..i], path, check),
                   ItemFieldErrors(kind, field, path, check));
      ItemProgressGrows(kind, fields, check, i, validated, hasKind, hasValue, one);
      validated := if one.Some? then one else validated;
      hasKind := hasKind || named == FType;
      hasValue := hasValue || named == FValue;
    }
    assert fields[..|fields|] == fields;
  }

  method ValidateItem(item: Json, path: string, check: Check, details: Details) returns (validated: Option<Indicator>)
    requires details.Valid()
    modifies details
    ensures details.Valid() && details.raised == old(details.raised) + ItemErrors(item, path, check)
    ensures validated == ItemIndicator(item, check)
  {
    if !item.Object? {
      details.InvalidType(path);
      return None;
    }
    var kind, hasKind, hasValue := DeclaredKind(item.fields), false, false;
    validated, hasKind, hasValue := ValidateItemFields(kind, item.fields, path, check, details);
    ghost var r0, e0 := old(details.raised), ItemFieldsErrors(kind, item.fields, path, check);
    var typePath, valuePath := Pointer(path, "type"), Pointer(path, "value");
    details.Require(hasKind, typePath);
    details.Require(hasValue, valuePath);
    ghost var e1, e2 := Missing(hasKind, typePath), Missing(hasValue, valuePath);
    RaisedInTurn(r0, e0, e1);
    RaisedInTurn(r0, e0 + e1, e2);
    assert ItemErrors(item, path, check) == e0 + e1 + e2;
  }

  method ValidateItems(items: seq<Json>, path: string, check: Check, details: Details) returns (indicators: seq<Indicator>)
    requires details.Valid()
    modifies details
    ensures details.Valid() && details.raised == old(details.raised) + ItemsErrors(items, path, check)
    ensures indicators == ItemsIndicators(items, check)
  {
    indicators := [];
    for index := 0 to |items|
      invariant details.Valid() && details.raised == old(details.raised) + ItemsErrors(items[..index], path, check)
      invariant indicators == ItemsIndicators(items[..index], check)
    {
      ItemsErrorsOneMore(items, path, check, index);
      ItemsIndicatorsOneMore(items, check, index);
      var indicator := ValidateItem(items[index], Pointer(path, Decimal(index)), check, details);
      RaisedInTurn(old(details.raised), ItemsErrors(items[..index], path, check),
                   ItemErrors(items[index], Pointer(path, Decimal(index)), check));
      if indicator.Some? {
        indicators := indicators + [indicator.value];
      }
    }
    assert items[..|items|] == items;
  }

  /** One entry of the list; `seen` are the providers already named. */
  method ValidateProvider(ghost before: seq<Json>, item: Json, at: string, seen: set<ProviderId>, details: Details)
    returns (id: Option<ProviderId>)
    requires details.Valid() && forall p :: p in seen <==> p in ProvidersNamed(before)
    modifies details
    ensures details.Valid() && details.raised == old(details.raised) + ProviderErrors(before, item, at)
    ensures id == if NamedProvider(item).Some? && NamedProvider(item).value !in seen then NamedProvider(item) else None
  {
    id := None;
    if item.String? {
      id := ParseProvider(item.s);
      if id.Some? {
        if id.value in seen {
          id := None;
          details.Add(at, "duplicate_provider");
        }
      } else {
        details.Add(at, "unknown_provider");
      }
    } else {
      details.InvalidType(at);
    }
  }

  method ValidateProviders(items: seq<Json>, path: string, details: Details) returns (providers: seq<ProviderId>)
    requires details.Valid()
    modifies details
    ensures details.Valid() && details.raised == old(details.raised) + ProvidersErrors(items, path)
    ensures providers == ProvidersNamed(items)
  {
    providers := [];
    var seen: set<ProviderId> := {};
    for index := 0 to |items|
      invariant details.Valid() && details.raised == old(details.raised) + ProvidersErrors(items[..index], path)
      invariant providers == ProvidersNamed(items[..index])
      invariant forall p :: p in seen <==> p in providers
    {
      ProvidersErrorsOneMore(items, path, index);
      ProvidersNamedOneMore(items, index);
      var id := ValidateProvider(items[..index], items[index], Pointer(path, Decimal(index)), seen, details);
      RaisedInTurn(old(details.raised), ProvidersErrors(items[..index], path),
                   ProviderErrors(items[..index], items[index], Pointer(path, Decimal(index))));
      if id.Some? {
        seen := seen + {id.value};
        providers := providers + [id.value];
      }
    }
    assert items[..|items|] == items;
  }

  method ValidateIndicatorsField(value: Json, path: string, maxBatch: nat, check: Check, details: Details)
    returns (indicators: seq<Indicator>)
    requires details.Valid()
    modifies details
    ensures details.Valid()
    ensures details.raised == old(details.raised) + IndicatorsErrors(value, path, maxBatch, check)
    ensures indicators == if value.Array? then ItemsIndicators(value.items, check) else []
  {
    indicators := [];
    if value.Array? {
      ghost var size := if value.items == [] || |value.items| > maxBatch then [Detail(path, "invalid_batch_size")] else [];
      if value.items == [] || |value.items| > maxBatch {
        details.Add(path, "invalid_batch_size");
      }
      assert details.raised == old(details.raised) + size;
      indicators := ValidateItems(value.items, path, check, details);
      RaisedInTurn(old(details.raised), size, ItemsErrors(value.items, path, check));
    } else {
      details.InvalidType(path);
    }
  }

  method ValidateProvidersField(value: Json, path: string, details: Details) returns (providers: seq<ProviderId>)
    requires details.Valid()
    modifies details
    ensures details.Valid() && details.raised == old(details.raised) + ProviderListErrors(value, path)
    ensures providers == if value.Array? then ProvidersNamed(value.items) else []
  {
    providers := [];
    if value.Array? {
      if value.items == [] {
        details.Add(path, "empty_providers");
      }
      providers := ValidateProviders(value.items, path, details);
      assert details.raised == old(details.raised) + ProviderListErrors(value, path);
    } else {
      details.InvalidType(path);
    }
  }

  /** One field of the request, folded into what was accumulated before it. */
  method ValidateField(field: (string, Json), maxBatch: nat, check: Check, before: ValidatedRequest, details: Details)
    returns (after: ValidatedRequest)
    requires details.Valid()
    modifies details
    ensures details.Valid() && details.raised == old(details.raised) + RequestFieldErrors(field, maxBatch, check)
    ensures after == Folded(before, field, check)
  {
    after := before;
    var path := Pointer("", field.0);
    match RequestFieldOf(field.0)
    case FIndicators =>
      var indicators := ValidateIndicatorsField(field.1, path, maxBatch, check, details);
      assert before.indicators + [] == before.indicators;
      after := before.(indicators := before.indicators + indicators);
    case FProviders =>
      var providers := ValidateProvidersField(field.1, path, details);
      after := before.(providers := providers);
    case FIncludeRaw =>
      if field.1.Bool? {
        after := before.(includeRaw := field.1.b);
      } else {
        details.InvalidType(path);
      }
    case FOther => details.Add(path, "unknown_field");
  }

  /** All fields of the request, in order. */
  method ValidateFields(fields: seq<(string, Json)>, maxBatch: nat, enabled: seq<ProviderId>, check: Check, details: Details)
    returns (request: ValidatedRequest, hasIndicators: bool)
    requires details.Valid()
    modifies details
    ensures details.Valid()
    ensures details.raised == old(details.raised) + RequestFieldsErrors(fields, maxBatch, check)
    ensures request == Accumulated(fields, enabled, check) && hasIndicators == HasRequestField(fields, FIndicators)
  {
    request, hasIndicators := ValidatedRequest([], DefaultProviders(enabled), false), false;
    for i := 0 to |fields|
      invariant details.Valid() && details.raised == old(details.raised) + RequestFieldsErrors(fields[..i], maxBatch, check)
      invariant request == Accumulated(fields[..i], enabled, check)
      invariant hasIndicators == HasRequestField(fields[..i], FIndicators)
    {
      RequestFieldsErrorsOneMore(fields, maxBatch, check, i);
      HasRequestFieldOneMore(fields, i, FIndicators);
      AccumulatedOneMore(fields, enabled, check, i);
      request := ValidateField(fields[i], maxBatch, check, request, details);
      RaisedInTurn(old(details.raised), RequestFieldsErrors(fields[..i], maxBatch, check),
                   RequestFieldErrors(fields[i], maxBatch, check));
      hasIndicators := hasIndicators || RequestFieldOf(fields[i].0) == FIndicators;
    }
    assert fields[..|fields|] == fields;
  }

  /** `validate_request`; `parsed` is None where the bytes are not JSON. */
  method ValidateRequest(parsed: Option<Json>, maxBatch: nat, enabled: seq<ProviderId>, check: Check)
    returns (r: Result<ValidatedRequest, RequestError>)
    ensures r == Verdict(parsed, maxBatch, enabled, check)
  {
    if parsed.None? || !UniqueKeys(parsed.value) {
      return Err(InvalidJson);
    }
    var json := parsed.value;
    var details := new Details();
    if !json.Object? {
      details.InvalidType("");
      assert details.raised == RequestErrors(json, maxBatch, check);
      CappedIsPrefix(details.raised);
      return Err(Semantic(details.list));
    }
    var request, hasIndicators := ValidateFields(json.fields, maxBatch, enabled, check, details);
    ghost var errors := RequestFieldsErrors(json.fields, maxBatch, check);
    assert details.raised == errors;
    details.Require(hasIndicators, "/indicators");
    assert RequestErrors(json, maxBatch, check) == errors + Missing(hasIndicators, "/indicators");
    CappedIsPrefix(details.raised);
    if details.list == [] {
      r := Ok(request);
    } else {
      r := Err(Semantic(details.list));
    }
  }
}
