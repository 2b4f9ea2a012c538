/** Every error a request is told, by its path and code: which ones, where, in which order, and no others. */
module RequestErrors {
  import opened Basics
  import opened Domain
  import opened DomainProofs

  // ---- Words and numbers ----

  /** The names of providers, kinds and fields are these, and no other text is one. */
  lemma WordsAreLiteral(text: string)
    ensures ParseProvider(text) == Some(Abuseipdb) <==> text == "abuseipdb"
    ensures ParseProvider(text) == Some(Virustotal) <==> text == "virustotal"
    ensures ParseKind(text) == Some(Ip) <==> text == "ip"
    ensures ParseKind(text) == Some(Url) <==> text == "url"
    ensures ParseKind(text) == Some(Hash) <==> text == "hash"
    ensures ItemFieldOf(text) == FType <==> text == "type"
    ensures ItemFieldOf(text) == FValue <==> text == "value"
    ensures RequestFieldOf(text) == FIndicators <==> text == "indicators"
    ensures RequestFieldOf(text) == FProviders <==> text == "providers"
    ensures RequestFieldOf(text) == FIncludeRaw <==> text == "include_raw"
  {
  }

  /** The number that decimal digits spell. */
  function DecimalValue(s: string): int {
    if s == [] then 0 else 10 * DecimalValue(s[..|s| - 1]) + (s[|s| - 1] as int - '0' as int)
  }

  /** An index in a path is its decimal digits, without leading zeros. */
  lemma {:induction false} DecimalReadsBack(n: nat)
    ensures DecimalValue(Decimal(n)) == n && |Decimal(n)| >= 1
    ensures forall i :: 0 <= i < |Decimal(n)| ==> '0' <= Decimal(n)[i] <= '9'
    ensures n > 0 ==> Decimal(n)[0] != '0'
    ensures n == 0 ==> Decimal(n) == "0"
  {
    if n < 10 {
      assert Decimal(n)[..0] == [];
    } else {
      DecimalReadsBack(n / 10);
      assert Decimal(n)[..|Decimal(n)| - 1] == Decimal(n / 10);
    }
  }

  /** Texts are measured in UTF-8 bytes: one for ASCII, up to four for others. */
  lemma {:induction false} Utf8Measures(s: string)
    ensures |s| <= Utf8Length(s) <= 4 * |s|
    ensures (forall i :: 0 <= i < |s| ==> s[i] as int < 0x80) ==> Utf8Length(s) == |s|
    ensures (forall i :: 0 <= i < |s| ==> 0x80 <= s[i] as int < 0x800) ==> Utf8Length(s) == 2 * |s|
    ensures (forall i :: 0 <= i < |s| ==> 0x800 <= s[i] as int < 0x1_0000) ==> Utf8Length(s) == 3 * |s|
    ensures (forall i :: 0 <= i < |s| ==> 0x1_0000 <= s[i] as int) ==> Utf8Length(s) == 4 * |s|
  {
    if s != [] {
      Utf8Measures(s[..|s| - 1]);
    }
  }

  /** By default the enabled providers are asked, each once, AbuseIPDB before VirusTotal. */
  lemma DefaultsAreEnabled(enabled: seq<ProviderId>)
    ensures forall p :: p in DefaultProviders(enabled) <==> p in enabled
    ensures DefaultProviders(enabled) == if Abuseipdb in enabled && Virustotal in enabled then [Abuseipdb, Virustotal]
                                         else if Abuseipdb in enabled then [Abuseipdb]
                                         else if Virustotal in enabled then [Virustotal] else []
  {
    forall p ensures p in DefaultProviders(enabled) <==> p in enabled {
      match p
      case Abuseipdb =>
      case Virustotal =>
    }
  }

  // ---- Items ----

  lemma PathOfOneMore(base: seq<string>, key: string)
    ensures PathOf(base + [key]) == Pointer(PathOf(base), key)
  {
    assert (base + [key])[..|base|] == base;
  }

  ghost predicate HasKey(fields: seq<(string, Json)>, key: string) {
    exists i :: 0 <= i < |fields| && fields[i].0 == key
  }

  /** The item's type field names kind `k`. */
  ghost predicate Declares(fields: seq<(string, Json)>, k: IndicatorKind) {
    exists i :: 0 <= i < |fields| && fields[i].0 == "type"
                && fields[i].1 == String(match k case Ip => "ip" case Url => "url" case Hash => "hash")
  }

  /** What is wrong with one field of an item. */
  ghost predicate FieldFault(fields: seq<(string, Json)>, key: string, v: Json, check: Check, code: string) {
    || (key != "type" && key != "value" && code == "unknown_field")
    || ((key == "type" || key == "value") && !v.String? && code == "invalid_type")
    || (key == "type" && v.String? && (forall k :: !Declares(fields, k)) && code == "invalid_indicator_type")
    || (key == "value" && v.String? && (v.s == "" || Utf8Length(v.s) > 4096) && code == "invalid_value_length")
    || (key == "value" && v.String? && v.s != "" && Utf8Length(v.s) <= 4096
        && exists k :: Declares(fields, k) && check(k, v.s) == Err(code))
  }

  ghost predicate ItemFault(item: Json, base: seq<string>, check: Check, d: Detail) {
    if !item.Object? then d == Detail(PathOf(base), "invalid_type")
    else
      || SomeFieldFault(item.fields, base, check, d)
      || (!HasKey(item.fields, "type") && d == Detail(PathOf(base + ["type"]), "required"))
      || (!HasKey(item.fields, "value") && d == Detail(PathOf(base + ["value"]), "required"))
  }

  lemma {:induction false} DeclaredKindIs(fields: seq<(string, Json)>, k: IndicatorKind)
    requires DistinctKeys(fields)
    ensures DeclaredKind(fields) == Some(k) <==> Declares(fields, k)
  {
    if fields != [] {
      var rest := fields[1..];
      if fields[0].0 == "type" {
        assert forall i :: 1 <= i < |fields| ==> fields[i].0 != fields[0].0;
        if DeclaredKind(fields) == Some(k) {
          assert fields[0].1 == String(match k case Ip => "ip" case Url => "url" case Hash => "hash");
        }
      } else {
        DeclaredKindIs(rest, k);
        if Declares(rest, k) {
          var i :| 0 <= i < |rest| && rest[i].0 == "type"
                   && rest[i].1 == String(match k case Ip => "ip" case Url => "url" case Hash => "hash");
          assert fields[i + 1] == rest[i];
        }
        if Declares(fields, k) {
          var i :| 0 <= i < |fields| && fields[i].0 == "type"
                   && fields[i].1 == String(match k case Ip => "ip" case Url => "url" case Hash => "hash");
          assert rest[i - 1] == fields[i];
        }
      }
    }
  }

  lemma EmptyText(s: string)
    ensures Utf8Length(s) == 0 <==> s == ""
  {
    Utf8Measures(s);
  }

  lemma FieldErrorIff(fields: seq<(string, Json)>, field: (string, Json), base: seq<string>, check: Check, d: Detail)
    requires DistinctKeys(fields)
    ensures d in ItemFieldErrors(DeclaredKind(fields), field, PathOf(base), check) <==>
            d.path == PathOf(base + [field.0]) && FieldFault(fields, field.0, field.1, check, d.code)
  {
    PathOfOneMore(base, field.0);
    forall k ensures DeclaredKind(fields) == Some(k) <==> Declares(fields, k) {
      DeclaredKindIs(fields, k);
    }
    if field.1.String? {
      EmptyText(field.1.s);
    }
  }

  /** An error told of an item's fields is told of one of them, and the other way round. */
  lemma {:induction false} FieldErrorFrom(kind: Option<IndicatorKind>, fields: seq<(string, Json)>, path: string,
                                          check: Check, d: Detail) returns (i: nat)
    requires d in ItemFieldsErrors(kind, fields, path, check)
    ensures i < |fields| && d in ItemFieldErrors(kind, fields[i], path, check)
  {
    i := |fields| - 1;
    if d !in ItemFieldErrors(kind, fields[i], path, check) {
      i := FieldErrorFrom(kind, fields[..i], path, check, d);
    }
  }

  lemma {:induction false} FieldErrorAt(kind: Option<IndicatorKind>, fields: seq<(string, Json)>, path: string,
                                        check: Check, d: Detail, i: nat)
    requires i < |fields| && d in ItemFieldErrors(kind, fields[i], path, check)
    ensures d in ItemFieldsErrors(kind, fields, path, check)
  {
    if i < |fields| - 1 {
      FieldErrorAt(kind, fields[..|fields| - 1], path, check, d, i);
    }
  }

  ghost predicate SomeFieldFault(fields: seq<(string, Json)>, base: seq<string>, check: Check, d: Detail) {
    exists i: nat :: i < |fields| && d.path == PathOf(base + [fields[i].0])
                     && FieldFault(fields, fields[i].0, fields[i].1, check, d.code)
  }

  lemma FieldsErrorsIff(fields: seq<(string, Json)>, base: seq<string>, check: Check, d: Detail)
    requires DistinctKeys(fields)
    ensures d in ItemFieldsErrors(DeclaredKind(fields), fields, PathOf(base), check) <==>
            SomeFieldFault(fields, base, check, d)
  {
    if d in ItemFieldsErrors(DeclaredKind(fields), fields, PathOf(base), check) {
      var i := FieldErrorFrom(DeclaredKind(fields), fields, PathOf(base), check, d);
      FieldErrorIff(fields, fields[i], base, check, d);
    }
    if i: nat :| i < |fields| && d.path == PathOf(base + [fields[i].0])
                 && FieldFault(fields, fields[i].0, fields[i].1, check, d.code)
    {
      FieldErrorIff(fields, fields[i], base, check, d);
      FieldErrorAt(DeclaredKind(fields), fields, PathOf(base), check, d, i);
    }
  }

  lemma ItemErrorsIff(item: Json, base: seq<string>, check: Check, d: Detail)
    requires OwnKeysDistinct(item)
    ensures d in ItemErrors(item, PathOf(base), check) <==> ItemFault(item, base, check, d)
  {
    if item.Object? {
      var fields := item.fields;
      var faults := ItemFieldsErrors(DeclaredKind(fields), fields, PathOf(base), check);
      var noType := Missing(HasItemField(fields, FType), Pointer(PathOf(base), "type"));
      var noValue := Missing(HasItemField(fields, FValue), Pointer(PathOf(base), "value"));
      assert ItemErrors(item, PathOf(base), check) == faults + noType + noValue;
      InThree(d, faults, noType, noValue);
      FieldsErrorsIff(fields, base, check, d);
      MissingIff(fields, base, "type", FType, d);
      MissingIff(fields, base, "value", FValue, d);
    }
  }

  lemma InThree(d: Detail, a: seq<Detail>, b: seq<Detail>, c: seq<Detail>)
    ensures d in a + b + c <==> d in a || d in b || d in c
  {
  }

  lemma MissingIff(fields: seq<(string, Json)>, base: seq<string>, key: string, f: ItemField, d: Detail)
    requires forall text :: ItemFieldOf(text) == f <==> text == key
    ensures d in Missing(HasItemField(fields, f), Pointer(PathOf(base), key)) <==>
            !HasKey(fields, key) && d == Detail(PathOf(base + [key]), "required")
  {
    PathOfOneMore(base, key);
    KeyPresent(fields, key, f);
  }

  lemma KeyPresent(fields: seq<(string, Json)>, key: string, f: ItemField)
    requires forall text :: ItemFieldOf(text) == f <==> text == key
    ensures HasItemField(fields, f) <==> HasKey(fields, key)
  {
    if HasItemField(fields, f) {
      var i :| 0 <= i < |fields| && ItemFieldOf(fields[i].0) == f;
      assert fields[i].0 == key;
    }
    if HasKey(fields, key) {
      var i :| 0 <= i < |fields| && fields[i].0 == key;
      assert ItemFieldOf(fields[i].0) == f;
    }
  }

  // ---- Lists ----

  lemma {:induction false} ItemErrorFrom(items: seq<Json>, path: string, check: Check, d: Detail) returns (i: nat)
    requires d in ItemsErrors(items, path, check)
    ensures i < |items| && d in ItemErrors(items[i], Pointer(path, Decimal(i)), check)
  {
    i := |items| - 1;
    if d !in ItemErrors(items[i], Pointer(path, Decimal(i)), check) {
      i := ItemErrorFrom(items[..i], path, check, d);
    }
  }

  lemma {:induction false} ItemErrorAt(items: seq<Json>, path: string, check: Check, d: Detail, i: nat)
    requires i < |items| && d in ItemErrors(items[i], Pointer(path, Decimal(i)), check)
    ensures d in ItemsErrors(items, path, check)
  {
    if i < |items| - 1 {
      ItemErrorAt(items[..|items| - 1], path, check, d, i);
    }
  }

  ghost predicate SomeItemFault(items: seq<Json>, base: seq<string>, check: Check, d: Detail) {
    exists i: nat :: i < |items| && ItemFault(items[i], base + [Decimal(i)], check, d)
  }

  lemma ItemsErrorsIff(items: seq<Json>, base: seq<string>, check: Check, d: Detail)
    requires forall i :: 0 <= i < |items| ==> OwnKeysDistinct(items[i])
    ensures d in ItemsErrors(items, PathOf(base), check) <==> SomeItemFault(items, base, check, d)
  {
    if d in ItemsErrors(items, PathOf(base), check) {
      var i := ItemErrorFrom(items, PathOf(base), check, d);
      PathOfOneMore(base, Decimal(i));
      ItemErrorsIff(items[i], base + [Decimal(i)], check, d);
    }
    if i: nat :| i < |items| && ItemFault(items[i], base + [Decimal(i)], check, d) {
      PathOfOneMore(base, Decimal(i));
      ItemErrorsIff(items[i], base + [Decimal(i)], check, d);
      ItemErrorAt(items, PathOf(base), check, d, i);
    }
  }

  /** The text names provider `p`. */
  predicate Names(item: Json, p: ProviderId) {
    item == String(match p case Abuseipdb => "abuseipdb" case Virustotal => "virustotal")
  }

  /** What is wrong with entry `i` of a provider list. */
  ghost predicate ProviderFault(items: seq<Json>, i: nat, code: string)
    requires i < |items|
  {
    || (!items[i].String? && code == "invalid_type")
    || (items[i].String? && (forall p :: !Names(items[i], p)) && code == "unknown_provider")
    || ((exists p, j :: 0 <= j < i && Names(items[i], p) && Names(items[j], p)) && code == "duplicate_provider")
  }

  lemma NamesIs(item: Json, p: ProviderId)
    ensures Names(item, p) <==> NamedProvider(item) == Some(p)
  {
  }

  lemma ProviderErrorsIff(items: seq<Json>, i: nat, base: seq<string>, d: Detail)
    requires i < |items|
    ensures d in ProviderErrors(items[..i], items[i], PathOf(base)) <==>
            d.path == PathOf(base) && ProviderFault(items, i, d.code)
  {
    forall p, j | 0 <= j <= i ensures Names(items[j], p) <==> NamedProvider(items[j]) == Some(p) {
      NamesIs(items[j], p);
    }
    forall p ensures p in ProvidersNamed(items[..i]) <==> exists j :: 0 <= j < i && Names(items[j], p) {
      NamedMembers(items[..i], p);
      NamedEarlier(items, i, p);
    }
    assert (forall p :: !Names(items[i], p)) <==> NamedProvider(items[i]).None?;
  }

  lemma NamedEarlier(items: seq<Json>, i: nat, p: ProviderId)
    requires i <= |items|
    ensures (exists j :: 0 <= j < |items[..i]| && NamedProvider(items[..i][j]) == Some(p)) <==>
            (exists j :: 0 <= j < i && Names(items[j], p))
  {
    if j :| 0 <= j < i && Names(items[j], p) {
      assert items[..i][j] == items[j];
      NamesIs(items[j], p);
    }
    if j :| 0 <= j < |items[..i]| && NamedProvider(items[..i][j]) == Some(p) {
      assert items[..i][j] == items[j];
      NamesIs(items[j], p);
    }
  }

  lemma {:induction false} ProviderErrorFrom(items: seq<Json>, path: string, d: Detail) returns (i: nat)
    requires d in ProvidersErrors(items, path)
    ensures i < |items| && d in ProviderErrors(items[..i], items[i], Pointer(path, Decimal(i)))
  {
    i := |items| - 1;
    if d !in ProviderErrors(items[..i], items[i], Pointer(path, Decimal(i))) {
      var front := items[..i];
      i := ProviderErrorFrom(front, path, d);
      assert front[..i] == items[..i];
    }
  }

  lemma {:induction false} ProviderErrorAt(items: seq<Json>, path: string, d: Detail, i: nat)
    requires i < |items| && d in ProviderErrors(items[..i], items[i], Pointer(path, Decimal(i)))
    ensures d in ProvidersErrors(items, path)
  {
    var front := items[..|items| - 1];
    if i < |front| {
      assert front[..i] == items[..i];
      ProviderErrorAt(front, path, d, i);
    }
  }

  ghost predicate SomeProviderFault(items: seq<Json>, base: seq<string>, d: Detail) {
    exists i: nat :: i < |items| && d.path == PathOf(base + [Decimal(i)]) && ProviderFault(items, i, d.code)
  }

  lemma ProvidersErrorsIff(items: seq<Json>, base: seq<string>, d: Detail)
    ensures d in ProvidersErrors(items, PathOf(base)) <==> SomeProviderFault(items, base, d)
  {
    if d in ProvidersErrors(items, PathOf(base)) {
      var i := ProviderErrorFrom(items, PathOf(base), d);
      PathOfOneMore(base, Decimal(i));
      ProviderErrorsIff(items, i, base + [Decimal(i)], d);
    }
    if i: nat :| i < |items| && d.path == PathOf(base + [Decimal(i)]) && ProviderFault(items, i, d.code) {
      PathOfOneMore(base, Decimal(i));
      ProviderErrorsIff(items, i, base + [Decimal(i)], d);
      ProviderErrorAt(items, PathOf(base), d, i);
    }
  }

  // ---- The request ----

  ghost predicate RequestFieldFault(key: string, v: Json, maxBatch: nat, check: Check, d: Detail) {
    var here := PathOf([key]);
    || (key != "indicators" && key != "providers" && key != "include_raw" && d == Detail(here, "unknown_field"))
    || (key == "include_raw" && !v.Bool? && d == Detail(here, "invalid_type"))
    || ((key == "indicators" || key == "providers") && !v.Array? && d == Detail(here, "invalid_type"))
    || (key == "indicators" && v.Array?
        && (|| ((v.items == [] || |v.items| > maxBatch) && d == Detail(here, "invalid_batch_size"))
            || SomeItemFault(v.items, [key], check, d)))
    || (key == "providers" && v.Array?
        && (|| (v.items == [] && d == Detail(here, "empty_providers"))
            || SomeProviderFault(v.items, [key], d)))
  }

  /** Every error the request deserves. */
  ghost predicate RequestFault(json: Json, maxBatch: nat, check: Check, d: Detail) {
    if !json.Object? then d == Detail("", "invalid_type")
    else
      || SomeRequestFieldFault(json.fields, maxBatch, check, d)
      || (!HasKey(json.fields, "indicators") && d == Detail("/indicators", "required"))
  }

  lemma RequestFieldErrorsIff(field: (string, Json), maxBatch: nat, check: Check, d: Detail)
    requires UniqueKeys(field.1)
    ensures d in RequestFieldErrors(field, maxBatch, check) <==>
            RequestFieldFault(field.0, field.1, maxBatch, check, d)
  {
    var key, v := field.0, field.1;
    assert [] + [key] == [key];
    PathOfOneMore([], key);
    if v.Array? {
      UniqueKeysOwn(v);
      if key == "indicators" {
        ItemsErrorsIff(v.items, [key], check, d);
      } else if key == "providers" {
        ProvidersErrorsIff(v.items, [key], d);
      }
    }
  }

  lemma {:induction false} RequestFieldErrorFrom(fields: seq<(string, Json)>, maxBatch: nat, check: Check, d: Detail)
    returns (i: nat)
    requires d in RequestFieldsErrors(fields, maxBatch, check)
    ensures i < |fields| && d in RequestFieldErrors(fields[i], maxBatch, check)
  {
    i := |fields| - 1;
    if d !in RequestFieldErrors(fields[i], maxBatch, check) {
      i := RequestFieldErrorFrom(fields[..i], maxBatch, check, d);
    }
  }

  lemma {:induction false} RequestFieldErrorAt(fields: seq<(string, Json)>, maxBatch: nat, check: Check, d: Detail, i: nat)
    requires i < |fields| && d in RequestFieldErrors(fields[i], maxBatch, check)
    ensures d in RequestFieldsErrors(fields, maxBatch, check)
  {
    if i < |fields| - 1 {
      RequestFieldErrorAt(fields[..|fields| - 1], maxBatch, check, d, i);
    }
  }

  ghost predicate SomeRequestFieldFault(fields: seq<(string, Json)>, maxBatch: nat, check: Check, d: Detail) {
    exists i: nat :: i < |fields| && RequestFieldFault(fields[i].0, fields[i].1, maxBatch, check, d)
  }

  lemma RequestFieldsErrorsIff(fields: seq<(string, Json)>, maxBatch: nat, check: Check, d: Detail)
    requires forall i :: 0 <= i < |fields| ==> UniqueKeys(fields[i].1)
    ensures d in RequestFieldsErrors(fields, maxBatch, check) <==> SomeRequestFieldFault(fields, maxBatch, check, d)
  {
    if d in RequestFieldsErrors(fields, maxBatch, check) {
      var i := RequestFieldErrorFrom(fields, maxBatch, check, d);
      RequestFieldErrorsIff(fields[i], maxBatch, check, d);
    }
    if i: nat :| i < |fields| && RequestFieldFault(fields[i].0, fields[i].1, maxBatch, check, d) {
      RequestFieldErrorsIff(fields[i], maxBatch, check, d);
      RequestFieldErrorAt(fields, maxBatch, check, d, i);
    }
  }

  /** A request is told, of the errors it deserves, all up to the hundredth, and no others. */
  lemma ErrorsAreDeserved(json: Json, maxBatch: nat, check: Check, d: Detail)
    requires UniqueKeys(json)
    ensures d in RequestErrors(json, maxBatch, check) <==> RequestFault(json, maxBatch, check, d)
  {
    if json.Object? {
      var fields := json.fields;
      RequestFieldsErrorsIff(fields, maxBatch, check, d);
      FieldPresent(fields, "indicators", FIndicators);
    }
  }

  lemma FieldPresent(fields: seq<(string, Json)>, key: string, f: RequestField)
    requires forall text :: RequestFieldOf(text) == f <==> text == key
    ensures HasRequestField(fields, f) <==> HasKey(fields, key)
  {
    if i :| 0 <= i < |fields| && RequestFieldOf(fields[i].0) == f {
      assert fields[i].0 == key;
    }
    if i :| 0 <= i < |fields| && fields[i].0 == key {
      assert RequestFieldOf(fields[i].0) == f;
    }
  }

  /** So a refused request is told only errors it deserves, and all of them if they are fewer than a hundred. */
  lemma ToldErrorsAreDeserved(parsed: Option<Json>, maxBatch: nat, enabled: seq<ProviderId>, check: Check, d: Detail)
    requires Verdict(parsed, maxBatch, enabled, check).Err? && Verdict(parsed, maxBatch, enabled, check).error.Semantic?
    ensures var told := Verdict(parsed, maxBatch, enabled, check).error.details;
            && (d in told ==> RequestFault(parsed.value, maxBatch, check, d))
            && (|told| < 100 && RequestFault(parsed.value, maxBatch, check, d) ==> d in told)
  {
    AcceptsExactlyValid(parsed, maxBatch, enabled, check);
    ErrorsAreDeserved(parsed.value, maxBatch, check, d);
  }

  // ---- Order ----

  /** The errors of earlier fields come before those of later ones. */
  lemma {:induction false} FieldsInOrder(fields: seq<(string, Json)>, n: nat, maxBatch: nat, check: Check)
    requires n <= |fields|
    ensures RequestFieldsErrors(fields[..n], maxBatch, check) <= RequestFieldsErrors(fields, maxBatch, check)
  {
    if n < |fields| {
      FieldsInOrder(fields[..|fields| - 1], n, maxBatch, check);
      assert fields[..|fields| - 1][..n] == fields[..n];
    } else {
      assert fields[..n] == fields;
    }
  }

  /** The errors of earlier items come before those of later ones. */
  lemma {:induction false} ItemsInOrder(items: seq<Json>, n: nat, path: string, check: Check)
    requires n <= |items|
    ensures ItemsErrors(items[..n], path, check) <= ItemsErrors(items, path, check)
  {
    if n < |items| {
      ItemsInOrder(items[..|items| - 1], n, path, check);
      assert items[..|items| - 1][..n] == items[..n];
    } else {
      assert items[..n] == items;
    }
  }

  // ---- Accepted requests ----

  /** The request leaves out what it does not name: then the enabled providers, AbuseIPDB first, and no raw reports. */
  ghost predicate TakesDefaults(r: ValidatedRequest, fields: seq<(string, Json)>, enabled: seq<ProviderId>) {
    && (!HasKey(fields, "providers") ==>
          r.providers == if Abuseipdb in enabled && Virustotal in enabled then [Abuseipdb, Virustotal]
                         else if Abuseipdb in enabled then [Abuseipdb]
                         else if Virustotal in enabled then [Virustotal] else [])
    && (!HasKey(fields, "include_raw") ==> !r.includeRaw)
  }

  lemma DefaultsByName(r: ValidatedRequest, fields: seq<(string, Json)>, enabled: seq<ProviderId>)
    requires !HasRequestField(fields, FProviders) ==> r.providers == DefaultProviders(enabled)
    requires !HasRequestField(fields, FIncludeRaw) ==> !r.includeRaw
    ensures TakesDefaults(r, fields, enabled)
  {
    DefaultsAreEnabled(enabled);
    FieldPresent(fields, "providers", FProviders);
    FieldPresent(fields, "include_raw", FIncludeRaw);
  }

  /** An accepted request takes its defaults, and it has indicators. */
  lemma DefaultsOfAccepted(parsed: Option<Json>, maxBatch: nat, enabled: seq<ProviderId>, check: Check)
    requires Verdict(parsed, maxBatch, enabled, check).Ok?
    ensures HasKey(parsed.value.fields, "indicators")
    ensures TakesDefaults(Verdict(parsed, maxBatch, enabled, check).value, parsed.value.fields, enabled)
  {
    AcceptedDefaults(parsed, maxBatch, enabled, check);
    FieldPresent(parsed.value.fields, "indicators", FIndicators);
    DefaultsByName(Verdict(parsed, maxBatch, enabled, check).value, parsed.value.fields, enabled);
  }

  /** Its providers, if it names any, are the named ones in order; its raw choice is the one it makes. */
  lemma ChoicesOfAccepted(parsed: Option<Json>, maxBatch: nat, enabled: seq<ProviderId>, check: Check, k: nat)
    requires Verdict(parsed, maxBatch, enabled, check).Ok? && k < |parsed.value.fields|
    ensures var r := Verdict(parsed, maxBatch, enabled, check).value;
            var (key, v) := parsed.value.fields[k];
            && (key == "providers" ==>
                  v.Array? && |r.providers| == |v.items|
                  && forall i :: 0 <= i < |r.providers| ==> Names(v.items[i], r.providers[i]))
            && (key == "include_raw" ==> v == Bool(r.includeRaw))
            && (key == "indicators" ==> v.Array? && |r.indicators| == |v.items|)
  {
    AcceptedMeaning(parsed, maxBatch, enabled, check, k);
  }

  /** An accepted indicator is what the check made of the item's value under the kind its type names. */
  lemma AcceptedIndicatorIs(item: Json, check: Check, indicator: Indicator)
    requires OwnKeysDistinct(item) && ItemIndicator(item, check) == Some(indicator)
    ensures exists k, i :: 0 <= i < |item.fields| && Declares(item.fields, k) && item.fields[i].0 == "value"
                           && item.fields[i].1.String? && check(k, item.fields[i].1.s) == Ok(indicator)
  {
    var kind := DeclaredKind(item.fields);
    var i := IndicatorFrom(kind, item.fields, check);
    DeclaredKindIs(item.fields, kind.value);
  }

  lemma {:induction false} IndicatorFrom(kind: Option<IndicatorKind>, fields: seq<(string, Json)>, check: Check) returns (i: nat)
    requires FieldsIndicator(kind, fields, check).Some?
    ensures kind.Some? && i < |fields| && fields[i].0 == "value" && fields[i].1.String?
    ensures check(kind.value, fields[i].1.s) == Ok(FieldsIndicator(kind, fields, check).value)
  {
    var n := |fields| - 1;
    if FieldIndicator(kind, fields[n], check).Some? {
      i := n;
    } else {
      i := IndicatorFrom(kind, fields[..n], check);
    }
  }
}
