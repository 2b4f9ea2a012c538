/**
 Request validation over parsed JSON: the whole list of errors a request deserves, in request order,
 what a valid request is, and what it means. The check of one indicator's text is a parameter.
 */
module Domain {
  import opened Basics

  /** Objects keep their fields in submitted order. */
  datatype Json =
    | Null
    | Bool(b: bool)
    | Number
    | String(s: string)
    | Array(items: seq<Json>)
    | Object(fields: seq<(string, Json)>)

  datatype HashAlgorithm = Md5 | Sha1 | Sha256

  datatype Indicator = Indicator(
    kind: IndicatorKind, value: string, lookupValue: string, algorithm: Option<HashAlgorithm>)

  type Check = (IndicatorKind, string) -> Result<Indicator, string>

  datatype Detail = Detail(path: string, code: string)

  datatype ValidatedRequest = ValidatedRequest(
    indicators: seq<Indicator>, providers: seq<ProviderId>, includeRaw: bool)

  datatype RequestError = InvalidJson | Semantic(details: seq<Detail>)

  const MAX_DETAILS: nat := 100
  const MAX_VALUE_BYTES: nat := 4096

  // ---- Parsing guarantees ----

  predicate DistinctKeys(fields: seq<(string, Json)>) {
    forall i, j :: 0 <= i < j < |fields| ==> fields[i].0 != fields[j].0
  }

  /** The parser refuses an object with a repeated key, at any depth. */
  predicate UniqueKeys(j: Json) {
    match j
    case Array(items) => forall i :: 0 <= i < |items| ==> UniqueKeys(items[i])
    case Object(fields) => DistinctKeys(fields) && forall i :: 0 <= i < |fields| ==> UniqueKeys(fields[i].1)
    case _ => true
  }

  // ---- Paths ----

  function Replace(s: string, c: char, text: string): string {
    if s == [] then [] else (if s[0] == c then text else [s[0]]) + Replace(s[1..], c, text)
  }

  function Escape(field: string): string {
    Replace(Replace(field, '~', "~0"), '/', "~1")
  }

  function Pointer(parent: string, field: string): string {
    parent + "/" + Escape(field)
  }

  /** The path of a field nested under the named ones, outermost first. */
  function PathOf(fields: seq<string>): string {
    if fields == [] then "" else Pointer(PathOf(fields[..|fields| - 1]), fields[|fields| - 1])
  }

  function Unescape(s: string): string {
    if |s| >= 2 && s[0] == '~' && s[1] == '0' then ['~'] + Unescape(s[2..])
    else if |s| >= 2 && s[0] == '~' && s[1] == '1' then ['/'] + Unescape(s[2..])
    else if s == [] then []
    else [s[0]] + Unescape(s[1..])
  }

  function Decimal(n: nat): string {
    if n < 10 then [('0' as int + n) as char] else Decimal(n / 10) + [('0' as int + n % 10) as char]
  }

  // ---- Words ----

  datatype RequestField = FIndicators | FProviders | FIncludeRaw | FOther

  function RequestFieldOf(key: string): RequestField {
    if key == "indicators" then FIndicators
    else if key == "providers" then FProviders
    else if key == "include_raw" then FIncludeRaw
    else FOther
  }

  datatype ItemField = FType | FValue | FUnknown

  function ItemFieldOf(key: string): ItemField {
    if key == "type" then FType else if key == "value" then FValue else FUnknown
  }

  function ParseKind(text: string): Option<IndicatorKind> {
    if text == "ip" then Some(Ip) else if text == "url" then Some(Url) else if text == "hash" then Some(Hash) else None
  }

  function ParseProvider(text: string): Option<ProviderId> {
    if text == "abuseipdb" then Some(Abuseipdb) else if text == "virustotal" then Some(Virustotal) else None
  }

  function CharBytes(c: char): nat {
    var code := c as int;
    if code < 0x80 then 1 else if code < 0x800 then 2 else if code < 0x1_0000 then 3 else 4
  }

  /** Length in UTF-8 bytes. */
  function Utf8Length(s: string): nat {
    if s == [] then 0 else Utf8Length(s[..|s| - 1]) + CharBytes(s[|s| - 1])
  }

  // ---- One item ----

  /** The kind named by the first `type` field, whatever comes before it. */
  function DeclaredKind(fields: seq<(string, Json)>): Option<IndicatorKind> {
    if fields == [] then None
    else if ItemFieldOf(fields[0].0) == FType then
      if fields[0].1.String? then ParseKind(fields[0].1.s) else None
    else DeclaredKind(fields[1..])
  }

  function ItemFieldErrors(kind: Option<IndicatorKind>, field: (string, Json), path: string, check: Check): seq<Detail> {
    var at := Pointer(path, field.0);
    match ItemFieldOf(field.0)
    case FType =>
      if !field.1.String? then [Detail(at, "invalid_type")]
      else if kind.None? then [Detail(at, "invalid_indicator_type")]
      else []
    case FValue =>
      if !field.1.String? then [Detail(at, "invalid_type")]
      else if Utf8Length(field.1.s) == 0 || Utf8Length(field.1.s) > MAX_VALUE_BYTES then [Detail(at, "invalid_value_length")]
      else if kind.Some? && check(kind.value, field.1.s).Err? then [Detail(at, check(kind.value, field.1.s).error)]
      else []
    case FUnknown => [Detail(at, "unknown_field")]
  }

  function ItemFieldsErrors(kind: Option<IndicatorKind>, fields: seq<(string, Json)>, path: string, check: Check)
    : seq<Detail>
  {
    if fields == [] then []
    else ItemFieldsErrors(kind, fields[..|fields| - 1], path, check)
         + ItemFieldErrors(kind, fields[|fields| - 1], path, check)
  }

  predicate HasItemField(fields: seq<(string, Json)>, f: ItemField) {
    exists i :: 0 <= i < |fields| && ItemFieldOf(fields[i].0) == f
  }

  function Missing(present: bool, path: string): seq<Detail> {
    if present then [] else [Detail(path, "required")]
  }

  function ItemErrors(item: Json, path: string, check: Check): seq<Detail> {
    if !item.Object? then [Detail(path, "invalid_type")]
    else
      ItemFieldsErrors(DeclaredKind(item.fields), item.fields, path, check)
      + Missing(HasItemField(item.fields, FType), Pointer(path, "type"))
      + Missing(HasItemField(item.fields, FValue), Pointer(path, "value"))
  }

  /** What one `value` field validates to, if it does. */
  function FieldIndicator(kind: Option<IndicatorKind>, field: (string, Json), check: Check): Option<Indicator> {
    if ItemFieldOf(field.0) == FValue && field.1.String? && 1 <= Utf8Length(field.1.s) <= MAX_VALUE_BYTES
       && kind.Some? && check(kind.value, field.1.s).Ok?
    then Some(check(kind.value, field.1.s).value) else None
  }

  function FieldsIndicator(kind: Option<IndicatorKind>, fields: seq<(string, Json)>, check: Check): Option<Indicator> {
    if fields == [] then None
    else
      var last := FieldIndicator(kind, fields[|fields| - 1], check);
      if last.Some? then last else FieldsIndicator(kind, fields[..|fields| - 1], check)
  }

  /** What `validate_item` returns. */
  function ItemIndicator(item: Json, check: Check): Option<Indicator> {
    if item.Object? then FieldsIndicator(DeclaredKind(item.fields), item.fields, check) else None
  }

  // ---- Lists ----

  function ItemsErrors(items: seq<Json>, path: string, check: Check): seq<Detail> {
    if items == [] then []
    else
      var n := |items| - 1;
      ItemsErrors(items[..n], path, check) + ItemErrors(items[n], Pointer(path, Decimal(n)), check)
  }

  function ItemsIndicators(items: seq<Json>, check: Check): seq<Indicator> {
    if items == [] then []
    else
      var last := ItemIndicator(items[|items| - 1], check);
      ItemsIndicators(items[..|items| - 1], check) + (if last.Some? then [last.value] else [])
  }

  function NamedProvider(item: Json): Option<ProviderId> {
    if item.String? then ParseProvider(item.s) else None
  }

  /** The known providers in order of first mention. */
  function ProvidersNamed(items: seq<Json>): seq<ProviderId> {
    if items == [] then []
    else
      var before := ProvidersNamed(items[..|items| - 1]);
      var p := NamedProvider(items[|items| - 1]);
      if p.Some? && p.value !in before then before + [p.value] else before
  }

  function ProviderErrors(before: seq<Json>, item: Json, path: string): seq<Detail> {
    if !item.String? then [Detail(path, "invalid_type")]
    else if ParseProvider(item.s).None? then [Detail(path, "unknown_provider")]
    else if ParseProvider(item.s).value in ProvidersNamed(before) then [Detail(path, "duplicate_provider")]
    else []
  }

  function ProvidersErrors(items: seq<Json>, path: string): seq<Detail> {
    if items == [] then []
    else
      var n := |items| - 1;
      ProvidersErrors(items[..n], path) + ProviderErrors(items[..n], items[n], Pointer(path, Decimal(n)))
  }

  // ---- The request ----

  function IndicatorsErrors(value: Json, path: string, maxBatch: nat, check: Check): seq<Detail> {
    if !value.Array? then [Detail(path, "invalid_type")]
    else
      (if value.items == [] || |value.items| > maxBatch then [Detail(path, "invalid_batch_size")] else [])
      + ItemsErrors(value.items, path, check)
  }

  function ProviderListErrors(value: Json, path: string): seq<Detail> {
    if !value.Array? then [Detail(path, "invalid_type")]
    else (if value.items == [] then [Detail(path, "empty_providers")] else []) + ProvidersErrors(value.items, path)
  }

  function RequestFieldErrors(field: (string, Json), maxBatch: nat, check: Check): seq<Detail> {
    var at := Pointer("", field.0);
    match RequestFieldOf(field.0)
    case FIndicators => IndicatorsErrors(field.1, at, maxBatch, check)
    case FProviders => ProviderListErrors(field.1, at)
    case FIncludeRaw => if field.1.Bool? then [] else [Detail(at, "invalid_type")]
    case FOther => [Detail(at, "unknown_field")]
  }

  function RequestFieldsErrors(fields: seq<(string, Json)>, maxBatch: nat, check: Check): seq<Detail> {
    if fields == [] then []
    else RequestFieldsErrors(fields[..|fields| - 1], maxBatch, check)
         + RequestFieldErrors(fields[|fields| - 1], maxBatch, check)
  }

  predicate HasRequestField(fields: seq<(string, Json)>, f: RequestField) {
    exists i :: 0 <= i < |fields| && RequestFieldOf(fields[i].0) == f
  }

  /** Every error of the request, with no limit on their number. */
  function RequestErrors(json: Json, maxBatch: nat, check: Check): seq<Detail> {
    if !json.Object? then [Detail("", "invalid_type")]
    else RequestFieldsErrors(json.fields, maxBatch, check)
         + Missing(HasRequestField(json.fields, FIndicators), "/indicators")
  }

  /** The enabled providers, sorted and without repetition: the default selection. */
  function DefaultProviders(enabled: seq<ProviderId>): seq<ProviderId> {
    (if Abuseipdb in enabled then [Abuseipdb] else []) + (if Virustotal in enabled then [Virustotal] else [])
  }

  /** What one field adds to the request: indicators append, providers replace. */
  function Folded(before: ValidatedRequest, field: (string, Json), check: Check): ValidatedRequest {
    match RequestFieldOf(field.0)
    case FIndicators =>
      if field.1.Array? then before.(indicators := before.indicators + ItemsIndicators(field.1.items, check)) else before
    case FProviders => before.(providers := if field.1.Array? then ProvidersNamed(field.1.items) else [])
    case FIncludeRaw => if field.1.Bool? then before.(includeRaw := field.1.b) else before
    case FOther => before
  }

  function Accumulated(fields: seq<(string, Json)>, enabled: seq<ProviderId>, check: Check): ValidatedRequest {
    if fields == [] then ValidatedRequest([], DefaultProviders(enabled), false)
    else Folded(Accumulated(fields[..|fields| - 1], enabled, check), fields[|fields| - 1], check)
  }

  /** The answer `validate_request` gives for parsed input, or for input that did not parse. */
  function Verdict(parsed: Option<Json>, maxBatch: nat, enabled: seq<ProviderId>, check: Check)
    : Result<ValidatedRequest, RequestError>
  {
    if parsed.None? || !UniqueKeys(parsed.value) then Err(InvalidJson)
    else
      var errors := RequestErrors(parsed.value, maxBatch, check);
      if errors == [] then Ok(Accumulated(parsed.value.fields, enabled, check))
      else Err(Semantic(errors[..Min(MAX_DETAILS, |errors|)]))
  }

  // ---- What a valid request is ----

  /** A kind at position `t` and a text at position `v` that validate together. */
  predicate ValidAt(fields: seq<(string, Json)>, t: int, v: int, check: Check) {
    0 <= t < |fields| && 0 <= v < |fields|
    && ItemFieldOf(fields[t].0) == FType && ItemFieldOf(fields[v].0) == FValue
    && fields[t].1.String? && ParseKind(fields[t].1.s).Some?
    && fields[v].1.String? && 1 <= Utf8Length(fields[v].1.s) <= MAX_VALUE_BYTES
    && check(ParseKind(fields[t].1.s).value, fields[v].1.s).Ok?
  }

  ghost predicate ValidItem(item: Json, check: Check) {
    item.Object?
    && (forall i :: 0 <= i < |item.fields| ==> ItemFieldOf(item.fields[i].0) != FUnknown)
    && exists t, v :: ValidAt(item.fields, t, v, check)
  }

  ghost predicate AllItemsValid(items: seq<Json>, check: Check) {
    forall i :: 0 <= i < |items| ==> ValidItem(items[i], check)
  }

  /** Each entry names a provider, and no two the same. */
  ghost predicate NamedOnce(items: seq<Json>) {
    (forall i :: 0 <= i < |items| ==> NamedProvider(items[i]).Some?)
    && forall i, j :: 0 <= i < j < |items| ==> NamedProvider(items[i]) != NamedProvider(items[j])
  }

  ghost predicate ValidField(field: (string, Json), maxBatch: nat, check: Check) {
    match RequestFieldOf(field.0)
    case FIndicators => field.1.Array? && 1 <= |field.1.items| <= maxBatch && AllItemsValid(field.1.items, check)
    case FProviders => field.1.Array? && field.1.items != [] && NamedOnce(field.1.items)
    case FIncludeRaw => field.1.Bool?
    case FOther => false
  }

  /** Known fields only, each of them valid, with indicators among them. */
  ghost predicate ValidRequest(json: Json, maxBatch: nat, check: Check) {
    json.Object?
    && (forall i :: 0 <= i < |json.fields| ==> ValidField(json.fields[i], maxBatch, check))
    && HasRequestField(json.fields, FIndicators)
  }
}
