/**
 * The request signer: an HMAC-SHA256 scheme in the manner of AWS Signature
 * Version 4. A request is reduced to a canonical request, that to a
 * string-to-sign, and the string-to-sign is signed with a key derived from
 * the secret key, the date, the region and the service name.
 */
module Signing {
  import opened Base
  import opened Dicts
  import opened JsValues
  import opened Text
  import opened Order
  import opened Escape
  import opened Query
  import opened Host

  const Algorithm := "HMAC-SHA256"
  const V4Identifier := "request"
  const DateHeader := "X-Date"
  const TokenHeader := "X-Security-Token"
  const ContentSha256Header := "X-Content-Sha256"
  const AuthorizationHeader := "Authorization"

  /** Lower-cased header names that are never signed. */
  const UnsignableHeaders: seq<string> :=
    ["authorization", "content-type", "content-length", "user-agent", "presigned-expires", "expect"]

  datatype Credentials = Credentials(accessKeyId: string, secretKey: string, sessionToken: Option<string>)

  /** `isSignableHeader(key)`: `unsignableHeaders.indexOf(key) < 0`. */
  predicate IsSignableHeader(key: string) {
    key !in UnsignableHeaders
  }

  // ---------------------------------------------------------------------
  // Parameters

  /** The property holds a value that is neither `undefined` nor `null`. */
  predicate HasValue(d: Dict<Value>, k: string) {
    Get(d, k).Some? && !Nullish(Get(d, k).value)
  }

  /** The keys of `d` whose values are not null or undefined, in key order. */
  function ValuedKeys(d: Dict<Value>): seq<string> {
    Filter(Keys(d), ValuedIn(d))
  }

  function ValuedIn(d: Dict<Value>): string -> bool {
    k => HasValue(d, k)
  }

  lemma ValuedKeysMembers(d: Dict<Value>, x: string)
    ensures x in ValuedKeys(d) <==> HasValue(d, x)
  {
    if HasValue(d, x) {
      FilterKeeps(Keys(d), ValuedIn(d), x);
    }
  }

  /** The object built by assigning `d[k]` for each key of `keys` in turn. */
  function Table(keys: seq<string>, d: Dict<Value>): (r: Dict<Value>)
    ensures |r| == |keys|
  {
    seq(|keys|, i requires 0 <= i < |keys| => (keys[i], Get(d, keys[i]).GetOr(Undefined)))
  }

  lemma TableKeys(keys: seq<string>, d: Dict<Value>)
    ensures Keys(Table(keys, d)) == keys
  {
    KeysAt(Table(keys, d));
  }

  lemma TableGet(keys: seq<string>, d: Dict<Value>, k: string)
    requires forall x :: x in keys ==> Get(d, x).Some?
    ensures Get(Table(keys, d), k) == if k in keys then Get(d, k) else None
  {
    TableKeys(keys, d);
  }

  /**
   * `sortParams(params)`: a new object with the properties of `params` that
   * hold a value, keys in ascending order.
   */
  function SortParams(params: Option<Dict<Value>>): (r: Dict<Value>)
    ensures Sorted(Keys(r))
  {
    if params.None? then []
    else
      var keys := SortStrings(ValuedKeys(params.value));
      TableKeys(keys, params.value);
      Table(keys, params.value)
  }

  /** The sorted copy holds exactly the properties that have a value, with the same values. */
  lemma SortParamsGet(params: Option<Dict<Value>>, k: string)
    ensures Get(SortParams(params), k) == if params.Some? && HasValue(params.value, k) then Get(params.value, k) else None
  {
    if params.Some? {
      var d := params.value;
      var keys := SortStrings(ValuedKeys(d));
      forall x | x in keys ensures Get(d, x).Some? {
        assert x in multiset(ValuedKeys(d));
        ValuedKeysMembers(d, x);
      }
      assert k in keys <==> k in multiset(ValuedKeys(d));
      ValuedKeysMembers(d, k);
      TableGet(keys, d, k);
    }
  }

  lemma {:induction false} FilterDistinct(s: seq<string>, p: string -> bool)
    requires Distinct(s)
    ensures Distinct(Filter(s, p))
  {
    if s != [] {
      FilterDistinct(s[1..], p);
      var rest := Filter(s[1..], p);
      assert s[0] !in s[1..];
      assert s[0] !in rest;
      var r := (if p(s[0]) then [s[0]] else []) + rest;
      assert forall i :: 0 <= i < |r| ==> r[i] in r;
    }
  }

  lemma {:induction false} DistinctCount(s: seq<string>, x: string)
    requires Distinct(s)
    ensures multiset(s)[x] == if x in s then 1 else 0
  {
    if s != [] {
      assert s == [s[0]] + s[1..];
      assert Distinct(s[1..]);
      DistinctCount(s[1..], x);
      assert s[0] !in s[1..];
    }
  }

  lemma ValuedKeysDistinct(d: Dict<Value>)
    requires WellFormed(d)
    ensures Distinct(ValuedKeys(d))
  {
    WellFormedDistinct(d);
    FilterDistinct(Keys(d), ValuedIn(d));
  }

  lemma ValuedKeysPermutation(a: Dict<Value>, b: Dict<Value>)
    requires WellFormed(a) && WellFormed(b)
    requires forall k :: HasValue(a, k) <==> HasValue(b, k)
    ensures multiset(ValuedKeys(a)) == multiset(ValuedKeys(b))
  {
    var fa := ValuedKeys(a);
    var fb := ValuedKeys(b);
    ValuedKeysDistinct(a);
    ValuedKeysDistinct(b);
    forall x ensures multiset(fa)[x] == multiset(fb)[x] {
      ValuedKeysMembers(a, x);
      ValuedKeysMembers(b, x);
      DistinctCount(fa, x);
      DistinctCount(fb, x);
    }
  }

  /**
   * Two parameter objects with the same properties, whatever their key
   * order, are signed with the same sorted parameters.
   */
  lemma SortParamsIgnoresOrder(a: Dict<Value>, b: Dict<Value>)
    requires WellFormed(a) && WellFormed(b)
    requires forall k :: Get(a, k) == Get(b, k)
    ensures SortParams(Some(a)) == SortParams(Some(b))
  {
    forall k ensures HasValue(a, k) <==> HasValue(b, k) {
      assert Get(a, k) == Get(b, k);
    }
    ValuedKeysPermutation(a, b);
    SortIgnoresOrder(ValuedKeys(a), ValuedKeys(b));
    TableSame(SortStrings(ValuedKeys(a)), a, b);
  }

  lemma TableSame(keys: seq<string>, a: Dict<Value>, b: Dict<Value>)
    requires forall k :: Get(a, k) == Get(b, k)
    ensures Table(keys, a) == Table(keys, b)
  {
    assert forall i :: 0 <= i < |keys| ==> Table(keys, a)[i] == Table(keys, b)[i];
  }

  // ---------------------------------------------------------------------
  // Headers

  /** `canonicalHeaderValues(v)`: white-space runs become one space, ends are trimmed. */
  function CanonicalHeaderValue(v: string): (r: string)
    ensures IsCollapsed(r)
    ensures r == [] || (!IsSpace(r[0]) && !IsSpace(r[|r| - 1]))
  {
    CollapseIsCollapsed(v);
    TrimCollapsed(Collapse(v));
    Trim(Collapse(v))
  }

  /** Normalising a header value a second time changes nothing. */
  lemma CanonicalHeaderValueIdempotent(v: string)
    ensures CanonicalHeaderValue(CanonicalHeaderValue(v)) == CanonicalHeaderValue(v)
  {
    var r := CanonicalHeaderValue(v);
    CollapseCollapsed(r);
  }

  /** Normalisation touches only white space: the other characters stay, in order. */
  lemma CanonicalHeaderValueKeepsText(v: string)
    ensures NonSpace(CanonicalHeaderValue(v)) == NonSpace(v)
  {
    NonSpaceCollapse(v);
    NonSpaceTrimStart(Collapse(v));
    NonSpaceTrimEnd(TrimStart(Collapse(v)));
  }

  /** The lower-cased name of a header entry. */
  function HeaderName(entry: (string, Value)): string {
    Lower(entry.0)
  }

  function LineName(line: (string, string)): string {
    line.0
  }

  function InvalidHeader(key: string): string {
    "Header " + key + " contains invalid value"
  }

  /**
   * The `name:value` lines of `canonicalHeaders` for the given (sorted)
   * entries, in order; the first signable entry without a value fails.
   */
  function CanonicalLines(items: seq<(string, Value)>): Result<seq<(string, string)>, string>
    decreases |items|
  {
    if items == [] then Success([])
    else
      var last := items[|items| - 1];
      match CanonicalLines(items[..|items| - 1])
      case Failure(e) => Failure(e)
      case Success(lines) =>
        var key := HeaderName(last);
        if !IsSignableHeader(key) then Success(lines)
        else if Nullish(last.1) then Failure(InvalidHeader(key))
        else Success(lines + [(key, CanonicalHeaderValue(ToStr(last.1)))])
  }

  function LineTexts(lines: seq<(string, string)>): (r: seq<string>)
    ensures |r| == |lines|
  {
    seq(|lines|, i requires 0 <= i < |lines| => lines[i].0 + ":" + lines[i].1)
  }

  /** The header block emitted for entries already in order: one line per signable header, joined with line breaks. */
  function CanonicalHeaderBlock(items: seq<(string, Value)>): Result<string, string> {
    match CanonicalLines(items)
    case Success(lines) => Success(Join(LineTexts(lines), "\n"))
    case Failure(e) => Failure(e)
  }

  /** `canonicalHeaders()` on a header object. */
  function CanonicalHeadersOf(h: Dict<Value>): Result<string, string> {
    CanonicalHeaderBlock(SortBy(h, HeaderName))
  }

  /** The names `signedHeaders()` lists, in order. */
  function SignedHeaderNames(h: Dict<Value>): seq<string> {
    SortStrings(Filter(KeySeq(h, HeaderName), IsSignableHeader))
  }

  /** `signedHeaders()` on a header object. */
  function SignedHeadersOf(h: Dict<Value>): string {
    Join(SignedHeaderNames(h), ";")
  }

  lemma {:induction false} CanonicalLinesNames(items: seq<(string, Value)>)
    requires CanonicalLines(items).Success?
    ensures KeySeq(CanonicalLines(items).value, LineName) == Filter(KeySeq(items, HeaderName), IsSignableHeader)
    decreases |items|
  {
    if items != [] {
      var init := items[..|items| - 1];
      var last := items[|items| - 1];
      var key := HeaderName(last);
      CanonicalLinesNames(init);
      var lines := CanonicalLines(init).value;
      var added := if IsSignableHeader(key) then [(key, CanonicalHeaderValue(ToStr(last.1)))] else [];
      assert CanonicalLines(items).value == lines + added;
      KeySeqLast(items, HeaderName);
      FilterSnoc(KeySeq(init, HeaderName), key, IsSignableHeader);
      if IsSignableHeader(key) {
        KeySeqSnoc(lines, added[0], LineName);
        assert lines + added == lines + [added[0]];
      } else {
        assert lines + added == lines;
      }
    }
  }

  /** One more header extends the signable names by its own name exactly when that name is signable. */
  lemma SignableNamesNext(h: seq<(string, Value)>, i: nat)
    requires i < |h|
    ensures Filter(KeySeq(h[..i + 1], HeaderName), IsSignableHeader)
            == Filter(KeySeq(h[..i], HeaderName), IsSignableHeader)
               + (if IsSignableHeader(HeaderName(h[i])) then [HeaderName(h[i])] else [])
  {
    assert h[..i + 1] == h[..i] + [h[i]];
    KeySeqSnoc(h[..i], h[i], HeaderName);
    FilterSnoc(KeySeq(h[..i], HeaderName), HeaderName(h[i]), IsSignableHeader);
  }

  /**
   * The canonical headers name, line by line and in the same order, exactly
   * the headers that the signed-headers list names.
   */
  lemma CanonicalNamesAreSigned(h: Dict<Value>)
    requires CanonicalHeadersOf(h).Success?
    ensures KeySeq(CanonicalLines(SortBy(h, HeaderName)).value, LineName) == SignedHeaderNames(h)
  {
    CanonicalLinesNames(SortBy(h, HeaderName));
    KeysOfSortBy(h, HeaderName);
    FilterSortCommute(KeySeq(h, HeaderName), IsSignableHeader);
  }

  /** A signable entry without a value. */
  predicate Invalid(entry: (string, Value)) {
    IsSignableHeader(HeaderName(entry)) && Nullish(entry.1)
  }

  /** Entry `i` is invalid and no entry before it is. */
  predicate FirstInvalid(items: seq<(string, Value)>, i: int) {
    0 <= i < |items| && Invalid(items[i]) && forall j :: 0 <= j < i ==> !Invalid(items[j])
  }

  /** Emitting fails exactly on an invalid entry, and names the first one, where the loop stops. */
  lemma {:induction false} CanonicalLinesFail(items: seq<(string, Value)>)
    ensures CanonicalLines(items).Failure? <==> exists i :: 0 <= i < |items| && Invalid(items[i])
    ensures CanonicalLines(items).Failure? ==>
      exists i :: FirstInvalid(items, i) && CanonicalLines(items).error == InvalidHeader(HeaderName(items[i]))
    decreases |items|
  {
    if items != [] {
      var init := items[..|items| - 1];
      CanonicalLinesFail(init);
      assert forall i :: 0 <= i < |init| ==> init[i] == items[i];
      if CanonicalLines(init).Failure? {
        var i :| FirstInvalid(init, i) && CanonicalLines(init).error == InvalidHeader(HeaderName(init[i]));
        assert FirstInvalid(items, i);
      } else if CanonicalLines(items).Failure? {
        assert FirstInvalid(items, |items| - 1);
      }
      if exists i :: 0 <= i < |items| && Invalid(items[i]) {
        var i :| 0 <= i < |items| && Invalid(items[i]);
        if i < |init| {
          assert Invalid(init[i]);
        }
      }
    }
  }

  /** The sorted copy holds the same entries. */
  lemma SortedMembers(h: Dict<Value>)
    ensures forall e :: e in SortBy(h, HeaderName) <==> e in h
  {
    var sorted := SortBy(h, HeaderName);
    forall e ensures e in sorted <==> e in h {
      assert e in sorted <==> e in multiset(sorted);
      assert e in h <==> e in multiset(h);
    }
  }

  /**
   * `canonicalHeaders()` throws exactly when some signable header has a
   * null or undefined value, and names such a header; which one is
   * `CanonicalHeadersFirstInvalid`.
   */
  lemma CanonicalHeadersFail(h: Dict<Value>)
    ensures CanonicalHeadersOf(h).Failure? <==> exists e :: e in h && Invalid(e)
    ensures CanonicalHeadersOf(h).Failure? ==>
      exists e :: e in h && Invalid(e) && CanonicalHeadersOf(h).error == InvalidHeader(HeaderName(e))
  {
    var sorted := SortBy(h, HeaderName);
    CanonicalLinesFail(sorted);
    SortedMembers(h);
    if exists e :: e in h && Invalid(e) {
      var e :| e in h && Invalid(e);
      assert e in sorted;
      var i :| 0 <= i < |sorted| && sorted[i] == e;
    }
  }

  /**
   * The header `canonicalHeaders()` names when it throws is the first
   * invalid one in the sorted copy, where its `forEach` stops.
   */
  lemma CanonicalHeadersFirstInvalid(h: Dict<Value>)
    requires CanonicalHeadersOf(h).Failure?
    ensures exists i :: FirstInvalid(SortBy(h, HeaderName), i)
                     && CanonicalHeadersOf(h).error == InvalidHeader(HeaderName(SortBy(h, HeaderName)[i]))
  {
    CanonicalLinesFail(SortBy(h, HeaderName));
  }

  // ---------------------------------------------------------------------
  // Body hash, date, scope

  /** `hexEncodedHash(s).toString()`: the SHA-256 of the UTF-8 text, in lower-case hexadecimal. */
  function HexHash(rt: Runtime, s: string): (r: string)
    ensures |r| == 64
  {
    Hex(rt.sha256(Utf8Bytes(s)))
  }

  /** `hexEncodedBodyHash()`. */
  function HexEncodedBodyHash(rt: Runtime, headers: Dict<Value>, body: Body): string {
    var given := Get(headers, ContentSha256Header);
    if given.Some? && Truthy(given.value) then ToStr(given.value)
    else if BodyTruthy(body) then HexHash(rt, QueryParamsToString(RecordView(body)))
    else HexHash(rt, "")
  }

  predicate IsDigit(c: char) {
    '0' <= c <= '9'
  }

  /** `iso8601(date)`, given `date.toISOString()`: a final `.sssZ` becomes `Z`. */
  function Iso8601(iso: string): string {
    var n := |iso|;
    if n >= 5 && iso[n - 5] == '.' && IsDigit(iso[n - 4]) && IsDigit(iso[n - 3]) && IsDigit(iso[n - 2]) && iso[n - 1] == 'Z'
    then iso[..n - 5] + "Z"
    else iso
  }

  /** `.replace(/[:\-]|\.\d{3}/g, '')`, scanning from the left. */
  function StripDateTime(s: string): string
    decreases |s|
  {
    if s == [] then []
    else if s[0] == ':' || s[0] == '-' then StripDateTime(s[1..])
    else if |s| >= 4 && s[0] == '.' && IsDigit(s[1]) && IsDigit(s[2]) && IsDigit(s[3]) then StripDateTime(s[4..])
    else [s[0]] + StripDateTime(s[1..])
  }

  /** `getDateTime(date)`. */
  function GetDateTime(iso: string): string {
    StripDateTime(Iso8601(iso))
  }

  predicate AllDigits(s: string, lo: nat, hi: nat)
    requires lo <= hi <= |s|
  {
    forall i :: lo <= i < hi ==> IsDigit(s[i])
  }

  /** What `toISOString()` returns for years 0 to 9999: `YYYY-MM-DDTHH:mm:ss.sssZ`. */
  predicate IsIsoString(s: string) {
    && |s| == 24
    && AllDigits(s, 0, 4) && s[4] == '-' && AllDigits(s, 5, 7) && s[7] == '-' && AllDigits(s, 8, 10)
    && s[10] == 'T' && AllDigits(s, 11, 13) && s[13] == ':' && AllDigits(s, 14, 16) && s[16] == ':'
    && AllDigits(s, 17, 19) && s[19] == '.' && AllDigits(s, 20, 23) && s[23] == 'Z'
  }

  /** The basic ISO 8601 form `YYYYMMDDTHHMMSSZ`. */
  predicate IsBasicDateTime(s: string) {
    |s| == 16 && AllDigits(s, 0, 8) && s[8] == 'T' && AllDigits(s, 9, 15) && s[15] == 'Z'
  }

  lemma {:induction false} StripKeeps(a: string, rest: string)
    requires forall i :: 0 <= i < |a| ==> a[i] != ':' && a[i] != '-' && a[i] != '.'
    ensures StripDateTime(a + rest) == a + StripDateTime(rest)
  {
    if a == [] {
      assert a + rest == rest;
    } else {
      assert (a + rest)[1..] == a[1..] + rest;
      StripKeeps(a[1..], rest);
    }
  }

  lemma StripDrops(c: char, rest: string)
    requires c == ':' || c == '-'
    ensures StripDateTime([c] + rest) == StripDateTime(rest)
  {
    assert ([c] + rest)[1..] == rest;
  }

  lemma StripTime(s: string)
    requires IsIsoString(s)
    ensures StripDateTime(s[13..19] + "Z") == s[14..16] + s[17..19] + "Z"
  {
    var p6 := s[17..19] + "Z";
    var p5 := [s[16]] + p6;
    var p4 := s[14..16] + p5;
    assert s[13..19] + "Z" == [s[13]] + p4;
    StripKeeps(p6, []);
    assert p6 + [] == p6;
    StripDrops(s[16], p6);
    StripKeeps(s[14..16], p5);
    StripDrops(s[13], p4);
  }

  lemma StripDate(s: string)
    requires IsIsoString(s)
    ensures StripDateTime(s[..19] + "Z") == s[0..4] + s[5..7] + s[8..13] + StripDateTime(s[13..19] + "Z")
  {
    var p3 := s[13..19] + "Z";
    var p1 := [s[7]] + (s[8..13] + p3);
    var q := [s[4]] + (s[5..7] + p1);
    assert s[..19] + "Z" == s[0..4] + q;
    StripKeeps(s[8..13], p3);
    StripDrops(s[7], s[8..13] + p3);
    StripKeeps(s[5..7], p1);
    StripDrops(s[4], s[5..7] + p1);
    StripKeeps(s[0..4], q);
  }

  /**
   * The signing timestamp is `toISOString()` without separators and
   * milliseconds: `YYYYMMDDTHHMMSSZ`.
   */
  lemma GetDateTimeFormat(s: string)
    requires IsIsoString(s)
    ensures GetDateTime(s) == s[0..4] + s[5..7] + s[8..10] + "T" + s[11..13] + s[14..16] + s[17..19] + "Z"
    ensures IsBasicDateTime(GetDateTime(s))
  {
    assert Iso8601(s) == s[..19] + "Z";
    StripDate(s);
    StripTime(s);
    assert s[8..13] == s[8..10] + "T" + s[11..13];
    BasicForm(s);
  }

  /** The fields of an ISO string, run together, are in the basic form. */
  lemma BasicForm(s: string)
    requires IsIsoString(s)
    ensures IsBasicDateTime(s[0..4] + s[5..7] + s[8..10] + "T" + s[11..13] + s[14..16] + s[17..19] + "Z")
  {
    var t := s[0..4] + s[5..7] + s[8..10] + "T" + s[11..13] + s[14..16] + s[17..19] + "Z";
    assert forall i :: 0 <= i < 4 ==> t[i] == s[i];
    assert forall i :: 4 <= i < 6 ==> t[i] == s[i + 1];
    assert forall i :: 6 <= i < 8 ==> t[i] == s[i + 2];
    assert forall i :: 9 <= i < 11 ==> t[i] == s[i + 2];
    assert forall i :: 11 <= i < 13 ==> t[i] == s[i + 3];
    assert forall i :: 13 <= i < 15 ==> t[i] == s[i + 4];
  }

  /** `createScope(date, region, serviceName)`. */
  function CreateScope(date: string, region: string, service: string): string {
    Join([Prefix(date, 8), region, service, V4Identifier], "/")
  }

  /** `credentialString(datetime)`. */
  function CredentialString(datetime: string, region: string, service: string): string {
    CreateScope(Prefix(datetime, 8), region, service)
  }

  /** The scope reads back as date, region, service and `request`. */
  lemma ScopeFields(datetime: string, region: string, service: string)
    requires '/' !in datetime && '/' !in region && '/' !in service
    ensures Split(CredentialString(datetime, region, service), '/') == [Prefix(datetime, 8), region, service, V4Identifier]
  {
    var d := Prefix(datetime, 8);
    assert Prefix(d, 8) == d;
    var xs := [d, region, service, V4Identifier];
    assert forall i :: 0 <= i < |xs| ==> '/' !in xs[i];
    SplitJoin(xs, '/');
  }

  /** Signed at a `toISOString()` time, the scope starts with the eight digits `YYYYMMDD`. */
  lemma ScopeOfIsoTime(iso: string, region: string, service: string)
    requires IsIsoString(iso) && '/' !in region && '/' !in service
    ensures Split(CredentialString(GetDateTime(iso), region, service), '/')
         == [iso[0..4] + iso[5..7] + iso[8..10], region, service, V4Identifier]
  {
    GetDateTimeFormat(iso);
    var dt := GetDateTime(iso);
    ScopeFields(dt, region, service);
    assert Prefix(dt, 8) == iso[0..4] + iso[5..7] + iso[8..10];
  }

  // ---------------------------------------------------------------------
  // Canonical request, string to sign, signature

  /** A snapshot of the signer's request object. */
  datatype Req = Req(
    region: string,
    httpMethod: string,
    params: Dict<Value>,
    pathname: Option<string>,
    headers: Dict<Value>,
    body: Body)

  /** `pathname || '/'`. */
  function PathOrRoot(p: Option<string>): string {
    if NonEmpty(p) then p.value else "/"
  }

  /** The six fields of the canonical request, joined with line breaks. */
  function CanonicalRequest(httpMethod: string, pathname: Option<string>, query: string,
                            canonicalHeaders: string, signedHeaders: string, bodyHash: string): string
  {
    Join([Upper(httpMethod), PathOrRoot(pathname), query, canonicalHeaders + "\n", signedHeaders, bodyHash], "\n")
  }

  /** `canonicalString()`. */
  function CanonicalString(rt: Runtime, r: Req): Result<string, string> {
    match CanonicalHeadersOf(r.headers)
    case Failure(e) => Failure(e)
    case Success(ch) =>
      Success(CanonicalRequest(r.httpMethod, r.pathname, QueryParamsToString(r.params), ch,
                               SignedHeadersOf(r.headers), HexEncodedBodyHash(rt, r.headers, r.body)))
  }

  /** `stringToSign(datetime)`, given the scope and the canonical request. */
  function StringToSign(rt: Runtime, datetime: string, scope: string, canonical: string): string {
    Join([Algorithm, datetime, scope, HexHash(rt, canonical)], "\n")
  }

  /** `getSigningKey`: secret, then date, region, service and `request`, each an HMAC step. */
  function SigningKey(rt: Runtime, secretKey: string, date: string, region: string, service: string): Digest {
    var kDate := rt.hmac(Utf8Bytes(secretKey), Utf8Bytes(date));
    var kRegion := rt.hmac(kDate, Utf8Bytes(region));
    var kService := rt.hmac(kRegion, Utf8Bytes(service));
    rt.hmac(kService, Utf8Bytes(V4Identifier))
  }

  /** `signature(credentials, datetime)`, given the canonical request. */
  function SignatureFor(rt: Runtime, credentials: Credentials, datetime: string, region: string, service: string,
                        canonical: string): Digest
  {
    var key := SigningKey(rt, credentials.secretKey, Prefix(datetime, 8), region, service);
    rt.hmac(key, Utf8Bytes(StringToSign(rt, datetime, CredentialString(datetime, region, service), canonical)))
  }

  /** `authorization(credentials, datetime)`, given the signed headers and the canonical request. */
  function AuthorizationFor(rt: Runtime, credentials: Credentials, datetime: string, region: string, service: string,
                            signedHeaders: string, canonical: string): string
  {
    Join([Algorithm + " Credential=" + credentials.accessKeyId + "/" + CredentialString(datetime, region, service),
          "SignedHeaders=" + signedHeaders,
          "Signature=" + Hex(SignatureFor(rt, credentials, datetime, region, service, canonical))], ", ")
  }

  /** `authorization(credentials, datetime)` on a request snapshot; fails where `canonicalHeaders()` throws. */
  function Authorization(rt: Runtime, r: Req, service: string, credentials: Credentials, datetime: string)
    : Result<string, string>
  {
    match CanonicalString(rt, r)
    case Failure(e) => Failure(e)
    case Success(cs) =>
      Success(AuthorizationFor(rt, credentials, datetime, r.region, service, SignedHeadersOf(r.headers), cs))
  }

  // ---------------------------------------------------------------------
  // Line structure

  lemma UpperKeepsLines(s: string)
    requires '\n' !in s
    ensures '\n' !in Upper(s)
  {
    assert forall i :: 0 <= i < |s| ==> UpperChar(s[i]) != '\n';
  }

  lemma SplitField(x: string, rest: string)
    requires '\n' !in x
    ensures Split(x + "\n" + rest, '\n') == [x] + Split(rest, '\n')
  {
    SplitAtFirst(x, '\n', rest);
  }

  lemma JoinCons(x: string, xs: seq<string>, sep: string)
    requires xs != []
    ensures Join([x] + xs, sep) == x + sep + Join(xs, sep)
  {
    assert ([x] + xs)[1..] == xs;
  }

  lemma CanonicalRequestText(httpMethod: string, pathname: Option<string>, query: string,
                             canonicalHeaders: string, signedHeaders: string, bodyHash: string)
    ensures CanonicalRequest(httpMethod, pathname, query, canonicalHeaders, signedHeaders, bodyHash)
         == Upper(httpMethod) + "\n" + (PathOrRoot(pathname) + "\n" + (query + "\n"
            + (canonicalHeaders + "\n" + ("\n" + (signedHeaders + "\n" + bodyHash)))))
  {
    var d := canonicalHeaders + "\n";
    var r5 := signedHeaders + "\n" + bodyHash;
    JoinCons(signedHeaders, [bodyHash], "\n");
    JoinCons(d, [signedHeaders, bodyHash], "\n");
    assert [d] + [signedHeaders, bodyHash] == [d, signedHeaders, bodyHash];
    JoinCons(query, [d, signedHeaders, bodyHash], "\n");
    assert [query] + [d, signedHeaders, bodyHash] == [query, d, signedHeaders, bodyHash];
    JoinCons(PathOrRoot(pathname), [query, d, signedHeaders, bodyHash], "\n");
    assert [PathOrRoot(pathname)] + [query, d, signedHeaders, bodyHash] == [PathOrRoot(pathname), query, d, signedHeaders, bodyHash];
    JoinCons(Upper(httpMethod), [PathOrRoot(pathname), query, d, signedHeaders, bodyHash], "\n");
    assert [Upper(httpMethod)] + [PathOrRoot(pathname), query, d, signedHeaders, bodyHash]
        == [Upper(httpMethod), PathOrRoot(pathname), query, d, signedHeaders, bodyHash];
    assert d + "\n" + r5 == canonicalHeaders + "\n" + ("\n" + r5);
  }

  lemma HeaderBlockLines(canonicalHeaders: string, signedHeaders: string, bodyHash: string)
    requires '\n' !in signedHeaders && '\n' !in bodyHash
    ensures Split(canonicalHeaders + "\n" + ("\n" + (signedHeaders + "\n" + bodyHash)), '\n')
         == Split(canonicalHeaders, '\n') + ["", signedHeaders, bodyHash]
  {
    var r5 := signedHeaders + "\n" + bodyHash;
    SplitField(signedHeaders, bodyHash);
    SplitNoSeparator(bodyHash, '\n');
    SplitField([], r5);
    assert [] + "\n" + r5 == "\n" + r5;
    SplitAppend(canonicalHeaders, '\n', "\n" + r5);
  }

  /**
   * The canonical request reads back line by line as its fields: method,
   * path, query, the header lines, an empty line, the signed headers and
   * the body hash.
   */
  lemma CanonicalRequestLines(httpMethod: string, pathname: Option<string>, query: string,
                              canonicalHeaders: string, signedHeaders: string, bodyHash: string)
    requires '\n' !in httpMethod && '\n' !in PathOrRoot(pathname) && '\n' !in query
    requires '\n' !in signedHeaders && '\n' !in bodyHash
    ensures Split(CanonicalRequest(httpMethod, pathname, query, canonicalHeaders, signedHeaders, bodyHash), '\n')
         == [Upper(httpMethod), PathOrRoot(pathname), query] + Split(canonicalHeaders, '\n') + ["", signedHeaders, bodyHash]
  {
    CanonicalRequestText(httpMethod, pathname, query, canonicalHeaders, signedHeaders, bodyHash);
    UpperKeepsLines(httpMethod);
    HeaderBlockLines(canonicalHeaders, signedHeaders, bodyHash);
    var tail := Split(canonicalHeaders, '\n') + ["", signedHeaders, bodyHash];
    LeadingFields(Upper(httpMethod), PathOrRoot(pathname), query,
                  canonicalHeaders + "\n" + ("\n" + (signedHeaders + "\n" + bodyHash)), tail);
    assert [Upper(httpMethod), PathOrRoot(pathname), query] + tail
        == [Upper(httpMethod), PathOrRoot(pathname), query] + Split(canonicalHeaders, '\n') + ["", signedHeaders, bodyHash];
  }

  /** Three leading fields without line breaks read back first, ahead of the lines of the rest. */
  lemma LeadingFields(a: string, b: string, c: string, rest: string, lines: seq<string>)
    requires '\n' !in a && '\n' !in b && '\n' !in c
    requires Split(rest, '\n') == lines
    ensures Split(a + "\n" + (b + "\n" + (c + "\n" + rest)), '\n') == [a, b, c] + lines
  {
    SplitField(c, rest);
    SplitField(b, c + "\n" + rest);
    SplitField(a, b + "\n" + (c + "\n" + rest));
    assert [a] + ([b] + ([c] + lines)) == [a, b, c] + lines;
  }

  /** The string to sign reads back as its four lines. */
  lemma StringToSignLines(rt: Runtime, datetime: string, scope: string, canonical: string)
    requires '\n' !in datetime && '\n' !in scope
    ensures Split(StringToSign(rt, datetime, scope, canonical), '\n') == [Algorithm, datetime, scope, HexHash(rt, canonical)]
  {
    var xs := [Algorithm, datetime, scope, HexHash(rt, canonical)];
    assert '\n' !in HexHash(rt, canonical);
    assert forall i :: 0 <= i < |xs| ==> '\n' !in xs[i];
    SplitJoin(xs, '\n');
  }

  /** The signed-headers list reads back, split on `;`, as the sorted signable names. */
  lemma SignedHeadersList(h: Dict<Value>)
    requires SignedHeaderNames(h) != []
    requires forall i :: 0 <= i < |SignedHeaderNames(h)| ==> ';' !in SignedHeaderNames(h)[i]
    ensures Split(SignedHeadersOf(h), ';') == SignedHeaderNames(h)
    ensures Sorted(SignedHeaderNames(h))
  {
    SplitJoin(SignedHeaderNames(h), ';');
  }

  // ---------------------------------------------------------------------
  // The request object and the signer

  /** `RequestObj`: the request the signer reads and completes in place. */
  class RequestObj {
    var region: string
    var httpMethod: string
    var params: Option<Dict<Value>>
    var pathname: Option<string>
    var headers: Option<Dict<Value>>
    var body: Body

    constructor(region: string, httpMethod: string, params: Option<Dict<Value>>, pathname: Option<string>,
                headers: Option<Dict<Value>>, body: Body)
      ensures this.region == region && this.httpMethod == httpMethod && this.params == params
      ensures this.pathname == pathname && this.headers == headers && this.body == body
    {
      this.region := region;
      this.httpMethod := httpMethod;
      this.params := params;
      this.pathname := pathname;
      this.headers := headers;
      this.body := body;
    }

    function View(): Req
      reads this
    {
      Req(region, httpMethod, params.GetOr([]), pathname, headers.GetOr([]), body)
    }
  }

  /** The value `addHeaders` gives `X-Content-Sha256`: the `bodySha256` option, else the body's hash. */
  function ContentHash(rt: Runtime, body: Body, bodySha256: Option<string>): string {
    if NonEmpty(bodySha256) then bodySha256.value else HexHash(rt, BodyText(rt, body))
  }

  /** The headers after `addHeaders(credentials, datetime)`. */
  function AddedHeaders(rt: Runtime, r: Req, bodySha256: Option<string>, credentials: Credentials, datetime: string)
    : (h: Dict<Value>)
    ensures forall k ::
      Get(h, k) ==
      (if k == DateHeader then Some(Str(datetime))
       else if k == TokenHeader && NonEmpty(credentials.sessionToken) then Some(Str(credentials.sessionToken.value))
       else if k == ContentSha256Header && BodyTruthy(r.body) then Some(Str(ContentHash(rt, r.body, bodySha256)))
       else Get(r.headers, k))
    ensures WellFormed(r.headers) ==> WellFormed(h)
  {
    var h1 := Put(r.headers, DateHeader, Str(datetime));
    var h2 := if NonEmpty(credentials.sessionToken) then Put(h1, TokenHeader, Str(credentials.sessionToken.value)) else h1;
    if BodyTruthy(r.body) then Put(h2, ContentSha256Header, Str(ContentHash(rt, r.body, bodySha256))) else h2
  }

  /**
   * With a body, the body hash in the canonical request is the one
   * `addHeaders` sent; without one, a preset header or the hash of `''`.
   */
  lemma SignsSentBodyHash(rt: Runtime, r: Req, bodySha256: Option<string>, credentials: Credentials, datetime: string)
    ensures var h := AddedHeaders(rt, r, bodySha256, credentials, datetime);
      HexEncodedBodyHash(rt, h, r.body) ==
        if BodyTruthy(r.body) then ContentHash(rt, r.body, bodySha256)
        else if Get(r.headers, ContentSha256Header).Some? && Truthy(Get(r.headers, ContentSha256Header).value)
        then ToStr(Get(r.headers, ContentSha256Header).value)
        else HexHash(rt, "")
  {
    var h := AddedHeaders(rt, r, bodySha256, credentials, datetime);
    if BodyTruthy(r.body) {
      var hash := ContentHash(rt, r.body, bodySha256);
      assert Get(h, ContentSha256Header) == Some(Str(hash));
    } else {
      assert Get(h, ContentSha256Header) == Get(r.headers, ContentSha256Header);
    }
  }

  lemma {:induction false} CanonicalLinesPrefixFails(items: seq<(string, Value)>, n: nat)
    requires n <= |items| && CanonicalLines(items[..n]).Failure?
    ensures CanonicalLines(items) == CanonicalLines(items[..n])
    decreases |items| - n
  {
    if n < |items| {
      assert items[..n + 1][..n] == items[..n];
      CanonicalLinesPrefixFails(items, n + 1);
    } else {
      assert items[..n] == items;
    }
  }

  lemma LineTextsSnoc(lines: seq<(string, string)>, line: (string, string))
    ensures LineTexts(lines + [line]) == LineTexts(lines) + [line.0 + ":" + line.1]
  {
  }

  lemma CanonicalLinesNext(items: seq<(string, Value)>, j: nat, lines: seq<(string, string)>)
    requires j < |items| && CanonicalLines(items[..j]) == Success(lines)
    ensures var key := HeaderName(items[j]);
      CanonicalLines(items[..j + 1]) ==
        if !IsSignableHeader(key) then Success(lines)
        else if Nullish(items[j].1) then Failure(InvalidHeader(key))
        else Success(lines + [(key, CanonicalHeaderValue(ToStr(items[j].1)))])
  {
    assert items[..j + 1][..j] == items[..j];
  }

  /** The emitting loop of `canonicalHeaders()`, over entries already sorted. */
  method EmitHeaderBlock(headers: seq<(string, Value)>) returns (r: Result<string, string>)
    ensures r == CanonicalHeaderBlock(headers)
  {
    var parts: seq<string> := [];
    ghost var lines: seq<(string, string)> := [];
    var j := 0;
    while j < |headers|
      invariant 0 <= j <= |headers|
      invariant CanonicalLines(headers[..j]) == Success(lines)
      invariant parts == LineTexts(lines)
    {
      var key := Lower(headers[j].0);
      CanonicalLinesNext(headers, j, lines);
      if IsSignableHeader(key) {
        var value := headers[j].1;
        if Nullish(value) {
          CanonicalLinesPrefixFails(headers, j + 1);
          return Failure(InvalidHeader(key));
        }
        var line := (key, CanonicalHeaderValue(ToStr(value)));
        LineTextsSnoc(lines, line);
        lines := lines + [line];
        parts := parts + [line.0 + ":" + line.1];
      }
      j := j + 1;
    }
    assert headers[..j] == headers;
    return Success(Join(parts, "\n"));
  }

  /**
   * The `Authorization` value from the signed-headers list and the canonical
   * headers of the request: the error of `canonicalHeaders()` when it throws,
   * otherwise `HMAC-SHA256 Credential=…, SignedHeaders=…, Signature=…` over the
   * canonical request built from those headers.
   */
  method AuthorizationFrom(rt: Runtime, view: Req, service: string, credentials: Credentials, datetime: string,
                           signed: string, canonicalHeaders: Result<string, string>)
    returns (r: Result<string, string>)
    requires signed == SignedHeadersOf(view.headers) && canonicalHeaders == CanonicalHeadersOf(view.headers)
    ensures r == Authorization(rt, view, service, credentials, datetime)
    ensures canonicalHeaders.Failure? ==> r == Failure(canonicalHeaders.error)
    ensures canonicalHeaders.Success? ==>
      r == Success(AuthorizationFor(rt, credentials, datetime, view.region, service, signed,
                     CanonicalRequest(view.httpMethod, view.pathname, QueryParamsToString(view.params),
                                      canonicalHeaders.value, signed, HexEncodedBodyHash(rt, view.headers, view.body))))
  {
    if canonicalHeaders.Failure? {
      return Failure(canonicalHeaders.error);
    }
    var canonical := CanonicalRequest(view.httpMethod, view.pathname, QueryParamsToString(view.params),
                                      canonicalHeaders.value, signed, HexEncodedBodyHash(rt, view.headers, view.body));
    return Success(AuthorizationFor(rt, credentials, datetime, view.region, service, signed, canonical));
  }

  /**
   * The headers of a prepared request after `addAuthorization(credentials, date)`,
   * given `date.toISOString()`, or the error it throws.
   */
  function SignRequest(rt: Runtime, r: Req, service: string, bodySha256: Option<string>,
                       credentials: Credentials, iso: string): Result<Dict<Value>, string>
  {
    var datetime := GetDateTime(iso);
    var added := AddedHeaders(rt, r, bodySha256, credentials, datetime);
    match Authorization(rt, r.(headers := added), service, credentials, datetime)
    case Failure(e) => Failure(e)
    case Success(a) => Success(Put(added, AuthorizationHeader, Str(a)))
  }

  /**
   * Signing changes four headers and no others: `X-Date`, `X-Security-Token`
   * when a session token is given, `X-Content-Sha256` when there is a body,
   * and `Authorization`; it fails exactly when a signable header is null or
   * undefined.
   */
  lemma SignRequestHeaders(rt: Runtime, r: Req, service: string, bodySha256: Option<string>,
                           credentials: Credentials, iso: string)
    ensures var datetime := GetDateTime(iso);
      var added := AddedHeaders(rt, r, bodySha256, credentials, datetime);
      var s := SignRequest(rt, r, service, bodySha256, credentials, iso);
      && (s.Failure? <==> CanonicalHeadersOf(added).Failure?)
      && (s.Success? ==> forall k ::
           Get(s.value, k) ==
           (if k == AuthorizationHeader
            then Some(Str(AuthorizationFor(rt, credentials, datetime, r.region, service, SignedHeadersOf(added),
                          CanonicalString(rt, r.(headers := added)).value)))
            else if k == DateHeader then Some(Str(datetime))
            else if k == TokenHeader && NonEmpty(credentials.sessionToken) then Some(Str(credentials.sessionToken.value))
            else if k == ContentSha256Header && BodyTruthy(r.body) then Some(Str(ContentHash(rt, r.body, bodySha256)))
            else Get(r.headers, k)))
  {
  }

  /** `Signer`: signs one request object in place. */
  class Signer {
    var request: RequestObj
    var serviceName: string
    var bodySha256: Option<string>

    /** The request has its header map and its sorted parameters. */
    predicate Ready()
      reads this, request
    {
      request.headers.Some? && request.params.Some?
    }

    /** Defaults the headers to `{}` and replaces the parameters by their sorted copy. */
    constructor(request: RequestObj, serviceName: string, bodySha256: Option<string>)
      modifies request
      ensures this.request == request && this.serviceName == serviceName && this.bodySha256 == bodySha256
      ensures Ready()
      ensures request.headers == Some(old(request.headers).GetOr([]))
      ensures request.params == Some(SortParams(old(request.params)))
      ensures request.region == old(request.region) && request.httpMethod == old(request.httpMethod)
      ensures request.pathname == old(request.pathname) && request.body == old(request.body)
    {
      this.request := request;
      this.serviceName := serviceName;
      this.bodySha256 := bodySha256;
      new;
      request.headers := Some(request.headers.GetOr([]));
      request.params := Some(SortParams(request.params));
    }

    /** `canonicalHeaders()`: copies the entries, sorts them by lower-cased name, emits the signable ones. */
    method CanonicalHeaders() returns (r: Result<string, string>)
      requires Ready()
      ensures r == CanonicalHeadersOf(request.headers.value)
    {
      var source := request.headers.value;
      var headers: seq<(string, Value)> := [];
      var i := 0;
      while i < |source|
        invariant 0 <= i <= |source|
        invariant headers == source[..i]
      {
        headers := headers + [source[i]];
        i := i + 1;
      }
      assert headers == source;
      headers := SortBy(headers, HeaderName);
      r := EmitHeaderBlock(headers);
    }

    /** `signedHeaders()`: the lower-cased signable names, sorted, joined with `;`. */
    method SignedHeaders() returns (r: string)
      requires Ready()
      ensures r == SignedHeadersOf(request.headers.value)
    {
      var source := request.headers.value;
      var keys: seq<string> := [];
      var i := 0;
      while i < |source|
        invariant 0 <= i <= |source|
        invariant keys == Filter(KeySeq(source[..i], HeaderName), IsSignableHeader)
      {
        var key := Lower(source[i].0);
        SignableNamesNext(source, i);
        if IsSignableHeader(key) {
          keys := keys + [key];
        }
        i := i + 1;
      }
      assert source[..i] == source;
      return Join(SortStrings(keys), ";");
    }

    /** `addHeaders(credentials, datetime)`: `X-Date`, then `X-Security-Token` and `X-Content-Sha256` when they apply. */
    method AddHeaders(rt: Runtime, credentials: Credentials, datetime: string)
      requires Ready()
      modifies request
      ensures Ready()
      ensures request.headers == Some(AddedHeaders(rt, old(request.View()), bodySha256, credentials, datetime))
      ensures request.region == old(request.region) && request.httpMethod == old(request.httpMethod)
      ensures request.params == old(request.params) && request.pathname == old(request.pathname)
      ensures request.body == old(request.body)
    {
      var h := request.headers.value;
      h := Put(h, DateHeader, Str(datetime));
      if NonEmpty(credentials.sessionToken) {
        h := Put(h, TokenHeader, Str(credentials.sessionToken.value));
      }
      if BodyTruthy(request.body) {
        var text := BodyText(rt, request.body);
        var hash := if NonEmpty(bodySha256) then bodySha256.value else HexHash(rt, text);
        h := Put(h, ContentSha256Header, Str(hash));
      }
      request.headers := Some(h);
    }

    /**
     * The second half of `addAuthorization`: computes the signature over the
     * current request and adds `Authorization`, or fails on an invalid header.
     */
    method AddSignature(rt: Runtime, credentials: Credentials, datetime: string) returns (r: Result<(), string>)
      requires Ready()
      modifies request
      ensures Ready()
      ensures
        var auth := Authorization(rt, old(request.View()), serviceName, credentials, datetime);
        && (r.Success? <==> auth.Success?)
        && (auth.Failure? ==> r == Failure(auth.error))
        && request.headers == Some(if auth.Success? then Put(old(request.View()).headers, AuthorizationHeader, Str(auth.value))
                                   else old(request.View()).headers)
      ensures request.region == old(request.region) && request.httpMethod == old(request.httpMethod)
      ensures request.params == old(request.params) && request.pathname == old(request.pathname)
      ensures request.body == old(request.body)
    {
      var view := request.View();
      var signed := SignedHeaders();
      var canonicalHeaders := CanonicalHeaders();
      var auth := AuthorizationFrom(rt, view, serviceName, credentials, datetime, signed, canonicalHeaders);
      if auth.Failure? {
        return Failure(auth.error);
      }
      request.headers := Some(Put(view.headers, AuthorizationHeader, Str(auth.value)));
      return Success(());
    }

    /**
     * `addAuthorization(credentials, date)`, given `date.toISOString()`:
     * adds the headers above and then `Authorization`; when a header value
     * is invalid it fails after the headers above were added.
     */
    method AddAuthorization(rt: Runtime, credentials: Credentials, iso: string) returns (r: Result<(), string>)
      requires Ready()
      modifies request
      ensures Ready()
      ensures var s := SignRequest(rt, old(request.View()), serviceName, bodySha256, credentials, iso);
        && (r.Success? <==> s.Success?)
        && (s.Failure? ==> r == Failure(s.error))
        && (s.Success? ==> request.headers == Some(s.value))
        && (s.Failure? ==>
              request.headers == Some(AddedHeaders(rt, old(request.View()), bodySha256, credentials, GetDateTime(iso))))
      ensures request.region == old(request.region) && request.httpMethod == old(request.httpMethod)
      ensures request.params == old(request.params) && request.pathname == old(request.pathname)
      ensures request.body == old(request.body)
    {
      var datetime := GetDateTime(iso);
      ghost var before := request.View();
      AddHeaders(rt, credentials, datetime);
      assert request.View() == before.(headers := AddedHeaders(rt, before, bodySha256, credentials, datetime));
      r := AddSignature(rt, credentials, datetime);
    }
  }
}
