/**
 * `createRequestFn` (nodes/help/utils/volcengine/fetch.ts): turns a URL and
 * the request information of the OpenAPI and knowledge-base clients into
 * the option record handed to n8n's `httpRequest`.
 */
module Transport {
  import opened Base
  import opened Dicts
  import opened JsValues
  import opened Text
  import opened Host

  const UserAgent: string := "n8n-nodes-volcengine/v1.0.0"
  const FormContentType: string := "application/x-www-form-urlencoded"

  /**
   * `RequestInfo`: what the clients hand to `fetch`. `None` is a property
   * that is missing or `undefined`; `data` is `Plain(Undefined)` when absent.
   */
  datatype RequestInfo = RequestInfo(httpMethod: Option<string>, headers: Option<Dict<Value>>, data: Body)

  /** A request ready for `fetch`: the URI and the request information. */
  datatype Outgoing = Outgoing(url: string, info: RequestInfo)

  /** The `body` option: absent, a string, or an object serialised by the host. */
  datatype HttpBody = NoBody | Text(text: string) | Fields(value: Value)

  /** `N8nHttpRequestOptions`. */
  datatype HttpOptions = HttpOptions(
    httpMethod: string,
    url: string,
    headers: Dict<Value>,
    body: HttpBody,
    json: bool,
    returnFullResponse: bool,
    skipSslCertificateValidation: bool,
    ignoreHttpStatusErrors: bool)

  /** The headers every request starts from. */
  function DefaultHeaders(): Dict<Value> {
    [("Content-Type", Str(FormContentType)), ("User-Agent", Str(UserAgent))]
  }

  /**
   * The body sent: only truthy data on a method other than `GET`; a string
   * as it is, a `URLSearchParams` through `toString()`, anything else as an object.
   */
  function RequestBody(rt: Runtime, data: Body, httpMethod: string): (b: HttpBody)
    ensures b != NoBody <==> BodyTruthy(data) && httpMethod != "GET"
    ensures b.Text? <==> b != NoBody && (data.Form? || data.value.Str?)
    ensures b.Fields? ==> data == Plain(b.value)
  {
    if BodyTruthy(data) && httpMethod != "GET" then
      match data
      case Form(pairs) => Text(rt.formEncode(pairs))
      case Plain(v) => if v.Str? then Text(v.s) else Fields(v)
    else NoBody
  }

  /** The option record `createRequestFn`'s function passes to `httpRequest`. */
  function HttpOptionsFor(rt: Runtime, url: string, info: RequestInfo): (o: HttpOptions)
    ensures o.httpMethod == info.httpMethod.GetOr("GET")
    ensures o.url == Trim(url)
    ensures o.body == RequestBody(rt, info.data, o.httpMethod)
    ensures o.json && !o.returnFullResponse && !o.skipSslCertificateValidation && o.ignoreHttpStatusErrors
  {
    var httpMethod := info.httpMethod.GetOr("GET");
    HttpOptions(httpMethod, Trim(url), Merge(DefaultHeaders(), info.headers.GetOr([])),
                RequestBody(rt, info.data, httpMethod), true, false, false, true)
  }

  /**
   * The caller's headers override the two defaults, which are sent when
   * the caller has no header of the same name.
   */
  lemma HeadersOverrideDefaults(rt: Runtime, url: string, info: RequestInfo, k: string)
    requires info.headers.Some? ==> WellFormed(info.headers.value)
    ensures var h := info.headers.GetOr([]);
      Get(HttpOptionsFor(rt, url, info).headers, k) ==
        if Has(h, k) then Get(h, k)
        else if k == "Content-Type" then Some(Str(FormContentType))
        else if k == "User-Agent" then Some(Str(UserAgent))
        else None
  {
    MergeGet(DefaultHeaders(), info.headers.GetOr([]), k);
    DefaultHeaderGet(k);
  }

  lemma DefaultHeaderGet(k: string)
    ensures Get(DefaultHeaders(), k) ==
      if k == "Content-Type" then Some(Str(FormContentType))
      else if k == "User-Agent" then Some(Str(UserAgent))
      else None
  {
    var d := DefaultHeaders();
    assert d[1..][1..] == [];
    assert "Content-Type" != "User-Agent" by { assert "Content-Type"[0] != "User-Agent"[0]; }
  }

  /** The function `createRequestFn(httpRequestFn)` returns, applied to a URL and request. */
  function Fetch(rt: Runtime, httpRequestFn: HttpOptions -> Value, url: string, info: RequestInfo): Value {
    httpRequestFn(HttpOptionsFor(rt, url, info))
  }
}
