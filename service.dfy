/**
 * The generic OpenAPI client of nodes/help/utils/volcengine/service.ts:
 * the service options and their setters, the API bindings made by
 * `createAPI` and its two variants, and `fetchOpenAPI`, which assembles,
 * signs and addresses one request.
 */
module OpenApi {
  import opened Base
  import opened Dicts
  import opened JsValues
  import opened Host
  import opened Signing
  import opened Transport
  import Order

  const DefaultHost: string := "open.volcengineapi.com"
  const DefaultRegion: string := "cn-north-1"
  const DefaultProtocol: string := "https:"
  const CredentialsMissing: string := "accessKeyId and secretKey is necessary"
  const JsonContentType: string := "application/json; charset=utf-8"

  /**
   * `ServiceOptions`: every property may be missing, present as
   * `undefined`, or set. The transport function is not one of them here.
   */
  datatype Options = Options(
    accessKeyId: Field<string>,
    secretKey: Field<string>,
    sessionToken: Field<string>,
    region: Field<string>,
    host: Field<string>,
    serviceName: Field<string>,
    protocol: Field<string>,
    defaultVersion: Field<string>)
  {
    /** `{ ...this, ...o }`. */
    function Spread(o: Options): Options {
      Options(o.accessKeyId.Over(accessKeyId), o.secretKey.Over(secretKey), o.sessionToken.Over(sessionToken),
              o.region.Over(region), o.host.Over(host), o.serviceName.Over(serviceName),
              o.protocol.Over(protocol), o.defaultVersion.Over(defaultVersion))
    }
  }

  /** An options object with no properties. */
  const NoOptions: Options := Options(Absent, Absent, Absent, Absent, Absent, Absent, Absent, Absent)

  /** `defaultOptions`. */
  const Defaults: Options := NoOptions.(region := Set(DefaultRegion), host := Set(DefaultHost),
                                        protocol := Set(DefaultProtocol))

  /** The value of an optional string property: `undefined` unless set. */
  function Defined(f: Field<string>): Option<string> {
    if f.Set? then Some(f.value) else None
  }

  /** `o.p || d` on an optional string property. */
  function OrElse(f: Field<string>, d: string): (r: string)
    ensures r == d || (f.Set? && r == f.value && r != "")
  {
    if f.Set? && f.value != "" then f.value else d
  }

  /** A truthy optional string property. */
  predicate Filled(f: Field<string>) {
    f.Set? && f.value != ""
  }

  /** An optional string property as a JavaScript value. */
  function FieldValue(f: Field<string>): Value {
    if f.Set? then Str(f.value) else Undefined
  }

  /**
   * The constructor's options take each property from the caller's
   * options when they have it, even as `undefined`, and from the defaults otherwise.
   */
  lemma SpreadDefaults(o: Options)
    ensures var r := Defaults.Spread(o);
      && r.host == (if o.host.Absent? then Set(DefaultHost) else o.host)
      && r.region == (if o.region.Absent? then Set(DefaultRegion) else o.region)
      && r.protocol == (if o.protocol.Absent? then Set(DefaultProtocol) else o.protocol)
      && r.accessKeyId == o.accessKeyId && r.secretKey == o.secretKey && r.sessionToken == o.sessionToken
      && r.serviceName == o.serviceName && r.defaultVersion == o.defaultVersion
  {
  }

  /** `CreateAPIParams`. */
  datatype CreateParams = CreateParams(
    version: Field<string>,
    httpMethod: Field<string>,
    contentType: Field<string>,
    queryKeys: Field<seq<string>>)

  const NoCreateParams: CreateParams := CreateParams(Absent, Absent, Absent, Absent)

  /** The settings an API function made by `createAPI` closes over. */
  datatype Api = Api(action: string, version: Option<string>, httpMethod: string, contentType: string, queryKeys: seq<string>)

  /** `createAPI(Action, createParams)`: the destructuring defaults are `GET`, `urlencode` and `[]`. */
  function CreateApi(action: string, p: CreateParams): Api {
    Api(action, Defined(p.version), p.httpMethod.Or("GET"), p.contentType.Or("urlencode"), p.queryKeys.Or([]))
  }

  /** `createJSONAPI`: `createAPI` with `POST` and `json` unless the caller's parameters say otherwise. */
  function CreateJsonApi(action: string, p: CreateParams): Api {
    CreateApi(action, p.(httpMethod := p.httpMethod.Over(Set("POST")), contentType := p.contentType.Over(Set("json"))))
  }

  /** `createUrlEncodeAPI`: `createAPI` with `POST` and `urlencode` unless the caller's parameters say otherwise. */
  function CreateUrlEncodeApi(action: string, p: CreateParams): Api {
    CreateApi(action, p.(httpMethod := p.httpMethod.Over(Set("POST")), contentType := p.contentType.Over(Set("urlencode"))))
  }

  /**
   * The three bindings without parameters, and the way a given parameter
   * overrides the default (a parameter present as `undefined` falls back
   * to `createAPI`'s own default).
   */
  lemma CreateApiDefaults(action: string, p: CreateParams)
    ensures CreateApi(action, NoCreateParams) == Api(action, None, "GET", "urlencode", [])
    ensures CreateJsonApi(action, NoCreateParams) == Api(action, None, "POST", "json", [])
    ensures CreateUrlEncodeApi(action, NoCreateParams) == Api(action, None, "POST", "urlencode", [])
    ensures p.httpMethod.Set? ==>
      CreateJsonApi(action, p).httpMethod == p.httpMethod.value == CreateUrlEncodeApi(action, p).httpMethod
    ensures p.contentType.Set? ==>
      CreateJsonApi(action, p).contentType == p.contentType.value == CreateUrlEncodeApi(action, p).contentType
    ensures p.httpMethod == Undef ==> CreateJsonApi(action, p).httpMethod == "GET"
    ensures CreateJsonApi(action, p).version == CreateApi(action, p).version
      && CreateJsonApi(action, p).queryKeys == CreateApi(action, p).queryKeys
  {
  }

  /**
   * `FetchParams` (with the request-config properties that matter here):
   * each property missing, `undefined`, or set.
   */
  datatype FetchParams = FetchParams(
    action: Field<string>,
    version: Field<string>,
    query: Field<Dict<Value>>,
    pathname: Field<string>,
    httpMethod: Field<string>,
    data: Field<Body>,
    headers: Field<Dict<Value>>)

  const NoFetchParams: FetchParams := FetchParams(Absent, Absent, Absent, Absent, Absent, Absent, Absent)

  /**
   * The `queryKeys.reduce(...)` of a non-`GET` API: the listed keys whose
   * request value is not `undefined` (`null` is kept), in list order.
   */
  function QueryKeyEntries(keys: seq<string>, data: Dict<Value>): Dict<Value>
    decreases |keys|
  {
    if keys == [] then []
    else
      var rest := QueryKeyEntries(keys[..|keys| - 1], data);
      var k := keys[|keys| - 1];
      var v := Get(data, k);
      if v.Some? && !v.value.Undefined? then Put(rest, k, v.value) else rest
  }

  lemma {:induction false} QueryKeyEntriesGet(keys: seq<string>, data: Dict<Value>, k: string)
    ensures Get(QueryKeyEntries(keys, data), k) ==
      if k in keys && Get(data, k).Some? && !Get(data, k).value.Undefined? then Get(data, k) else None
    decreases |keys|
  {
    if keys != [] {
      var init := keys[..|keys| - 1];
      QueryKeyEntriesGet(init, data, k);
      assert keys == init + [keys[|keys| - 1]];
    }
  }

  /** The pairs the `urlencode` branch appends: non-nullish values as `String(v)`, in key order. */
  function FormPairs(data: Dict<Value>): seq<(string, string)>
    decreases |data|
  {
    if data == [] then []
    else
      var last := data[|data| - 1];
      FormPairs(data[..|data| - 1]) + (if Nullish(last.1) then [] else [(last.0, ToStr(last.1))])
  }

  lemma {:induction false} FormPairsMembers(data: Dict<Value>, p: (string, string))
    ensures p in FormPairs(data) <==>
      exists i :: 0 <= i < |data| && !Nullish(data[i].1) && p == (data[i].0, ToStr(data[i].1))
    decreases |data|
  {
    if data != [] {
      var init := data[..|data| - 1];
      FormPairsMembers(init, p);
      if p in FormPairs(data) && p !in FormPairs(init) {
        var i := |data| - 1;
        assert !Nullish(data[i].1) && p == (data[i].0, ToStr(data[i].1));
      }
      if exists i :: 0 <= i < |data| && !Nullish(data[i].1) && p == (data[i].0, ToStr(data[i].1)) {
        var i :| 0 <= i < |data| && !Nullish(data[i].1) && p == (data[i].0, ToStr(data[i].1));
        if i < |data| - 1 {
          assert init[i] == data[i];
        }
      }
    }
  }

  /**
   * The parameters an API function made by `createAPI` passes to
   * `fetchOpenAPI`, or the error it throws for an unknown content type.
   */
  function RequestParamsOf(api: Api, data: Dict<Value>, params: FetchParams): (r: Result<FetchParams, string>)
    ensures r.Success? ==>
      && r.value.httpMethod == Set(api.httpMethod) && r.value.action == Set(api.action)
      && r.value.version == (if api.version.Some? then Set(api.version.value) else Undef)
      && r.value.pathname == params.pathname
    ensures api.httpMethod == "GET" ==>
      r.Success? && r.value.query == Set(data) && r.value.data == params.data && r.value.headers == params.headers
    ensures api.httpMethod != "GET" ==>
      && (r.Success? <==> api.contentType == "json" || api.contentType == "urlencode")
      && (r.Failure? ==> r.error == "contentType " + api.contentType + " is not support")
      && (r.Success? ==> r.value.query == Set(Merge(QueryKeyEntries(api.queryKeys, data), params.query.Or([]))))
      && (api.contentType == "json" ==>
            && r.value.data == Set(Plain(Obj(data)))
            && r.value.headers.Set?
            && Get(r.value.headers.value, "content-type") == Some(Str(JsonContentType)))
      && (api.contentType == "urlencode" ==>
            r.value.data == Set(Form(FormPairs(data))) && r.value.headers == params.headers)
  {
    var base := params.(httpMethod := Set(api.httpMethod), action := Set(api.action),
                        version := if api.version.Some? then Set(api.version.value) else Undef);
    if api.httpMethod == "GET" then Success(base.(query := Set(data)))
    else
      var withQuery := base.(query := Set(Merge(QueryKeyEntries(api.queryKeys, data), params.query.Or([]))));
      if api.contentType == "json" then
        Success(withQuery.(headers := Set(Put(Merge([], params.headers.Or([])), "content-type", Str(JsonContentType))),
                          data := Set(Plain(Obj(data)))))
      else if api.contentType == "urlencode" then
        Success(withQuery.(data := Set(Form(FormPairs(data)))))
      else
        Failure("contentType " + api.contentType + " is not support")
  }

  /**
   * On a non-`GET` API the caller's `params.query` wins over a query key
   * taken from the request data; the request data is not reduced.
   */
  lemma QueryOverlay(api: Api, data: Dict<Value>, params: FetchParams, k: string)
    requires api.httpMethod != "GET" && RequestParamsOf(api, data, params).Success?
    requires WellFormed(params.query.Or([]))
    ensures var q := params.query.Or([]);
      Get(RequestParamsOf(api, data, params).value.query.value, k) ==
        if Has(q, k) then Get(q, k)
        else if k in api.queryKeys && Get(data, k).Some? && !Get(data, k).value.Undefined? then Get(data, k)
        else None
  {
    MergeGet(QueryKeyEntries(api.queryKeys, data), params.query.Or([]), k);
    QueryKeyEntriesGet(api.queryKeys, data, k);
  }

  /** `{ ...query, Action, Version: Version || defaultVersion }`. */
  function SignedParams(params: FetchParams, merged: Options): (d: Dict<Value>)
    ensures WellFormed(d)
    ensures Get(d, "Action") == Some(FieldValue(params.action))
    ensures Get(d, "Version") ==
      Some(if Filled(params.version) then Str(params.version.value) else FieldValue(merged.defaultVersion))
  {
    var version := if Filled(params.version) then Str(params.version.value) else FieldValue(merged.defaultVersion);
    Put(Put(Merge([], params.query.Or([])), "Action", FieldValue(params.action)), "Version", version)
  }

  /** The other signed parameters are those of `params.query`. */
  lemma SignedParamsQuery(params: FetchParams, merged: Options, k: string)
    requires k != "Action" && k != "Version"
    requires WellFormed(params.query.Or([]))
    ensures Get(SignedParams(params, merged), k) == Get(params.query.Or([]), k)
  {
    MergeGet([], params.query.Or([]), k);
  }

  /** The normalisation step: `undefined` and `null` become `''`. */
  function NormalValue(v: Value): Value {
    if Nullish(v) then Str("") else v
  }

  /** The parameters after the normalisation loop. */
  function Normalised(d: Dict<Value>): (r: Dict<Value>)
    ensures |r| == |d|
    ensures forall i :: 0 <= i < |d| ==> r[i].0 == d[i].0 && !Nullish(r[i].1)
  {
    seq(|d|, i requires 0 <= i < |d| => (d[i].0, NormalValue(d[i].1)))
  }

  /** Normalising keeps every key and every value that was neither `null` nor `undefined`. */
  lemma {:induction false} NormalisedGet(d: Dict<Value>, k: string)
    ensures Get(Normalised(d), k) == if Get(d, k).Some? then Some(NormalValue(Get(d, k).value)) else None
    decreases |d|
  {
    if d != [] {
      NormalisedGet(d[1..], k);
      assert Normalised(d)[1..] == Normalised(d[1..]);
    }
  }

  /** The state of the normalisation loop after the first `i` entries. */
  ghost predicate NormalisedUpTo(d: Dict<Value>, r: Dict<Value>, i: nat) {
    && i <= |d| && |r| == |d| && WellFormed(r)
    && (forall j :: 0 <= j < i ==> r[j] == (d[j].0, NormalValue(d[j].1)))
    && (forall j :: i <= j < |d| ==> r[j] == d[j])
  }

  lemma NormaliseStep(d: Dict<Value>, r: Dict<Value>, i: nat)
    requires NormalisedUpTo(d, r, i) && i < |d|
    ensures NormalisedUpTo(d, if Nullish(d[i].1) then Put(r, d[i].0, Str("")) else r, i + 1)
  {
    if Nullish(d[i].1) {
      var r' := r[..i] + [(d[i].0, Str(""))] + r[i + 1..];
      PutAt(r, i, Str(""));
      assert Put(r, d[i].0, Str("")) == r';
      assert forall j :: 0 <= j < i ==> r'[j] == r[j];
      assert forall j :: i < j < |d| ==> r'[j] == r[j];
    } else {
      assert r[i] == (d[i].0, NormalValue(d[i].1));
    }
  }

  /** `for (const [key, val] of Object.entries(params)) if (val == null) params[key] = ''`. */
  method NormaliseParams(d: Dict<Value>) returns (r: Dict<Value>)
    requires WellFormed(d)
    ensures r == Normalised(d)
  {
    r := d;
    var i := 0;
    while i < |d|
      invariant NormalisedUpTo(d, r, i)
    {
      var (key, val) := d[i];
      NormaliseStep(d, r, i);
      if Nullish(val) {
        r := Put(r, key, Str(""));
      }
      i := i + 1;
    }
  }

  /** `requestInit.body`: the data when it is truthy. */
  function BodyOf(data: Field<Body>): Body {
    if data.Set? && BodyTruthy(data.value) then data.value else Plain(Undefined)
  }

  /** The data handed to `fetch`. */
  function DataOf(data: Field<Body>): Body {
    if data.Set? then data.value else Plain(Undefined)
  }

  /** `protocol//host` with the defaults. */
  function Origin(merged: Options): string {
    OrElse(merged.protocol, DefaultProtocol) + "//" + OrElse(merged.host, DefaultHost)
  }

  /** The request object `fetchOpenAPI` gives the signer, as the signer's constructor leaves it. */
  function PreparedRequest(params: FetchParams, merged: Options, query: Dict<Value>): Req {
    Req(OrElse(merged.region, DefaultRegion), OrElse(params.httpMethod, "GET"), SortParams(Some(query)),
        Defined(params.pathname.Over(Set("/"))), params.headers.Or([]), BodyOf(params.data))
  }

  /** The credentials `fetchOpenAPI` signs with. */
  function CredentialsOf(merged: Options): Credentials
    requires merged.accessKeyId.Set? && merged.secretKey.Set?
  {
    Credentials(merged.accessKeyId.value, merged.secretKey.value, Defined(merged.sessionToken))
  }

  /** `protocol//host` and the path, then `?` and the query string when that is not empty. */
  function RequestUrl(merged: Options, pathname: Field<string>, queryString: string): (url: string)
    ensures url == Origin(merged) + ToStr(FieldValue(pathname)) + (if queryString == "" then "" else "?" + queryString)
  {
    var uri := Origin(merged) + ToStr(FieldValue(pathname));
    if queryString != "" then uri + "?" + queryString else uri
  }

  /** The request handed to `fetch` once the headers are signed. */
  function AddressOf(rt: Runtime, merged: Options, params: FetchParams, query: Dict<Value>,
                     signed: Result<Dict<Value>, string>): Result<Outgoing, string>
  {
    match signed
    case Failure(e) => Failure(e)
    case Success(headers) =>
      Success(Outgoing(RequestUrl(merged, params.pathname.Over(Set("/")), rt.qsStringify(query)),
                       RequestInfo(Some(OrElse(params.httpMethod, "GET")), Some(headers), DataOf(params.data))))
  }

  /**
   * What `fetchOpenAPI(params, options)` hands to `fetch` (the URI and the
   * request), or the error it throws, given the service's options and
   * `new Date().toISOString()`.
   */
  function FetchOpenApiOf(rt: Runtime, serviceOptions: Options, params: FetchParams, options: Options, iso: string)
    : (r: Result<Outgoing, string>)
    ensures var merged := serviceOptions.Spread(options);
      !Filled(merged.accessKeyId) || !Filled(merged.secretKey) ==> r == Failure(CredentialsMissing)
  {
    var merged := serviceOptions.Spread(options);
    var query := Normalised(SignedParams(params, merged));
    if !Filled(merged.accessKeyId) || !Filled(merged.secretKey) then Failure(CredentialsMissing)
    else
      AddressOf(rt, merged, params, query,
                SignRequest(rt, PreparedRequest(params, merged, query), merged.serviceName.Or(""), None,
                            CredentialsOf(merged), iso))
  }

  lemma FetchOpenApiUnfold(rt: Runtime, serviceOptions: Options, params: FetchParams, options: Options, iso: string)
    ensures var merged := serviceOptions.Spread(options);
      var query := Normalised(SignedParams(params, merged));
      Filled(merged.accessKeyId) && Filled(merged.secretKey) ==>
        FetchOpenApiOf(rt, serviceOptions, params, options, iso) ==
        AddressOf(rt, merged, params, query,
                  SignRequest(rt, PreparedRequest(params, merged, query), merged.serviceName.Or(""), None,
                              CredentialsOf(merged), iso))
  {
  }

  lemma AddressOfSent(rt: Runtime, merged: Options, params: FetchParams, query: Dict<Value>,
                      signed: Result<Dict<Value>, string>)
    requires AddressOf(rt, merged, params, query, signed).Success?
    ensures var out := AddressOf(rt, merged, params, query, signed).value;
      var path := if params.pathname.Absent? then "/" else ToStr(FieldValue(params.pathname));
      var queryString := rt.qsStringify(query);
      && signed.Success?
      && out.url == Origin(merged) + path + (if queryString == "" then "" else "?" + queryString)
      && out.info.httpMethod == Some(OrElse(params.httpMethod, "GET"))
      && out.info.headers == Some(signed.value)
  {
    assert ToStr(FieldValue(params.pathname.Over(Set("/")))) ==
      if params.pathname.Absent? then "/" else ToStr(FieldValue(params.pathname));
  }

  /**
   * A request that is sent is addressed to `protocol//host` plus the path
   * (`/` by default), with `?` and the query string only when that is not
   * empty; it carries the method (`GET` by default) and the signed headers.
   */
  lemma FetchOpenApiRequest(rt: Runtime, serviceOptions: Options, params: FetchParams, options: Options, iso: string)
    requires FetchOpenApiOf(rt, serviceOptions, params, options, iso).Success?
    ensures var merged := serviceOptions.Spread(options);
      var query := Normalised(SignedParams(params, merged));
      var out := FetchOpenApiOf(rt, serviceOptions, params, options, iso).value;
      var path := if params.pathname.Absent? then "/" else ToStr(FieldValue(params.pathname));
      var queryString := rt.qsStringify(query);
      && Filled(merged.accessKeyId) && Filled(merged.secretKey)
      && out.url == Origin(merged) + path + (if queryString == "" then "" else "?" + queryString)
      && out.info.httpMethod == Some(OrElse(params.httpMethod, "GET"))
      && out.info.headers.Some?
      && SignRequest(rt, PreparedRequest(params, merged, query), merged.serviceName.Or(""), None,
           CredentialsOf(merged), iso) == Success(out.info.headers.value)
  {
    var merged := serviceOptions.Spread(options);
    var query := Normalised(SignedParams(params, merged));
    FetchOpenApiUnfold(rt, serviceOptions, params, options, iso);
    AddressOfSent(rt, merged, params, query,
                  SignRequest(rt, PreparedRequest(params, merged, query), merged.serviceName.Or(""), None,
                              CredentialsOf(merged), iso));
  }

  /**
   * Every signed parameter is a query parameter (or `Action`, `Version`)
   * with `null` and `undefined` turned into `''`.
   */
  lemma SignedQuery(params: FetchParams, merged: Options, k: string)
    requires WellFormed(params.query.Or([]))
    ensures var query := Normalised(SignedParams(params, merged));
      var version := if Filled(params.version) then Str(params.version.value) else FieldValue(merged.defaultVersion);
      && Get(query, k) ==
           (if k == "Action" then Some(NormalValue(FieldValue(params.action)))
            else if k == "Version" then Some(NormalValue(version))
            else if Get(params.query.Or([]), k).Some? then Some(NormalValue(Get(params.query.Or([]), k).value))
            else None)
  {
    NormalisedGet(SignedParams(params, merged), k);
    if k != "Action" && k != "Version" {
      SignedParamsQuery(params, merged, k);
    }
  }

  /** The body of `fetchOpenAPI` on the service's options: spread, sign the query, normalise, sign the request. */
  method FetchWith(rt: Runtime, serviceOptions: Options, params: FetchParams, options: Options, iso: string)
    returns (r: Result<Outgoing, string>)
    ensures r == FetchOpenApiOf(rt, serviceOptions, params, options, iso)
  {
    var merged := serviceOptions.Spread(options);
    var query := NormalisedQuery(params, merged);
    var signer := NewSigner(params, merged, query);
    if !Filled(merged.accessKeyId) || !Filled(merged.secretKey) {
      return Failure(CredentialsMissing);
    }
    FetchOpenApiUnfold(rt, serviceOptions, params, options, iso);
    r := SignAndAddress(rt, merged, params, query, signer, iso);
  }

  /** The signed parameters after the normalisation loop. */
  method NormalisedQuery(params: FetchParams, merged: Options) returns (query: Dict<Value>)
    ensures query == Normalised(SignedParams(params, merged))
  {
    query := SignedParams(params, merged);
    query := NormaliseParams(query);
  }

  /** The request object `fetchOpenAPI` builds and the signer it hands it to. */
  method NewSigner(params: FetchParams, merged: Options, query: Dict<Value>) returns (signer: Signer)
    ensures fresh(signer) && fresh(signer.request)
    ensures signer.Ready() && signer.bodySha256 == None && signer.serviceName == merged.serviceName.Or("")
    ensures signer.request.View() == PreparedRequest(params, merged, query)
  {
    var pathname := params.pathname.Over(Set("/"));
    var request := new RequestObj(OrElse(merged.region, DefaultRegion), OrElse(params.httpMethod, "GET"), Some(query),
                                  Defined(pathname), if params.headers.Set? then Some(params.headers.value) else None,
                                  BodyOf(params.data));
    signer := new Signer(request, merged.serviceName.Or(""), None);
  }

  /** The end of `fetchOpenAPI`: `addAuthorization`, then the URI and the request for `fetch`. */
  method SignAndAddress(rt: Runtime, merged: Options, params: FetchParams, query: Dict<Value>, signer: Signer, iso: string)
    returns (r: Result<Outgoing, string>)
    requires Filled(merged.accessKeyId) && Filled(merged.secretKey)
    requires signer.Ready() && signer.bodySha256 == None && signer.serviceName == merged.serviceName.Or("")
    requires signer.request.View() == PreparedRequest(params, merged, query)
    modifies signer.request
    ensures r == AddressOf(rt, merged, params, query,
                           SignRequest(rt, PreparedRequest(params, merged, query), merged.serviceName.Or(""), None,
                                       CredentialsOf(merged), iso))
  {
    var request := signer.request;
    var credentials := Credentials(merged.accessKeyId.value, merged.secretKey.value, Defined(merged.sessionToken));
    var signed := signer.AddAuthorization(rt, credentials, iso);
    if signed.Failure? {
      return Failure(signed.error);
    }
    var uri := Origin(merged) + ToStr(FieldValue(params.pathname.Over(Set("/"))));
    var queryString := rt.qsStringify(query);
    if queryString != "" {
      uri := uri + "?" + queryString;
    }
    return Success(Outgoing(uri, RequestInfo(Some(request.httpMethod), request.headers, DataOf(params.data))));
  }

  /** `Service`: the options of one OpenAPI service, changed by its setters. */
  class Service {
    var options: Options

    /** `new Service(options)`: the defaults overridden by the given options. */
    constructor(options: Options)
      ensures this.options == Defaults.Spread(options)
    {
      this.options := Defaults.Spread(options);
    }

    method SetAccessKeyId(accessKeyId: string)
      modifies this
      ensures options == old(options).(accessKeyId := Set(accessKeyId))
    {
      options := options.(accessKeyId := Set(accessKeyId));
    }

    method SetSecretKey(secretKey: string)
      modifies this
      ensures options == old(options).(secretKey := Set(secretKey))
    {
      options := options.(secretKey := Set(secretKey));
    }

    method SetSessionToken(sessionToken: string)
      modifies this
      ensures options == old(options).(sessionToken := Set(sessionToken))
    {
      options := options.(sessionToken := Set(sessionToken));
    }

    method SetRegion(region: string)
      modifies this
      ensures options == old(options).(region := Set(region))
    {
      options := options.(region := Set(region));
    }

    method SetHost(host: string)
      modifies this
      ensures options == old(options).(host := Set(host))
    {
      options := options.(host := Set(host));
    }

    function GetSessionToken(): (r: Option<string>)
      reads this
      ensures r.Some? <==> options.sessionToken.Set?
      ensures r.Some? ==> r.value == options.sessionToken.value
    {
      Defined(options.sessionToken)
    }

    function GetAccessKeyId(): (r: Option<string>)
      reads this
      ensures r.Some? <==> options.accessKeyId.Set?
      ensures r.Some? ==> r.value == options.accessKeyId.value
    {
      Defined(options.accessKeyId)
    }

    function GetSecretKey(): (r: Option<string>)
      reads this
      ensures r.Some? <==> options.secretKey.Set?
      ensures r.Some? ==> r.value == options.secretKey.value
    {
      Defined(options.secretKey)
    }

    /** The `urlencode` branch: a `URLSearchParams` filled by `append` in key order. */
    method UrlEncodedBody(data: Dict<Value>) returns (pairs: seq<(string, string)>)
      ensures pairs == FormPairs(data)
    {
      pairs := [];
      var i := 0;
      while i < |data|
        invariant 0 <= i <= |data|
        invariant pairs == FormPairs(data[..i])
      {
        assert data[..i + 1][..i] == data[..i];
        var (key, val) := data[i];
        if !Nullish(val) {
          pairs := pairs + [(key, ToStr(val))];
        }
        i := i + 1;
      }
      assert data[..i] == data;
    }

    /** The body of an API function made by `createAPI`, up to the call of `fetchOpenAPI`. */
    method RequestParams(api: Api, data: Dict<Value>, params: FetchParams) returns (r: Result<FetchParams, string>)
      ensures r == RequestParamsOf(api, data, params)
    {
      var requestParams := params.(httpMethod := Set(api.httpMethod), action := Set(api.action),
                                   version := if api.version.Some? then Set(api.version.value) else Undef);
      if api.httpMethod == "GET" {
        requestParams := requestParams.(query := Set(data));
      } else {
        requestParams := requestParams.(query := Set(Merge(QueryKeyEntries(api.queryKeys, data), params.query.Or([]))));
        if api.contentType == "json" {
          requestParams := requestParams.(headers := Set(Put(Merge([], requestParams.headers.Or([])), "content-type",
                                                             Str(JsonContentType))),
                                          data := Set(Plain(Obj(data))));
        } else if api.contentType == "urlencode" {
          var pairs := UrlEncodedBody(data);
          requestParams := requestParams.(data := Set(Form(pairs)));
        } else {
          return Failure("contentType " + api.contentType + " is not support");
        }
      }
      return Success(requestParams);
    }

    /** `fetchOpenAPI(params, options)`, given `new Date().toISOString()`. */
    method FetchOpenApi(rt: Runtime, params: FetchParams, options: Options, iso: string) returns (r: Result<Outgoing, string>)
      ensures r == FetchOpenApiOf(rt, this.options, params, options, iso)
    {
      r := FetchWith(rt, this.options, params, options, iso);
    }

    /** Calling an API function made by `createAPI` with `(requestData, params, options)`. */
    method CallApi(rt: Runtime, api: Api, data: Dict<Value>, params: FetchParams, options: Options, iso: string)
      returns (r: Result<Outgoing, string>)
      ensures r == match RequestParamsOf(api, data, params)
                   case Failure(e) => Failure(e)
                   case Success(p) => FetchOpenApiOf(rt, this.options, p, options, iso)
    {
      var requestParams := RequestParams(api, data, params);
      if requestParams.Failure? {
        return Failure(requestParams.error);
      }
      r := FetchOpenApi(rt, requestParams.value, options, iso);
    }
  }
}
