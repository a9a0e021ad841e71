/**
 * What the node's operations share: the `volcEngineApi` credential, the
 * host taken from its base URL, the IAM client they configure, the call
 * of `fetchOpenAPI` or of the knowledge-base client through an injected
 * transport, and the classification of the response.
 */
module Operations {
  import opened Base
  import opened Dicts
  import opened JsValues
  import opened Host
  import opened Transport
  import opened Responses
  import opened OpenApi
  import Iam
  import Air

  const DefaultBaseUrl: string := "https://open.volcengineapi.com"
  const InvalidUrl: string := "Invalid URL"
  const IamVersion: string := "2018-01-01"

  /** How a call ends when it does not return a value: an exception, or a response classified as an error. */
  datatype CallError = Thrown(message: string) | Rejected(error: ResponseError)

  /** The fields of the `volcEngineApi` credential the operations read. */
  datatype Connection = Connection(accessKeyId: string, secretKey: string, region: string, baseUrl: string)

  /** `credentials.baseUrl || 'https://open.volcengineapi.com'`. */
  function BaseUrl(c: Connection): (url: string)
    ensures url != ""
    ensures c.baseUrl != "" ==> url == c.baseUrl
  {
    StrOr(Some(c.baseUrl), DefaultBaseUrl)
  }

  /** `new URL(baseUrl).host`, `None` where the URL does not parse. */
  function HostOf(rt: Runtime, c: Connection): Option<string> {
    rt.urlHost(BaseUrl(c))
  }

  /**
   * The options of an IAM service given the credential's keys and region
   * and the host, through the constructor or through the four setters.
   */
  function IamConfigured(c: Connection, host: string): Options {
    Defaults.Spread(Iam.IamOptions(NoOptions.(accessKeyId := Set(c.accessKeyId), secretKey := Set(c.secretKey),
                                              host := Set(host), region := Set(c.region))))
  }

  /** The configured IAM service signs as `iam` at `2018-01-01` with the credential's keys, region and host. */
  lemma IamConfiguredFields(c: Connection, host: string)
    ensures var o := IamConfigured(c, host);
      && o.serviceName == Set(Iam.IamServiceName) && o.defaultVersion == Set(IamVersion)
      && o.accessKeyId == Set(c.accessKeyId) && o.secretKey == Set(c.secretKey)
      && o.host == Set(host) && o.region == Set(c.region) && o.protocol == Set(DefaultProtocol)
      && o.sessionToken == Absent
  {
  }

  /** `new IamService()` and the four setters. */
  method ConfigureIam(c: Connection, host: string) returns (s: Service)
    ensures fresh(s) && s.options == IamConfigured(c, host)
  {
    s := Iam.NewIamService(NoOptions);
    s.SetAccessKeyId(c.accessKeyId);
    s.SetSecretKey(c.secretKey);
    s.SetHost(host);
    s.SetRegion(c.region);
  }

  /** `new IamService({ accessKeyId, secretKey, host, region, httpRequestFn })`, as `createIamService` does. */
  method CreateIam(c: Connection, host: string) returns (s: Service)
    ensures fresh(s) && s.options == IamConfigured(c, host)
  {
    s := Iam.NewIamService(NoOptions.(accessKeyId := Set(c.accessKeyId), secretKey := Set(c.secretKey),
                                      host := Set(host), region := Set(c.region)));
  }

  /** A request handed to the transport and its response classified by `handleVolcEngineResponse`. */
  function Classify(sent: Result<Outgoing, string>, send: Outgoing -> Value): (r: Result<Value, CallError>)
    ensures sent.Failure? ==> r == Failure(Thrown(sent.error))
    ensures sent.Success? ==>
      var h := HandleVolcEngineResponse(send(sent.value));
      && (r.Success? <==> h.Success?)
      && (r.Success? ==> r.value == h.value)
      && (r.Failure? ==> r.error == Rejected(h.error))
  {
    match sent
    case Failure(e) => Failure(Thrown(e))
    case Success(out) =>
      match HandleVolcEngineResponse(send(out))
      case Failure(e) => Failure(Rejected(e))
      case Success(v) => Success(v)
  }

  /** A request handed to the transport and its response classified by `handleAirKnowledgeResponse`. */
  function ClassifyKnowledge(sent: Result<Outgoing, string>, send: Outgoing -> Value): (r: Result<Value, CallError>)
    ensures sent.Failure? ==> r == Failure(Thrown(sent.error))
    ensures sent.Success? ==>
      var h := HandleAirKnowledgeResponse(send(sent.value));
      && (r.Success? <==> h.Success?)
      && (r.Success? ==> r.value == h.value)
      && (r.Failure? ==> r.error == Rejected(h.error))
  {
    match sent
    case Failure(e) => Failure(Thrown(e))
    case Success(out) =>
      match HandleAirKnowledgeResponse(send(out))
      case Failure(e) => Failure(Rejected(e))
      case Success(v) => Success(v)
  }

  /** `fetchOpenAPI({ Action, Version: '2018-01-01', method: 'GET', query })`. */
  function IamGet(action: string, query: Dict<Value>): FetchParams {
    NoFetchParams.(action := Set(action), version := Set(IamVersion), httpMethod := Set("GET"), query := Set(query))
  }

  /**
   * The IAM operations that call `fetchOpenAPI` themselves: the host from
   * the base URL, the configured service, the call, the classification.
   */
  function IamCallOf(rt: Runtime, send: Outgoing -> Value, c: Connection, action: string, query: Dict<Value>, iso: string)
    : Result<Value, CallError>
  {
    match HostOf(rt, c)
    case None => Failure(Thrown(InvalidUrl))
    case Some(host) => Classify(FetchOpenApiOf(rt, IamConfigured(c, host), IamGet(action, query), NoOptions, iso), send)
  }

  /**
   * Such a call signs `Action` and `Version` `2018-01-01` over the query
   * (with `null` and `undefined` turned into `''`), under the service name
   * `iam`.
   */
  lemma IamCallSigned(c: Connection, host: string, action: string, query: Dict<Value>, k: string)
    requires WellFormed(query)
    ensures var merged := IamConfigured(c, host).Spread(NoOptions);
      && merged.serviceName == Set(Iam.IamServiceName)
      && Get(Normalised(SignedParams(IamGet(action, query), merged)), k) ==
           (if k == "Action" then Some(Str(action))
            else if k == "Version" then Some(Str(IamVersion))
            else if Get(query, k).Some? then Some(NormalValue(Get(query, k).value))
            else None)
  {
    IamConfiguredFields(c, host);
    SignedOf(IamGet(action, query), IamConfigured(c, host).Spread(NoOptions), k);
  }

  /**
   * The signed parameters of a call that sets the action, the version
   * (not empty, or without a default version) and the query.
   */
  lemma SignedOf(params: FetchParams, merged: Options, k: string)
    requires params.action.Set? && params.version.Set? && params.query.Set? && WellFormed(params.query.value)
    requires params.version.value != "" || merged.defaultVersion == Absent
    ensures Get(Normalised(SignedParams(params, merged)), k) ==
           (if k == "Action" then Some(Str(params.action.value))
            else if k == "Version" then Some(Str(params.version.value))
            else if Get(params.query.value, k).Some? then Some(NormalValue(Get(params.query.value, k).value))
            else None)
  {
    SignedQuery(params, merged, k);
    assert FieldValue(params.action) == Str(params.action.value) && !Nullish(Str(params.action.value));
    assert NormalValue(if Filled(params.version) then Str(params.version.value) else FieldValue(merged.defaultVersion))
           == Str(params.version.value);
  }

  /** Such a call is sent as a `GET`. */
  lemma IamCallMethod(rt: Runtime, c: Connection, host: string, action: string, query: Dict<Value>, iso: string)
    requires FetchOpenApiOf(rt, IamConfigured(c, host), IamGet(action, query), NoOptions, iso).Success?
    ensures FetchOpenApiOf(rt, IamConfigured(c, host), IamGet(action, query), NoOptions, iso).value.info.httpMethod
            == Some("GET")
  {
    FetchOpenApiRequest(rt, IamConfigured(c, host), IamGet(action, query), NoOptions, iso);
  }

  /** What a `GET` binding made by `createAPI` hands to `fetchOpenAPI`: its action, the data as the query, no version. */
  function ApiGet(action: string, query: Dict<Value>): FetchParams {
    NoFetchParams.(httpMethod := Set("GET"), action := Set(action), version := Undef, query := Set(query))
  }

  /**
   * The parameters an IAM `GET` binding signs: the action, the version
   * `2018-01-01` and the query, with `null` and `undefined` turned into `''`.
   */
  lemma IamQueryGet(o: Options, action: string, query: Dict<Value>, k: string)
    requires o.defaultVersion == Set(IamVersion)
    requires WellFormed(query)
    ensures Get(Normalised(SignedParams(ApiGet(action, query), o.Spread(NoOptions))), k) ==
        if k == "Action" then Some(Str(action))
        else if k == "Version" then Some(Str(IamVersion))
        else if Get(query, k).Some? then Some(NormalValue(Get(query, k).value))
        else None
  {
    var params := ApiGet(action, query);
    NormalisedGet(SignedParams(params, o.Spread(NoOptions)), k);
    if k != "Action" && k != "Version" {
      SignedParamsQuery(params, o.Spread(NoOptions), k);
    }
  }

  /** The call of `fetchOpenAPI` on a configured service and the classification of its response. */
  method IamCall(rt: Runtime, send: Outgoing -> Value, s: Service, action: string, query: Dict<Value>, iso: string)
    returns (r: Result<Value, CallError>)
    ensures r == Classify(FetchOpenApiOf(rt, s.options, IamGet(action, query), NoOptions, iso), send)
  {
    var sent := s.FetchOpenApi(rt, IamGet(action, query), NoOptions, iso);
    if sent.Failure? {
      return Failure(Thrown(sent.error));
    }
    var h := HandleVolcEngineResponse(send(sent.value));
    if h.Failure? {
      return Failure(Rejected(h.error));
    }
    return Success(h.value);
  }

  /** `getNodeParameter(name, index, fallback)`: the parameter's value, or the fallback when it has none. */
  function Param<T>(p: Option<T>, fallback: T): T {
    p.GetOr(fallback)
  }

  /** `s || fallback` on a string: a credential field or a node parameter, when it has one. */
  function StrOr(p: Option<string>, fallback: string): (r: string)
    ensures r == fallback || (p.Some? && r == p.value && r != "")
  {
    if p.Some? && p.value != "" then p.value else fallback
  }

  /** `if (cond) params[name] = value`. */
  function PutIf(d: Dict<Value>, cond: bool, name: string, value: Value): (r: Dict<Value>)
    ensures WellFormed(d) ==> WellFormed(r)
    ensures Get(r, name) == if cond then Some(value) else Get(d, name)
  {
    if cond then Put(d, name, value) else d
  }

  /** A later assignment wins over what was there; every other parameter stays as it was. */
  lemma PutIfGet(d: Dict<Value>, cond: bool, name: string, value: Value, k: string)
    ensures Get(PutIf(d, cond, name, value), k) == if k == name && cond then Some(value) else Get(d, k)
  {
    if k != name {
      assert Get(PutIf(d, cond, name, value), k) == Get(d, k);
    }
  }

  /** One statement `if (cond) params[name] = value`. */
  datatype Assignment = Assignment(name: string, cond: bool, value: Value)

  /** Three such statements in a row. */
  function Assign3(d: Dict<Value>, a: Assignment, b: Assignment, c: Assignment): Dict<Value> {
    PutIf(PutIf(PutIf(d, a.cond, a.name, a.value), b.cond, b.name, b.value), c.cond, c.name, c.value)
  }

  /** `typeof v === 'string' ? JSON.parse(v) : v`; `None` where `JSON.parse` throws. */
  function Lenient(rt: Runtime, v: Value): (r: Option<Value>)
    ensures !v.Str? ==> r == Some(v)
  {
    if v.Str? then rt.jsonParse(v.s) else Some(v)
  }

  /** Three statements that all run, under three different names, build the object literal of the three. */
  lemma Assign3Literal(a: Assignment, b: Assignment, c: Assignment)
    requires a.cond && b.cond && c.cond
    requires a.name != b.name && a.name != c.name && b.name != c.name
    ensures Assign3([], a, b, c) == [(a.name, a.value), (b.name, b.value), (c.name, c.value)]
  {
    var ab := [(a.name, a.value), (b.name, b.value)];
    assert Put([(a.name, a.value)], b.name, b.value) == ab;
    assert Put(ab, c.name, c.value) == [ab[0]] + Put(ab[1..], c.name, c.value);
  }

  /** A parameter holds the value of the last statement that ran and named it, or what it held before. */
  lemma Assign3Get(d: Dict<Value>, a: Assignment, b: Assignment, c: Assignment, k: string)
    ensures WellFormed(d) ==> WellFormed(Assign3(d, a, b, c))
    ensures Get(Assign3(d, a, b, c), k) ==
      if k == c.name && c.cond then Some(c.value)
      else if k == b.name && b.cond then Some(b.value)
      else if k == a.name && a.cond then Some(a.value)
      else Get(d, k)
  {
    var d1 := PutIf(d, a.cond, a.name, a.value);
    var d2 := PutIf(d1, b.cond, b.name, b.value);
    PutIfGet(d, a.cond, a.name, a.value, k);
    PutIfGet(d1, b.cond, b.name, b.value, k);
    PutIfGet(d2, c.cond, c.name, c.value, k);
  }

  /** Nine statements in a row, three at a time. */
  function Assign9(d: Dict<Value>, a0: Assignment, a1: Assignment, a2: Assignment, a3: Assignment, a4: Assignment,
                   a5: Assignment, a6: Assignment, a7: Assignment, a8: Assignment): Dict<Value> {
    Assign3(Assign3(Assign3(d, a0, a1, a2), a3, a4, a5), a6, a7, a8)
  }

  /** A parameter holds the value of the last of the nine that ran and named it, or what it held before. */
  lemma Assign9Get(d: Dict<Value>, a0: Assignment, a1: Assignment, a2: Assignment, a3: Assignment,
                   a4: Assignment, a5: Assignment, a6: Assignment, a7: Assignment, a8: Assignment, k: string)
    ensures WellFormed(d) ==> WellFormed(Assign9(d, a0, a1, a2, a3, a4, a5, a6, a7, a8))
    ensures Get(Assign9(d, a0, a1, a2, a3, a4, a5, a6, a7, a8), k) ==
      if k == a8.name && a8.cond then Some(a8.value)
      else if k == a7.name && a7.cond then Some(a7.value)
      else if k == a6.name && a6.cond then Some(a6.value)
      else if k == a5.name && a5.cond then Some(a5.value)
      else if k == a4.name && a4.cond then Some(a4.value)
      else if k == a3.name && a3.cond then Some(a3.value)
      else if k == a2.name && a2.cond then Some(a2.value)
      else if k == a1.name && a1.cond then Some(a1.value)
      else if k == a0.name && a0.cond then Some(a0.value)
      else Get(d, k)
  {
    var d1 := Assign3(d, a0, a1, a2);
    var d2 := Assign3(d1, a3, a4, a5);
    Assign3Get(d, a0, a1, a2, k);
    Assign3Get(d1, a3, a4, a5, k);
    Assign3Get(d2, a6, a7, a8, k);
  }

  /** The region the knowledge-base operations fall back to when the credential names none. */
  const DefaultRegion: string := "cn-north-1"

  /** The knowledge-base client the viking operations create: the keys and the region, nothing else. */
  function AirConfigured(c: Connection): Air.AirOptions {
    Air.AirDefaults.Spread(Air.NoAirOptions.(accessKeyId := Set(c.accessKeyId), secretKey := Set(c.secretKey),
                                             region := Set(StrOr(Some(c.region), DefaultRegion))))
  }
}
