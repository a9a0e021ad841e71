/**
 * The custom-request `SendRequest` operation
 * (nodes/VolcEngine/resource/customRequest/SendRequest.ts): any OpenAPI
 * action of any service, with the query and the body given as name/value
 * pairs or as JSON, signed and sent by a `Service` configured from the
 * credential. The raw response is returned without classification.
 */
module SendRequestOperation {
  import opened Base
  import opened Dicts
  import opened JsValues
  import opened Host
  import opened Transport
  import opened OpenApi
  import opened Operations

  const KeyPairMode: string := "keypair"
  const JsonMode: string := "json"
  const JsonType: string := "application/json"
  /** The `SyntaxError` `JSON.parse` throws; its exact message is not modelled. */
  const InvalidJson: string := "Unexpected token in JSON"

  /** One row of a name/value collection; a missing name is `''`, a missing value `undefined`. */
  datatype KeyPair = KeyPair(name: string, value: Value)

  /** The node parameters; `None` is an optional parameter without a value. */
  datatype Input = Input(
    service: string, action: string, version: string, httpMethod: string,
    sendQuery: Option<bool>, sendBody: Option<bool>,
    specifyQuery: Option<string>, queryParameters: Option<seq<KeyPair>>, jsonQuery: Option<Value>,
    contentType: Option<string>, specifyBody: Option<string>, bodyParameters: Option<seq<KeyPair>>,
    jsonBody: Option<Value>)

  /** The parameter values with the defaults the operation reads them with. */
  datatype Values = Values(
    service: string, action: string, version: string, httpMethod: string,
    sendQuery: bool, sendBody: bool,
    specifyQuery: string, queryParameters: seq<KeyPair>, jsonQuery: Value,
    contentType: string, specifyBody: string, bodyParameters: seq<KeyPair>, jsonBody: Value)

  function ValuesOf(input: Input): Values {
    Values(input.service, input.action, input.version, input.httpMethod,
           Param(input.sendQuery, false), Param(input.sendBody, false),
           Param(input.specifyQuery, KeyPairMode), Param(input.queryParameters, []), Param(input.jsonQuery, Str("{}")),
           Param(input.contentType, JsonMode), Param(input.specifyBody, KeyPairMode), Param(input.bodyParameters, []),
           Param(input.jsonBody, Str("{}")))
  }

  /** The value stored for a pair: `value ?? ''` for the query, the value as is for the body. */
  function Fill(v: Value, blank: bool): (r: Value)
    ensures blank && Nullish(v) ==> r == Str("")
    ensures !blank || !Nullish(v) ==> r == v
  {
    if blank && Nullish(v) then Str("") else v
  }

  /** `for (const param of pairs) if (param.name) d[param.name] = …`, from `{}`. */
  function Collect(pairs: seq<KeyPair>, blank: bool): Dict<Value>
    decreases |pairs|
  {
    if pairs == [] then []
    else
      var d := Collect(pairs[..|pairs| - 1], blank);
      var p := pairs[|pairs| - 1];
      if p.name != "" then Put(d, p.name, Fill(p.value, blank)) else d
  }

  /** Some pair carries the non-empty name `k`. */
  ghost predicate Named(pairs: seq<KeyPair>, k: string) {
    k != "" && exists i :: 0 <= i < |pairs| && pairs[i].name == k
  }

  /** Pair `i` is the last one that carries the non-empty name `k`. */
  ghost predicate LastNamed(pairs: seq<KeyPair>, i: int, k: string) {
    0 <= i < |pairs| && pairs[i].name == k && k != "" && forall j :: i < j < |pairs| ==> pairs[j].name != k
  }

  /** The collected object never has a key twice. */
  lemma {:induction false} CollectWellFormed(pairs: seq<KeyPair>, blank: bool)
    ensures WellFormed(Collect(pairs, blank))
    decreases |pairs|
  {
    if pairs != [] {
      CollectWellFormed(pairs[..|pairs| - 1], blank);
      CollectStep(pairs, blank, "");
    }
  }

  /**
   * The collected object has a property for each non-empty name that some
   * pair carries and for no other key, holding the value of the last pair
   * with that name.
   */
  lemma {:induction false} CollectGet(pairs: seq<KeyPair>, blank: bool, k: string)
    ensures Get(Collect(pairs, blank), k).Some? <==> Named(pairs, k)
    ensures forall i :: LastNamed(pairs, i, k) ==> Get(Collect(pairs, blank), k) == Some(Fill(pairs[i].value, blank))
    decreases |pairs|
  {
    if pairs != [] {
      var n := |pairs| - 1;
      var init := pairs[..n];
      CollectGet(init, blank, k);
      CollectWellFormed(init, blank);
      CollectStep(pairs, blank, k);
      if pairs[n].name == k && k != "" {
        assert Named(pairs, k);
        assert forall i :: LastNamed(pairs, i, k) ==> i == n;
      } else {
        InitNamed(pairs, k);
      }
    }
  }

  /** One more pair changes only the property it names, and only when its name is not empty. */
  lemma CollectStep(pairs: seq<KeyPair>, blank: bool, k: string)
    requires pairs != []
    requires WellFormed(Collect(pairs[..|pairs| - 1], blank))
    ensures WellFormed(Collect(pairs, blank))
    ensures var p := pairs[|pairs| - 1];
      Get(Collect(pairs, blank), k) ==
        if p.name == k && k != "" then Some(Fill(p.value, blank)) else Get(Collect(pairs[..|pairs| - 1], blank), k)
  {
  }

  /** Without the last pair naming `k`, the pairs naming `k` and the last of them are those of the shorter list. */
  lemma InitNamed(pairs: seq<KeyPair>, k: string)
    requires pairs != [] && !(pairs[|pairs| - 1].name == k && k != "")
    ensures var init := pairs[..|pairs| - 1];
      && (Named(pairs, k) <==> Named(init, k))
      && (forall i :: LastNamed(pairs, i, k) ==> LastNamed(init, i, k) && init[i] == pairs[i])
  {
    var init := pairs[..|pairs| - 1];
    assert forall i :: 0 <= i < |init| ==> init[i] == pairs[i];
  }

  /** The `for` loop over the pairs. */
  method CollectPairs(pairs: seq<KeyPair>, blank: bool) returns (d: Dict<Value>)
    ensures d == Collect(pairs, blank)
  {
    d := [];
    for i := 0 to |pairs|
      invariant d == Collect(pairs[..i], blank)
    {
      assert pairs[..i + 1][..i] == pairs[..i];
      if pairs[i].name != "" {
        d := Put(d, pairs[i].name, Fill(pairs[i].value, blank));
      }
    }
    assert pairs[..|pairs|] == pairs;
  }

  /**
   * `queryParams`: empty unless `sendQuery`; the pairs with a name, a
   * missing value sent as `''`; or the JSON, parsed when it is a string,
   * whose own properties `Object.assign` copies. A JSON text that does not
   * parse throws.
   */
  function QueryOf(rt: Runtime, v: Values): Result<Dict<Value>, string> {
    if !v.sendQuery then Success([])
    else if v.specifyQuery == KeyPairMode then Success(Collect(v.queryParameters, true))
    else
      match Lenient(rt, v.jsonQuery)
      case None => Failure(InvalidJson)
      case Some(parsed) => Success(Merge([], RecordView(Plain(parsed))))
  }

  /**
   * `bodyData`: `undefined` unless `sendBody` and `POST`; then the JSON,
   * parsed when it is a string (a text that does not parse throws), or the
   * object of the pairs with a name.
   */
  function BodyDataOf(rt: Runtime, v: Values): Result<Value, string> {
    if !(v.sendBody && v.httpMethod == "POST") then Success(Undefined)
    else if v.specifyBody == JsonMode then
      match Lenient(rt, v.jsonBody)
      case None => Failure(InvalidJson)
      case Some(parsed) => Success(parsed)
    else Success(Obj(Collect(v.bodyParameters, false)))
  }

  /** `contentType`: `json` unless read for a `POST` with a body. */
  function ContentTypeOf(v: Values): string {
    if v.sendBody && v.httpMethod == "POST" then v.contentType else JsonMode
  }

  /** The argument of `fetchOpenAPI`: the data only when truthy, `Content-Type` JSON only with JSON data. */
  function FetchParamsOf(v: Values, query: Dict<Value>, data: Value): FetchParams {
    NoFetchParams.(action := Set(v.action), version := Set(v.version), httpMethod := Set(v.httpMethod),
                   query := Set(query), data := if Truthy(data) then Set(Plain(data)) else Absent,
                   headers := Set(if ContentTypeOf(v) == JsonMode && Truthy(data)
                                  then [("Content-Type", Str(JsonType))] else []))
  }

  /** `new Service({ serviceName, accessKeyId, secretKey, host, region, httpRequestFn })`. */
  function ServiceOptionsOf(c: Connection, host: string, serviceName: string): Options {
    Defaults.Spread(NoOptions.(serviceName := Set(serviceName), accessKeyId := Set(c.accessKeyId),
                               secretKey := Set(c.secretKey), host := Set(host), region := Set(c.region)))
  }

  /** The service signs under the given name, with the credential's keys and region, at the base URL's host. */
  lemma ServiceOptionsFields(c: Connection, host: string, serviceName: string)
    ensures var o := ServiceOptionsOf(c, host, serviceName).Spread(NoOptions);
      && o.serviceName == Set(serviceName) && o.accessKeyId == Set(c.accessKeyId) && o.secretKey == Set(c.secretKey)
      && o.host == Set(host) && o.region == Set(c.region) && o.protocol == Set(DefaultProtocol)
      && o.sessionToken == Absent && o.defaultVersion == Absent
  {
  }

  /** What `call` returns or throws, given the transport and `new Date().toISOString()`. */
  function CallOf(rt: Runtime, send: Outgoing -> Value, c: Connection, input: Input, iso: string)
    : Result<Value, CallError>
  {
    var v := ValuesOf(input);
    match HostOf(rt, c)
    case None => Failure(Thrown(InvalidUrl))
    case Some(host) =>
      match QueryOf(rt, v)
      case Failure(e) => Failure(Thrown(e))
      case Success(query) =>
        match BodyDataOf(rt, v)
        case Failure(e) => Failure(Thrown(e))
        case Success(data) =>
          match FetchOpenApiOf(rt, ServiceOptionsOf(c, host, v.service), FetchParamsOf(v, query, data), NoOptions, iso)
          case Failure(e) => Failure(Thrown(e))
          case Success(out) => Success(send(out))
  }

  /** The query parameters collected from pairs: the last value under each non-empty name, `''` for a missing one. */
  lemma KeyPairQuery(rt: Runtime, v: Values, i: nat)
    requires v.sendQuery && v.specifyQuery == KeyPairMode
    requires i < |v.queryParameters| && v.queryParameters[i].name != ""
    requires forall j :: i < j < |v.queryParameters| ==> v.queryParameters[j].name != v.queryParameters[i].name
    ensures QueryOf(rt, v).Success?
    ensures Get(QueryOf(rt, v).value, v.queryParameters[i].name) ==
      Some(if Nullish(v.queryParameters[i].value) then Str("") else v.queryParameters[i].value)
  {
    CollectGet(v.queryParameters, true, v.queryParameters[i].name);
    assert LastNamed(v.queryParameters, i, v.queryParameters[i].name);
  }

  /** A JSON query that parses to an object contributes exactly that object's properties. */
  lemma JsonObjectQuery(rt: Runtime, v: Values, fields: Dict<Value>, k: string)
    requires v.sendQuery && v.specifyQuery != KeyPairMode
    requires Lenient(rt, v.jsonQuery) == Some(Obj(fields)) && WellFormed(fields)
    ensures QueryOf(rt, v) == Success(Merge([], fields))
    ensures Get(QueryOf(rt, v).value, k) == Get(fields, k)
  {
    MergeGet([], fields, k);
  }

  /** A JSON query text that does not parse makes the call throw, before anything is sent. */
  lemma UnparsableQueryThrows(rt: Runtime, send: Outgoing -> Value, c: Connection, input: Input, iso: string)
    requires HostOf(rt, c).Some?
    requires var v := ValuesOf(input);
      v.sendQuery && v.specifyQuery != KeyPairMode && v.jsonQuery.Str? && rt.jsonParse(v.jsonQuery.s).None?
    ensures CallOf(rt, send, c, input, iso) == Failure(Thrown(InvalidJson))
  {
  }

  /**
   * The body: data is handed to `fetchOpenAPI` exactly when the method is
   * `POST`, `sendBody` is on and the body is truthy, and the JSON
   * `Content-Type` header is set exactly when, in addition, the content
   * type is `json`; otherwise the headers are empty.
   */
  lemma BodyRule(rt: Runtime, v: Values, query: Dict<Value>)
    requires BodyDataOf(rt, v).Success?
    ensures var data := BodyDataOf(rt, v).value;
      var p := FetchParamsOf(v, query, data);
      && (p.data.Set? <==> v.sendBody && v.httpMethod == "POST" && Truthy(data))
      && (p.data.Set? ==> p.data.value == Plain(data))
      && p.headers == Set(if p.data.Set? && v.contentType == JsonMode then [("Content-Type", Str(JsonType))] else [])
  {
  }

  /** Pairs always make a body on a `POST` with `sendBody`, even with no pairs: `{}` is truthy. */
  lemma KeyPairBodySent(rt: Runtime, v: Values, query: Dict<Value>)
    requires v.sendBody && v.httpMethod == "POST" && v.specifyBody != JsonMode
    ensures BodyDataOf(rt, v) == Success(Obj(Collect(v.bodyParameters, false)))
    ensures FetchParamsOf(v, query, BodyDataOf(rt, v).value).data == Set(Plain(Obj(Collect(v.bodyParameters, false))))
  {
  }

  /** A method other than `POST` sends no body and no extra header, whatever the body settings. */
  lemma NoBodyUnlessPost(rt: Runtime, v: Values, query: Dict<Value>)
    requires v.httpMethod != "POST"
    ensures BodyDataOf(rt, v) == Success(Undefined)
    ensures FetchParamsOf(v, query, Undefined).data == Absent
    ensures FetchParamsOf(v, query, Undefined).headers == Set([])
  {
  }

  /**
   * The request signs the action, the version (an empty one as `''`,
   * since the service has no default version) and every query parameter
   * (with `null` and `undefined` turned into `''`) under the chosen service
   * name.
   */
  lemma SignedRequest(c: Connection, v: Values, host: string, query: Dict<Value>, data: Value, k: string)
    requires WellFormed(query)
    ensures var merged := ServiceOptionsOf(c, host, v.service).Spread(NoOptions);
      && merged.serviceName == Set(v.service)
      && Get(Normalised(SignedParams(FetchParamsOf(v, query, data), merged)), k) ==
           (if k == "Action" then Some(Str(v.action))
            else if k == "Version" then Some(Str(v.version))
            else if Get(query, k).Some? then Some(NormalValue(Get(query, k).value))
            else None)
  {
    ServiceOptionsFields(c, host, v.service);
    SignedOf(FetchParamsOf(v, query, data), ServiceOptionsOf(c, host, v.service).Spread(NoOptions), k);
  }

  /** The request is sent with the chosen method, `GET` when it is empty. */
  lemma RequestMethod(rt: Runtime, c: Connection, v: Values, host: string, query: Dict<Value>, data: Value, iso: string)
    requires FetchOpenApiOf(rt, ServiceOptionsOf(c, host, v.service), FetchParamsOf(v, query, data), NoOptions, iso).Success?
    ensures FetchOpenApiOf(rt, ServiceOptionsOf(c, host, v.service), FetchParamsOf(v, query, data), NoOptions, iso)
              .value.info.httpMethod == Some(if v.httpMethod != "" then v.httpMethod else "GET")
  {
    FetchOpenApiRequest(rt, ServiceOptionsOf(c, host, v.service), FetchParamsOf(v, query, data), NoOptions, iso);
  }

  /** The query is always an object without repeated keys, so the signing lemma above applies to it. */
  lemma QueryWellFormed(rt: Runtime, v: Values)
    requires QueryOf(rt, v).Success?
    ensures WellFormed(QueryOf(rt, v).value)
  {
    if v.sendQuery && v.specifyQuery == KeyPairMode {
      CollectWellFormed(v.queryParameters, true);
    }
  }

  /** The query: the pairs, or the parsed JSON copied by `Object.assign`. */
  method BuildQuery(rt: Runtime, v: Values) returns (r: Result<Dict<Value>, string>)
    ensures r == QueryOf(rt, v)
  {
    var queryParams: Dict<Value> := [];
    if v.sendQuery {
      if v.specifyQuery == KeyPairMode {
        queryParams := CollectPairs(v.queryParameters, true);
      } else {
        var parsed := if v.jsonQuery.Str? then rt.jsonParse(v.jsonQuery.s) else Some(v.jsonQuery);
        if parsed.None? {
          return Failure(InvalidJson);
        }
        queryParams := Merge(queryParams, RecordView(Plain(parsed.value)));
      }
    }
    return Success(queryParams);
  }

  /** The body: the parsed JSON, or the pairs. */
  method BuildBody(rt: Runtime, v: Values) returns (r: Result<Value, string>)
    ensures r == BodyDataOf(rt, v)
  {
    var bodyData := Undefined;
    if v.sendBody && v.httpMethod == "POST" {
      if v.specifyBody == JsonMode {
        var parsed := if v.jsonBody.Str? then rt.jsonParse(v.jsonBody.s) else Some(v.jsonBody);
        if parsed.None? {
          return Failure(InvalidJson);
        }
        bodyData := parsed.value;
      } else {
        var fields := CollectPairs(v.bodyParameters, false);
        bodyData := Obj(fields);
      }
    }
    return Success(bodyData);
  }

  /** `call`: the host, the query, the body, the service, `fetchOpenAPI`, the raw result. */
  method Call(rt: Runtime, send: Outgoing -> Value, c: Connection, input: Input, iso: string)
    returns (r: Result<Value, CallError>)
    ensures r == CallOf(rt, send, c, input, iso)
  {
    var host := HostOf(rt, c);
    if host.None? {
      return Failure(Thrown(InvalidUrl));
    }
    var v := ValuesOf(input);
    var query := BuildQuery(rt, v);
    if query.Failure? {
      return Failure(Thrown(query.error));
    }
    var data := BuildBody(rt, v);
    if data.Failure? {
      return Failure(Thrown(data.error));
    }
    var service := new Service(NoOptions.(serviceName := Set(v.service), accessKeyId := Set(c.accessKeyId),
                                          secretKey := Set(c.secretKey), host := Set(host.value),
                                          region := Set(c.region)));
    var sent := service.FetchOpenApi(rt, FetchParamsOf(v, query.value, data.value), NoOptions, iso);
    if sent.Failure? {
      return Failure(Thrown(sent.error));
    }
    return Success(send(sent.value));
  }
}
