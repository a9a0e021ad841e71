/**
 * `AirService` (nodes/help/utils/volcengine/air.ts): the knowledge-base
 * client. `request` builds the JSON headers, attaches a body only to a
 * `POST`, signs under the service name `air` and addresses the request;
 * `searchKnowledge`, `chatCompletions` and `chat` build request bodies
 * with their defaults.
 */
module Air {
  import opened Base
  import opened Dicts
  import opened JsValues
  import opened Host
  import opened Signing
  import opened Transport
  import OpenApi

  const AirHost: string := "api-knowledgebase.mlp.cn-beijing.volces.com"
  const AirRegion: string := "cn-north-1"
  const AirProtocol: string := "https:"
  const AirServiceName: string := "air"
  const JsonType: string := "application/json"
  const AccountHeader: string := "V-Account-Id"
  const SearchKnowledgePath: string := "/api/knowledge/collection/search_knowledge"
  const ChatCompletionsPath: string := "/api/knowledge/chat/completions"
  const DefaultModel: string := "Doubao-1-5-pro-32k"
  const DefaultLimit: int := 5
  const DefaultMaxTokens: int := 4096
  /** The number `0.1`, carried as the text JavaScript prints for it. */
  const DefaultTemperature: Value := Number(Frac("0.1"))

  /** `AirServiceOptions`: the common service options and `accountId`. */
  datatype AirOptions = AirOptions(
    accessKeyId: Field<string>,
    secretKey: Field<string>,
    sessionToken: Field<string>,
    region: Field<string>,
    host: Field<string>,
    protocol: Field<string>,
    accountId: Field<string>)
  {
    /** `{ ...this, ...o }`. */
    function Spread(o: AirOptions): AirOptions {
      AirOptions(o.accessKeyId.Over(accessKeyId), o.secretKey.Over(secretKey), o.sessionToken.Over(sessionToken),
                 o.region.Over(region), o.host.Over(host), o.protocol.Over(protocol), o.accountId.Over(accountId))
    }
  }

  const NoAirOptions: AirOptions := AirOptions(Absent, Absent, Absent, Absent, Absent, Absent, Absent)

  /** The knowledge-base `defaultOptions`. */
  const AirDefaults: AirOptions := NoAirOptions.(host := Set(AirHost), region := Set(AirRegion), protocol := Set(AirProtocol))

  /**
   * `AirRequestParams`: `httpMethod` is `None` when missing or `undefined`,
   * `data` is `Undefined` when missing.
   */
  datatype AirRequestParams = AirRequestParams(
    pathname: string,
    httpMethod: Option<string>,
    data: Value,
    params: Option<Dict<Value>>,
    headers: Option<Dict<Value>>)

  /** The headers every request starts from. */
  function BaseHeaders(host: string): Dict<Value> {
    [("Accept", Str(JsonType)), ("Content-Type", Str(JsonType)), ("Host", Str(host))]
  }

  /** The base headers, overridden by the extra headers, then `V-Account-Id` when an account is set. */
  function RequestHeaders(options: AirOptions, host: string, extra: Option<Dict<Value>>): Dict<Value> {
    var headers := Merge(BaseHeaders(host), extra.GetOr([]));
    if OpenApi.Filled(options.accountId) then Put(headers, AccountHeader, Str(options.accountId.value)) else headers
  }

  lemma BaseHeadersGet(host: string, k: string)
    ensures Get(BaseHeaders(host), k) ==
      if k == "Accept" || k == "Content-Type" then Some(Str(JsonType))
      else if k == "Host" then Some(Str(host))
      else None
  {
    var d := BaseHeaders(host);
    assert d[1..][1..][1..] == [];
    assert "Accept" != "Content-Type" by { assert "Accept"[0] != "Content-Type"[0]; }
    assert "Accept" != "Host" by { assert "Accept"[0] != "Host"[0]; }
    assert "Content-Type" != "Host" by { assert "Content-Type"[0] != "Host"[0]; }
  }

  /**
   * `Accept` and `Content-Type` are `application/json` and `Host` is the
   * host unless an extra header of the same name overrides them;
   * `V-Account-Id` is the account exactly when one is set, whatever the
   * extra headers say.
   */
  lemma RequestHeadersGet(options: AirOptions, host: string, extra: Option<Dict<Value>>, k: string)
    requires extra.Some? ==> WellFormed(extra.value)
    ensures var e := extra.GetOr([]);
      Get(RequestHeaders(options, host, extra), k) ==
        if k == AccountHeader && OpenApi.Filled(options.accountId) then Some(Str(options.accountId.value))
        else if Has(e, k) then Get(e, k)
        else if k == "Accept" || k == "Content-Type" then Some(Str(JsonType))
        else if k == "Host" then Some(Str(host))
        else None
  {
    MergeGet(BaseHeaders(host), extra.GetOr([]), k);
    BaseHeadersGet(host, k);
  }

  /** The body: the data, only when it is truthy and the method is `POST`. */
  function SentBody(data: Value, httpMethod: string): (b: Body)
    ensures BodyTruthy(b) <==> Truthy(data) && httpMethod == "POST"
    ensures BodyTruthy(b) ==> b == Plain(data)
  {
    if Truthy(data) && httpMethod == "POST" then Plain(data) else Plain(Undefined)
  }

  /** `Object.entries(params).map(([k, v]) => [k, String(v)])`. */
  function QueryPairs(d: Dict<Value>): (r: seq<(string, string)>)
    ensures |r| == |d|
    ensures forall i :: 0 <= i < |d| ==> r[i] == (d[i].0, ToStr(d[i].1))
  {
    seq(|d|, i requires 0 <= i < |d| => (d[i].0, ToStr(d[i].1)))
  }

  /** `protocol//host` and the path, then `?` and the encoded parameters when there is at least one. */
  function AirUrl(rt: Runtime, protocol: string, host: string, pathname: string, params: Option<Dict<Value>>)
    : (url: string)
    ensures url == protocol + "//" + host + pathname +
      (if params.Some? && |params.value| > 0 then "?" + rt.formEncode(QueryPairs(params.value)) else "")
  {
    var uri := protocol + "//" + host + pathname;
    if params.Some? && |params.value| > 0 then uri + "?" + rt.formEncode(QueryPairs(params.value)) else uri
  }

  /** The request object `request` hands the signer, as the signer's constructor leaves it. */
  function AirPrepared(options: AirOptions, p: AirRequestParams): Req {
    var httpMethod := p.httpMethod.GetOr("POST");
    Req(OpenApi.OrElse(options.region, AirRegion), httpMethod, SortParams(p.params), Some(p.pathname),
        RequestHeaders(options, OpenApi.OrElse(options.host, AirHost), p.headers), SentBody(p.data, httpMethod))
  }

  /** The credentials `request` signs with. */
  function AirCredentials(options: AirOptions): Credentials
    requires options.accessKeyId.Set? && options.secretKey.Set?
  {
    Credentials(options.accessKeyId.value, options.secretKey.value, OpenApi.Defined(options.sessionToken))
  }

  /**
   * What `request(params)` hands to `fetch`, or the error it throws, given
   * the service's options and `new Date().toISOString()`.
   */
  function AirRequestOf(rt: Runtime, options: AirOptions, p: AirRequestParams, iso: string): (r: Result<Outgoing, string>)
    ensures !OpenApi.Filled(options.accessKeyId) || !OpenApi.Filled(options.secretKey) ==>
      r == Failure(OpenApi.CredentialsMissing)
  {
    if !OpenApi.Filled(options.accessKeyId) || !OpenApi.Filled(options.secretKey) then Failure(OpenApi.CredentialsMissing)
    else
      var httpMethod := p.httpMethod.GetOr("POST");
      match SignRequest(rt, AirPrepared(options, p), AirServiceName, None, AirCredentials(options), iso)
      case Failure(e) => Failure(e)
      case Success(headers) =>
        Success(Outgoing(AirUrl(rt, OpenApi.OrElse(options.protocol, AirProtocol), OpenApi.OrElse(options.host, AirHost),
                                p.pathname, p.params),
                         RequestInfo(Some(httpMethod), Some(headers), SentBody(p.data, httpMethod))))
  }

  /**
   * A request that is sent goes to `protocol//host` plus the path, with
   * the parameters as `String(v)` after `?` only when there is at least
   * one; its method is `POST` unless given; it carries the data exactly
   * when the data is truthy and the method is `POST`; and its headers are
   * the prepared ones as signed under the service name `air`.
   */
  lemma AirRequestSent(rt: Runtime, options: AirOptions, p: AirRequestParams, iso: string)
    requires AirRequestOf(rt, options, p, iso).Success?
    ensures var out := AirRequestOf(rt, options, p, iso).value;
      var httpMethod := p.httpMethod.GetOr("POST");
      var origin := OpenApi.OrElse(options.protocol, AirProtocol) + "//" + OpenApi.OrElse(options.host, AirHost);
      && OpenApi.Filled(options.accessKeyId) && OpenApi.Filled(options.secretKey)
      && out.url == origin + p.pathname +
           (if p.params.Some? && |p.params.value| > 0 then "?" + rt.formEncode(QueryPairs(p.params.value)) else "")
      && out.info.httpMethod == Some(httpMethod)
      && (BodyTruthy(out.info.data) <==> Truthy(p.data) && httpMethod == "POST")
      && (BodyTruthy(out.info.data) ==> out.info.data == Plain(p.data))
      && out.info.headers.Some?
      && SignRequest(rt, AirPrepared(options, p), AirServiceName, None, AirCredentials(options), iso)
         == Success(out.info.headers.value)
  {
    var s := SignRequest(rt, AirPrepared(options, p), AirServiceName, None, AirCredentials(options), iso);
    var httpMethod := p.httpMethod.GetOr("POST");
    assert s.Success?;
    assert AirRequestOf(rt, options, p, iso) ==
      Success(Outgoing(AirUrl(rt, OpenApi.OrElse(options.protocol, AirProtocol), OpenApi.OrElse(options.host, AirHost),
                              p.pathname, p.params),
                       RequestInfo(Some(httpMethod), Some(s.value), SentBody(p.data, httpMethod))));
  }

  /**
   * The sent headers: `Authorization` signed with the scope of the service
   * `air`, the signer's own headers, and otherwise the prepared headers
   * (`Accept`, `Content-Type`, `Host`, the extra ones, `V-Account-Id`).
   */
  lemma AirSignedHeaders(rt: Runtime, options: AirOptions, p: AirRequestParams, iso: string, k: string)
    requires AirRequestOf(rt, options, p, iso).Success?
    requires p.headers.Some? ==> WellFormed(p.headers.value)
    ensures var headers := AirRequestOf(rt, options, p, iso).value.info.headers.value;
      var r := AirPrepared(options, p);
      var credentials := AirCredentials(options);
      var datetime := GetDateTime(iso);
      var added := AddedHeaders(rt, r, None, credentials, datetime);
      var e := p.headers.GetOr([]);
      Get(headers, k) ==
        if k == AuthorizationHeader then
          Some(Str(AuthorizationFor(rt, credentials, datetime, r.region, AirServiceName, SignedHeadersOf(added),
                                    CanonicalString(rt, r.(headers := added)).value)))
        else if k == DateHeader then Some(Str(datetime))
        else if k == TokenHeader && NonEmpty(credentials.sessionToken) then Some(Str(credentials.sessionToken.value))
        else if k == ContentSha256Header && BodyTruthy(r.body) then Some(Str(ContentHash(rt, r.body, None)))
        else if k == AccountHeader && OpenApi.Filled(options.accountId) then Some(Str(options.accountId.value))
        else if Has(e, k) then Get(e, k)
        else if k == "Accept" || k == "Content-Type" then Some(Str(JsonType))
        else if k == "Host" then Some(Str(OpenApi.OrElse(options.host, AirHost)))
        else None
  {
    AirRequestSent(rt, options, p, iso);
    SignRequestHeaders(rt, AirPrepared(options, p), AirServiceName, None, AirCredentials(options), iso);
    RequestHeadersGet(options, OpenApi.OrElse(options.host, AirHost), p.headers, k);
  }

  /** `params.k`, `undefined` when missing. */
  function Prop(d: Dict<Value>, k: string): Value {
    Get(d, k).GetOr(Undefined)
  }

  /** The default of a destructuring pattern: `d` when the value is `undefined`. */
  function Default(v: Value, d: Value): (r: Value)
    ensures v.Undefined? ==> r == d
    ensures !v.Undefined? ==> r == v
  {
    if v.Undefined? then d else v
  }

  /** The properties not named in `names`, in order: the `...rest` of a destructuring. */
  function Without(d: Dict<Value>, names: seq<string>): (r: Dict<Value>)
    ensures forall k :: Get(r, k) == if k in names then None else Get(d, k)
    ensures WellFormed(d) ==> WellFormed(r)
  {
    if d == [] then []
    else if d[0].0 in names then Without(d[1..], names)
    else
      [d[0]] + Without(d[1..], names)
  }

  const SearchNames: seq<string> := ["collection_name", "query", "project", "limit"]

  /**
   * The body `searchKnowledge(params)` posts: `collection_name`, `query`,
   * `limit` (5 when undefined), the other properties, then `project` when
   * it is truthy.
   */
  function SearchKnowledgeBody(params: Dict<Value>): Dict<Value> {
    var head := [("collection_name", Prop(params, "collection_name")), ("query", Prop(params, "query")),
                 ("limit", Default(Prop(params, "limit"), Number(Int(DefaultLimit))))];
    var body := Merge(head, Without(params, SearchNames));
    var project := Prop(params, "project");
    if Truthy(project) then Put(body, "project", project) else body
  }

  lemma SearchHeadGet(params: Dict<Value>, k: string)
    ensures var head := [("collection_name", Prop(params, "collection_name")), ("query", Prop(params, "query")),
                         ("limit", Default(Prop(params, "limit"), Number(Int(DefaultLimit))))];
      Get(head, k) ==
           if k == "limit" then Some(Default(Prop(params, "limit"), Number(Int(DefaultLimit))))
           else if k == "collection_name" || k == "query" then Some(Prop(params, k))
           else None
  {
    assert "collection_name" != "query" by { assert "collection_name"[0] != "query"[0]; }
    assert "collection_name" != "limit" by { assert "collection_name"[0] != "limit"[0]; }
    assert "query" != "limit" by { assert "query"[0] != "limit"[0]; }
  }

  /**
   * The search body's properties: `limit` is 5 when it is undefined,
   * `project` is present only when truthy, `collection_name` and `query`
   * are always present, and every other property passes through unchanged.
   */
  lemma SearchKnowledgeBodyGet(params: Dict<Value>, k: string)
    requires WellFormed(params)
    ensures Get(SearchKnowledgeBody(params), k) ==
      if k == "limit" then Some(Default(Prop(params, "limit"), Number(Int(DefaultLimit))))
      else if k == "collection_name" || k == "query" then Some(Prop(params, k))
      else if k == "project" then (if Truthy(Prop(params, "project")) then Some(Prop(params, "project")) else None)
      else Get(params, k)
  {
    var head := [("collection_name", Prop(params, "collection_name")), ("query", Prop(params, "query")),
                 ("limit", Default(Prop(params, "limit"), Number(Int(DefaultLimit))))];
    var rest := Without(params, SearchNames);
    SearchHeadGet(params, k);
    MergeGet(head, rest, k);
  }

  /** `searchKnowledge(params)`: a `POST` of the search body. */
  function SearchKnowledgeRequest(params: Dict<Value>): AirRequestParams {
    AirRequestParams(SearchKnowledgePath, Some("POST"), Obj(SearchKnowledgeBody(params)), None, None)
  }

  /**
   * The body `chatCompletions(params)` posts: `model` and `messages` as
   * given, `max_tokens` 4096, `temperature` 0.1, `stream` false and
   * `return_token_usage` true when undefined, then `project` when truthy.
   */
  function ChatCompletionsBody(params: Dict<Value>): (body: Dict<Value>)
    ensures |body| == 6 + (if Truthy(Prop(params, "project")) then 1 else 0)
    ensures body[0] == ("model", Prop(params, "model")) && body[1] == ("messages", Prop(params, "messages"))
    ensures body[2] == ("max_tokens", Default(Prop(params, "max_tokens"), Number(Int(DefaultMaxTokens))))
    ensures body[3] == ("temperature", Default(Prop(params, "temperature"), DefaultTemperature))
    ensures body[4] == ("stream", Default(Prop(params, "stream"), Bool(false)))
    ensures body[5] == ("return_token_usage", Default(Prop(params, "return_token_usage"), Bool(true)))
    ensures Truthy(Prop(params, "project")) ==> body[6] == ("project", Prop(params, "project"))
  {
    var body := [("model", Prop(params, "model")), ("messages", Prop(params, "messages")),
                 ("max_tokens", Default(Prop(params, "max_tokens"), Number(Int(DefaultMaxTokens)))),
                 ("temperature", Default(Prop(params, "temperature"), DefaultTemperature)),
                 ("stream", Default(Prop(params, "stream"), Bool(false))),
                 ("return_token_usage", Default(Prop(params, "return_token_usage"), Bool(true)))];
    var project := Prop(params, "project");
    if Truthy(project) then body + [("project", project)] else body
  }

  /** `chatCompletions(params)`: a `POST` of the chat body. */
  function ChatCompletionsRequest(params: Dict<Value>): AirRequestParams {
    AirRequestParams(ChatCompletionsPath, Some("POST"), Obj(ChatCompletionsBody(params)), None, None)
  }

  /** The optional settings of `chat`; a missing property, or no settings at all, is `Undefined`. */
  datatype ChatOptions = ChatOptions(model: Value, systemPrompt: Value, history: Value, maxTokens: Value, temperature: Value)

  /** `{ role, content }`. */
  function Message(role: string, content: Value): Value {
    Obj([("role", Str(role)), ("content", content)])
  }

  /**
   * The elements `push(...history)` spreads: an array's items, a string's
   * characters; anything else is not iterable and throws.
   */
  function IterableItems(v: Value): Option<seq<Value>> {
    match v
    case Arr(items) => Some(items)
    case Str(s) => Some(seq(|s|, i requires 0 <= i < |s| => Str([s[i]])))
    case _ => None
  }

  const NotIterable: string := "history is not iterable"

  /**
   * The message list of `chat(query, options)`: the system prompt when it
   * is truthy, the history when it is truthy, then the user's question.
   */
  function ChatMessages(query: string, options: ChatOptions): (r: Result<seq<Value>, string>)
    ensures r.Failure? <==> Truthy(options.history) && IterableItems(options.history).None?
    ensures r.Success? ==>
      var system := if Truthy(options.systemPrompt) then [Message("system", options.systemPrompt)] else [];
      var history := if Truthy(options.history) then IterableItems(options.history).value else [];
      && r.value == system + history + [Message("user", Str(query))]
      && |r.value| == |system| + |history| + 1
  {
    var system := if Truthy(options.systemPrompt) then [Message("system", options.systemPrompt)] else [];
    if Truthy(options.history) && IterableItems(options.history).None? then Failure(NotIterable)
    else
      var history := if Truthy(options.history) then IterableItems(options.history).value else [];
      Success(system + history + [Message("user", Str(query))])
  }

  /** The parameters `chat` passes to `chatCompletions`. */
  function ChatParams(options: ChatOptions, messages: seq<Value>): Dict<Value> {
    [("model", if Truthy(options.model) then options.model else Str(DefaultModel)),
     ("messages", Arr(messages)),
     ("max_tokens", if Truthy(options.maxTokens) then options.maxTokens else Number(Int(DefaultMaxTokens))),
     ("temperature", if Truthy(options.temperature) then options.temperature else DefaultTemperature)]
  }

  /** The names of the chat-completions parameters, in the order the request body lists them. */
  const ChatNames: seq<string> := ["model", "messages", "max_tokens", "temperature", "stream", "return_token_usage", "project"]

  lemma ChatNamesDistinct()
    ensures Distinct(ChatNames)
  {
    assert "model"[1] != "messages"[1] && "model"[1] != "max_tokens"[1] && "messages"[1] != "max_tokens"[1];
    assert forall i, j :: 0 <= i < 3 <= j < 7 ==> ChatNames[i][0] != ChatNames[j][0];
    assert forall i, j :: 3 <= i < j < 7 ==> ChatNames[i][0] != ChatNames[j][0];
  }

  lemma ChatParamsGet(options: ChatOptions, messages: seq<Value>)
    ensures var d := ChatParams(options, messages);
      && Prop(d, "model") == (if Truthy(options.model) then options.model else Str(DefaultModel))
      && Prop(d, "messages") == Arr(messages)
      && Prop(d, "max_tokens") == (if Truthy(options.maxTokens) then options.maxTokens else Number(Int(DefaultMaxTokens)))
      && Prop(d, "temperature") == (if Truthy(options.temperature) then options.temperature else DefaultTemperature)
      && Prop(d, "stream") == Undefined && Prop(d, "return_token_usage") == Undefined && Prop(d, "project") == Undefined
  {
    var d := ChatParams(options, messages);
    ChatNamesDistinct();
    GetByKeys(d, ChatNames);
    assert ChatNames[0] == "model" && ChatNames[1] == "messages" && ChatNames[2] == "max_tokens";
    assert ChatNames[3] == "temperature";
    assert "stream" in ChatNames[4..] && "return_token_usage" in ChatNames[4..] && "project" in ChatNames[4..];
  }

  /**
   * `chat` posts the messages it built with the model `Doubao-1-5-pro-32k`,
   * 4096 tokens and temperature 0.1 in place of falsy settings (so 0 is
   * replaced), `stream` false, `return_token_usage` true and no project.
   */
  lemma ChatBody(options: ChatOptions, messages: seq<Value>)
    ensures var body := ChatCompletionsBody(ChatParams(options, messages));
      && |body| == 6
      && body[0] == ("model", if Truthy(options.model) then options.model else Str(DefaultModel))
      && body[1] == ("messages", Arr(messages))
      && body[2] == ("max_tokens", if Truthy(options.maxTokens) then options.maxTokens else Number(Int(DefaultMaxTokens)))
      && body[3] == ("temperature", if Truthy(options.temperature) then options.temperature else DefaultTemperature)
      && body[4] == ("stream", Bool(false))
      && body[5] == ("return_token_usage", Bool(true))
  {
    ChatParamsGet(options, messages);
  }

  /** `AirService`: the options of the knowledge-base client, changed by its setters. */
  class AirService {
    var options: AirOptions

    /** `new AirService(options)`: the defaults overridden by the given options. */
    constructor(options: AirOptions)
      ensures this.options == AirDefaults.Spread(options)
    {
      this.options := AirDefaults.Spread(options);
    }

    method SetAccessKeyId(accessKeyId: string)
      modifies this
      ensures options == old(options).(accessKeyId := Set(accessKeyId))
    {
      options := options.(accessKeyId := Set(accessKeyId));
    }

    method SetSecretKey(secretKey: string)
      modifies this
      ensures options == old(options).(secretKey := Set(secretKey))
    {
      options := options.(secretKey := Set(secretKey));
    }

    method SetSessionToken(sessionToken: string)
      modifies this
      ensures options == old(options).(sessionToken := Set(sessionToken))
    {
      options := options.(sessionToken := Set(sessionToken));
    }

    method SetRegion(region: string)
      modifies this
      ensures options == old(options).(region := Set(region))
    {
      options := options.(region := Set(region));
    }

    method SetHost(host: string)
      modifies this
      ensures options == old(options).(host := Set(host))
    {
      options := options.(host := Set(host));
    }

    method SetAccountId(accountId: string)
      modifies this
      ensures options == old(options).(accountId := Set(accountId))
    {
      options := options.(accountId := Set(accountId));
    }

    function GetAccessKeyId(): (r: Option<string>)
      reads this
      ensures r.Some? <==> options.accessKeyId.Set?
      ensures r.Some? ==> r.value == options.accessKeyId.value
    {
      OpenApi.Defined(options.accessKeyId)
    }

    function GetSecretKey(): (r: Option<string>)
      reads this
      ensures r.Some? <==> options.secretKey.Set?
      ensures r.Some? ==> r.value == options.secretKey.value
    {
      OpenApi.Defined(options.secretKey)
    }

    /** `request(params)`, given `new Date().toISOString()`. */
    method Request(rt: Runtime, p: AirRequestParams, iso: string) returns (r: Result<Outgoing, string>)
      ensures r == AirRequestOf(rt, options, p, iso)
    {
      var httpMethod := p.httpMethod.GetOr("POST");
      if !OpenApi.Filled(options.accessKeyId) || !OpenApi.Filled(options.secretKey) {
        return Failure(OpenApi.CredentialsMissing);
      }
      var region := OpenApi.OrElse(options.region, AirRegion);
      var host := OpenApi.OrElse(options.host, AirHost);
      var protocol := OpenApi.OrElse(options.protocol, AirProtocol);
      var headers := Merge(BaseHeaders(host), p.headers.GetOr([]));
      if OpenApi.Filled(options.accountId) {
        headers := Put(headers, AccountHeader, Str(options.accountId.value));
      }
      assert headers == RequestHeaders(options, host, p.headers);
      var credentials := AirCredentials(options);
      var request := new RequestObj(region, httpMethod, p.params, Some(p.pathname), Some(headers), Plain(Undefined));
      if Truthy(p.data) && httpMethod == "POST" {
        request.body := Plain(p.data);
      }
      assert request.body == SentBody(p.data, httpMethod);
      var signer := new Signer(request, AirServiceName, None);
      assert request.View() == Req(region, httpMethod, SortParams(p.params), Some(p.pathname), headers, request.body);
      r := SignAndAddress(rt, protocol, host, p, signer, credentials, iso);
    }

    /** `searchKnowledge(params)`. */
    method SearchKnowledge(rt: Runtime, params: Dict<Value>, iso: string) returns (r: Result<Outgoing, string>)
      ensures r == AirRequestOf(rt, options, SearchKnowledgeRequest(params), iso)
    {
      r := Request(rt, SearchKnowledgeRequest(params), iso);
    }

    /** `chatCompletions(params)`. */
    method ChatCompletions(rt: Runtime, params: Dict<Value>, iso: string) returns (r: Result<Outgoing, string>)
      ensures r == AirRequestOf(rt, options, ChatCompletionsRequest(params), iso)
    {
      r := Request(rt, ChatCompletionsRequest(params), iso);
    }

    /** `chat(query, options)`: builds the messages by pushing, then calls `chatCompletions`. */
    method Chat(rt: Runtime, query: string, chatOptions: ChatOptions, iso: string) returns (r: Result<Outgoing, string>)
      ensures var m := ChatMessages(query, chatOptions);
        r == if m.Failure? then Failure(m.error)
             else AirRequestOf(rt, options, ChatCompletionsRequest(ChatParams(chatOptions, m.value)), iso)
    {
      var messages := PushMessages(query, chatOptions);
      if messages.Failure? {
        return Failure(messages.error);
      }
      r := ChatCompletions(rt, ChatParams(chatOptions, messages.value), iso);
    }
  }

  /** The `push` calls of `chat`: the system prompt, the history, the question. */
  method PushMessages(query: string, options: ChatOptions) returns (r: Result<seq<Value>, string>)
    ensures r == ChatMessages(query, options)
  {
    var messages: seq<Value> := [];
    if Truthy(options.systemPrompt) {
      messages := messages + [Message("system", options.systemPrompt)];
    }
    ghost var system := messages;
    ghost var history: seq<Value> := [];
    if Truthy(options.history) {
      var items := IterableItems(options.history);
      if items.None? {
        return Failure(NotIterable);
      }
      history := items.value;
      messages := messages + items.value;
    }
    messages := messages + [Message("user", Str(query))];
    assert messages == system + history + [Message("user", Str(query))];
    assert system == if Truthy(options.systemPrompt) then [Message("system", options.systemPrompt)] else [];
    assert history == if Truthy(options.history) then IterableItems(options.history).value else [];
    return Success(messages);
  }

  /** The end of `request`: `addAuthorization`, then the URI and the request for `fetch`. */
  method SignAndAddress(rt: Runtime, protocol: string, host: string, p: AirRequestParams, signer: Signer,
                        credentials: Credentials, iso: string)
    returns (r: Result<Outgoing, string>)
    requires signer.Ready() && signer.bodySha256 == None && signer.serviceName == AirServiceName
    modifies signer.request
    ensures r == match SignRequest(rt, old(signer.request.View()), AirServiceName, None, credentials, iso)
                 case Failure(e) => Failure(e)
                 case Success(headers) =>
                   Success(Outgoing(AirUrl(rt, protocol, host, p.pathname, p.params),
                                    RequestInfo(Some(p.httpMethod.GetOr("POST")), Some(headers),
                                                SentBody(p.data, p.httpMethod.GetOr("POST")))))
  {
    var request := signer.request;
    var signed := signer.AddAuthorization(rt, credentials, iso);
    if signed.Failure? {
      return Failure(signed.error);
    }
    var httpMethod := p.httpMethod.GetOr("POST");
    var uri := protocol + "//" + host + p.pathname;
    if p.params.Some? && |p.params.value| > 0 {
      uri := uri + "?" + rt.formEncode(QueryPairs(p.params.value));
    }
    var info := RequestInfo(Some(httpMethod), request.headers, Plain(Undefined));
    if Truthy(p.data) && httpMethod == "POST" {
      info := info.(data := Plain(p.data));
    }
    return Success(Outgoing(uri, info));
  }
}
