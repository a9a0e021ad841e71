/**
 * The Viking `ChatCompletions` operation
 * (nodes/VolcEngine/resource/viking/ChatCompletions.ts): a knowledge-base
 * client configured through its setters, the message list (system prompt,
 * history, question), the parameters with their defaults, the call of
 * `chatCompletions` and the classification of its response. A history
 * that does not parse is ignored.
 */
module ChatCompletionsOperation {
  import opened Base
  import opened Dicts
  import opened JsValues
  import opened Host
  import opened Transport
  import opened Responses
  import opened Operations
  import Air

  /** The history read when the parameter has no value. */
  const NoHistory: string := "[]"

  /**
   * The node parameters: the model and the question are required; `None`
   * is a parameter without a value; the additional fields are a record
   * (`{}` when there are none).
   */
  datatype Input = Input(model: string, userQuery: string, systemPrompt: Option<string>, history: Option<Value>,
                         advancedOptions: Option<Dict<Value>>)

  /** The parameter values, and the additional fields the operation reads (`undefined` when missing). */
  datatype Values = Values(model: string, userQuery: string, systemPrompt: string, history: Value,
                           maxTokens: Value, temperature: Value, returnTokenUsage: Value, project: Value)

  function ValuesOf(input: Input): Values {
    var advanced := Param(input.advancedOptions, []);
    Values(input.model, input.userQuery, Param(input.systemPrompt, ""), Param(input.history, Str(NoHistory)),
           Air.Prop(advanced, "maxTokens"), Air.Prop(advanced, "temperature"), Air.Prop(advanced, "returnTokenUsage"),
           Air.Prop(advanced, "project"))
  }

  /** The history messages: the items of the parsed history when it is an array, none otherwise. */
  function HistoryItems(rt: Runtime, h: Value): (r: seq<Value>)
    ensures Lenient(rt, h).Some? && Lenient(rt, h).value.Arr? ==> r == Lenient(rt, h).value.items
    ensures Lenient(rt, h).None? ==> r == []
  {
    var parsed := Lenient(rt, h);
    if parsed.Some? && parsed.value.Arr? then parsed.value.items else []
  }

  /** The message list: the system prompt when not empty, the history, then the question. */
  function Messages(rt: Runtime, v: Values): seq<Value> {
    (if v.systemPrompt != "" then [Air.Message("system", Str(v.systemPrompt))] else [])
    + HistoryItems(rt, v.history) + [Air.Message("user", Str(v.userQuery))]
  }

  /**
   * The question is always the last message, and the system prompt, when
   * given, the first; the history lies between them.
   */
  lemma MessagesShape(rt: Runtime, v: Values)
    ensures var m := Messages(rt, v);
      && |m| == (if v.systemPrompt != "" then 1 else 0) + |HistoryItems(rt, v.history)| + 1
      && m[|m| - 1] == Air.Message("user", Str(v.userQuery))
      && (v.systemPrompt != "" ==> m[0] == Air.Message("system", Str(v.systemPrompt)))
      && (v.systemPrompt == "" ==> m[..|m| - 1] == HistoryItems(rt, v.history))
  {
    var m := Messages(rt, v);
    var history := HistoryItems(rt, v.history);
    if v.systemPrompt == "" {
      assert m == history + [Air.Message("user", Str(v.userQuery))];
    }
  }

  /** A history text that `JSON.parse` rejects adds no message and raises no error. */
  lemma UnparsableHistoryIgnored(rt: Runtime, v: Values)
    requires v.history.Str? && rt.jsonParse(v.history.s).None?
    ensures Messages(rt, v) == (if v.systemPrompt != "" then [Air.Message("system", Str(v.systemPrompt))] else [])
                              + [Air.Message("user", Str(v.userQuery))]
  {
  }

  /** A history that parses to something other than an array adds no message. */
  lemma NonArrayHistoryIgnored(rt: Runtime, v: Values, parsed: Value)
    requires v.history.Str? && rt.jsonParse(v.history.s) == Some(parsed) && !parsed.Arr?
    ensures Messages(rt, v) == (if v.systemPrompt != "" then [Air.Message("system", Str(v.systemPrompt))] else [])
                              + [Air.Message("user", Str(v.userQuery))]
  {
  }

  /** The object literal: the six properties every call sets. */
  function LiteralParams(rt: Runtime, v: Values): Dict<Value> {
    var maxTokens := v.maxTokens;
    var temperature := v.temperature;
    [("model", Str(v.model)), ("messages", Arr(Messages(rt, v))),
     ("max_tokens", if Truthy(maxTokens) then maxTokens else Number(Int(Air.DefaultMaxTokens))),
     ("temperature", if Nullish(temperature) then Air.DefaultTemperature else temperature),
     ("stream", Bool(false)),
     ("return_token_usage", Bool(v.returnTokenUsage != Bool(false)))]
  }

  /** `params`: the literal, then `project` when truthy. */
  function ChatParams(rt: Runtime, v: Values): Dict<Value> {
    var project := v.project;
    if Truthy(project) then Put(LiteralParams(rt, v), "project", project) else LiteralParams(rt, v)
  }

  /** `project` is none of the literal's names, so assigning it appends it. */
  lemma PutProject(d: Dict<Value>, project: Value)
    requires |d| == 6 && forall i :: 0 <= i < 6 ==> d[i].0 == Air.ChatNames[i]
    ensures Put(d, "project", project) == d + [("project", project)]
  {
    KeysAt(d);
    Air.ChatNamesDistinct();
    assert Keys(d) == Air.ChatNames[..6];
    assert forall i :: 0 <= i < 6 ==> Air.ChatNames[i] != Air.ChatNames[6];
    PutNew(d, "project", project);
  }

  /**
   * What the operation sends: the question last among the messages,
   * `max_tokens` 4096 in place of a falsy value, `temperature` 0.1 only in
   * place of `null` or `undefined` (so 0 is kept), `stream` false,
   * `return_token_usage` false only for the boolean `false`, and `project`
   * exactly when truthy.
   */
  lemma ChatParamsShape(rt: Runtime, v: Values)
    ensures var params := ChatParams(rt, v);
      var maxTokens := v.maxTokens;
      var temperature := v.temperature;
      var project := v.project;
      && |params| == (if Truthy(project) then 7 else 6)
      && params[0] == ("model", Str(v.model))
      && params[1] == ("messages", Arr(Messages(rt, v)))
      && params[2] == ("max_tokens", if Truthy(maxTokens) then maxTokens else Number(Int(Air.DefaultMaxTokens)))
      && params[3] == ("temperature", if Nullish(temperature) then Air.DefaultTemperature else temperature)
      && params[4] == ("stream", Bool(false))
      && params[5] == ("return_token_usage", Bool(v.returnTokenUsage != Bool(false)))
      && (Truthy(project) ==> params[6] == ("project", project))
  {
    var literal := LiteralParams(rt, v);
    var tail: Dict<Value> := if Truthy(v.project) then [("project", v.project)] else [];
    ChatParamsAppend(rt, v);
    assert |literal| == 6 && forall i :: 0 <= i < 6 ==> (literal + tail)[i] == literal[i];
    assert Truthy(v.project) ==> (literal + tail)[6] == ("project", v.project);
  }

  /** Assigning `project` appends it to the literal. */
  lemma ChatParamsAppend(rt: Runtime, v: Values)
    ensures ChatParams(rt, v) == LiteralParams(rt, v) + if Truthy(v.project) then [("project", v.project)] else []
  {
    PutProject(LiteralParams(rt, v), v.project);
  }

  /** Each parameter is read back by its name, and `project` is missing unless truthy. */
  lemma ChatParamsProps(rt: Runtime, v: Values)
    ensures var params := ChatParams(rt, v);
      && (forall i :: 0 <= i < |params| ==> params[i].0 == Air.ChatNames[i] && Get(params, Air.ChatNames[i]) == Some(params[i].1))
      && (!Truthy(v.project) ==> Get(params, "project") == None)
  {
    var params := ChatParams(rt, v);
    ChatParamsAppend(rt, v);
    assert forall i :: 0 <= i < |params| ==> params[i].0 == Air.ChatNames[i];
    Air.ChatNamesDistinct();
    GetByKeys(params, Air.ChatNames);
    assert "project" in Air.ChatNames[|params|..] || Truthy(v.project);
  }

  /**
   * The client's defaults never apply: the body `chatCompletions` posts is
   * the operation's parameters, property for property and in order.
   */
  lemma BodyIsParams(rt: Runtime, v: Values)
    ensures Air.ChatCompletionsBody(ChatParams(rt, v)) == ChatParams(rt, v)
  {
    var d := ChatParams(rt, v);
    ChatParamsShape(rt, v);
    ChatParamsProps(rt, v);
    assert Air.ChatNames[0] == "model" && Air.ChatNames[1] == "messages" && Air.ChatNames[2] == "max_tokens";
    assert Air.ChatNames[3] == "temperature" && Air.ChatNames[4] == "stream" && Air.ChatNames[5] == "return_token_usage";
    assert Get(d, Air.ChatNames[0]) == Some(d[0].1) && Get(d, Air.ChatNames[1]) == Some(d[1].1) && Get(d, Air.ChatNames[2]) == Some(d[2].1);
    assert Get(d, Air.ChatNames[3]) == Some(d[3].1) && Get(d, Air.ChatNames[4]) == Some(d[4].1) && Get(d, Air.ChatNames[5]) == Some(d[5].1);
    if |d| == 7 {
      assert Air.ChatNames[6] == "project" && Get(d, Air.ChatNames[6]) == Some(d[6].1);
    }
    BodyOfNamed(d);
  }

  /**
   * A body posted from parameters that hold the six properties of the
   * literal in order, none of the defaulted ones undefined, and `project`
   * last exactly when truthy, is those parameters.
   */
  lemma BodyOfNamed(d: Dict<Value>)
    requires |d| == 6 || (|d| == 7 && d[6].0 == "project" && Truthy(d[6].1))
    requires d[0].0 == "model" && d[1].0 == "messages" && d[2].0 == "max_tokens"
    requires d[3].0 == "temperature" && d[4].0 == "stream" && d[5].0 == "return_token_usage"
    requires Air.Prop(d, "model") == d[0].1 && Air.Prop(d, "messages") == d[1].1 && Air.Prop(d, "max_tokens") == d[2].1
    requires Air.Prop(d, "temperature") == d[3].1 && Air.Prop(d, "stream") == d[4].1
    requires Air.Prop(d, "return_token_usage") == d[5].1
    requires Air.Prop(d, "project") == if |d| == 7 then d[6].1 else Undefined
    requires !d[2].1.Undefined? && !d[3].1.Undefined? && !d[4].1.Undefined? && !d[5].1.Undefined?
    ensures Air.ChatCompletionsBody(d) == d
  {
    var body := Air.ChatCompletionsBody(d);
    assert forall i :: 0 <= i < |d| ==> body[i] == d[i];
  }

  /**
   * A temperature of 0 is posted as 0 here, where `chat` would replace it
   * by 0.1; a `max_tokens` of 0 is replaced by 4096 in both.
   */
  lemma ZeroSettings(rt: Runtime, v: Values)
    requires v.temperature == Number(Int(0)) && v.maxTokens == Number(Int(0))
    ensures var body := Air.ChatCompletionsBody(ChatParams(rt, v));
      && body[3] == ("temperature", Number(Int(0)))
      && body[2] == ("max_tokens", Number(Int(Air.DefaultMaxTokens)))
  {
    ChatParamsShape(rt, v);
    BodyIsParams(rt, v);
  }

  /** The `push` calls: the system prompt, the parsed history when it is an array, the question. */
  method BuildMessages(rt: Runtime, v: Values) returns (messages: seq<Value>)
    ensures messages == Messages(rt, v)
  {
    messages := [];
    if v.systemPrompt != "" {
      messages := messages + [Air.Message("system", Str(v.systemPrompt))];
    }
    var history := if v.history.Str? then rt.jsonParse(v.history.s) else Some(v.history);
    if history.Some? && history.value.Arr? {
      messages := messages + history.value.items;
    }
    messages := messages + [Air.Message("user", Str(v.userQuery))];
  }

  /** The parameter object and the optional `project`. */
  method BuildParams(rt: Runtime, v: Values) returns (params: Dict<Value>)
    ensures params == ChatParams(rt, v)
  {
    var messages := BuildMessages(rt, v);
    var maxTokens := v.maxTokens;
    var temperature := v.temperature;
    params := [("model", Str(v.model)), ("messages", Arr(messages)),
               ("max_tokens", if Truthy(maxTokens) then maxTokens else Number(Int(Air.DefaultMaxTokens))),
               ("temperature", if Nullish(temperature) then Air.DefaultTemperature else temperature),
               ("stream", Bool(false)),
               ("return_token_usage", Bool(v.returnTokenUsage != Bool(false)))];
    if Truthy(v.project) {
      params := Put(params, "project", v.project);
    }
  }

  /** What `call` returns or throws, given the transport and `new Date().toISOString()`. */
  function CallOf(rt: Runtime, send: Outgoing -> Value, c: Connection, input: Input, iso: string)
    : Result<Value, CallError>
  {
    ClassifyKnowledge(Air.AirRequestOf(rt, AirConfigured(c), Air.ChatCompletionsRequest(ChatParams(rt, ValuesOf(input))),
                                       iso), send)
  }

  /** `call`: `new AirService()` and its three setters, the parameters, `chatCompletions`, the classification. */
  method Call(rt: Runtime, send: Outgoing -> Value, c: Connection, input: Input, iso: string)
    returns (r: Result<Value, CallError>)
    ensures r == CallOf(rt, send, c, input, iso)
  {
    var service := new Air.AirService(Air.NoAirOptions);
    service.SetAccessKeyId(c.accessKeyId);
    service.SetSecretKey(c.secretKey);
    service.SetRegion(StrOr(Some(c.region), DefaultRegion));
    assert service.options == AirConfigured(c);
    var params := BuildParams(rt, ValuesOf(input));
    var sent := service.ChatCompletions(rt, params, iso);
    if sent.Failure? {
      return Failure(Thrown(sent.error));
    }
    var h := HandleAirKnowledgeResponse(send(sent.value));
    if h.Failure? {
      return Failure(Rejected(h.error));
    }
    return Success(h.value);
  }
}
