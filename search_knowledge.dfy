/**
 * The Viking `SearchKnowledge` operation
 * (nodes/VolcEngine/resource/viking/SearchKnowledge.ts): a knowledge-base
 * client in the credential's region, the search parameters with the
 * additional fields that are set, the search, and the classification of
 * its response. A history or filter that does not parse is left out
 * without an error.
 */
module SearchKnowledgeOperation {
  import opened Base
  import opened Dicts
  import opened JsValues
  import opened Host
  import opened Transport
  import opened Responses
  import opened Operations
  import Air

  const DefaultLimit: int := 5

  /**
   * The node parameters: the collection and the query are required; a
   * `None` limit or project is a parameter without a value; the additional
   * fields are a record (`{}` when there are none).
   */
  datatype Input = Input(collectionName: string, query: string, limit: Option<Value>, project: Option<string>,
                         advancedOptions: Option<Dict<Value>>)

  /** The parameter values, and the additional fields the operation reads (`undefined` when missing). */
  datatype Values = Values(collectionName: string, query: string, limit: Value, project: string,
                           multiRoundRewrite: Value, history: Value, filter: Value, returnRawChunk: Value,
                           resourceId: Value)

  function ValuesOf(input: Input): Values {
    var advanced := Param(input.advancedOptions, []);
    Values(input.collectionName, input.query, Param(input.limit, Number(Int(DefaultLimit))), Param(input.project, ""),
           Air.Prop(advanced, "multiRoundRewrite"), Air.Prop(advanced, "history"), Air.Prop(advanced, "filter"),
           Air.Prop(advanced, "returnRawChunk"), Air.Prop(advanced, "resourceId"))
  }

  /** `Object.keys(v).length`; `None` where it throws, on `null` and `undefined`. */
  function KeyCount(v: Value): (r: Option<nat>)
    ensures r.None? <==> Nullish(v)
    ensures v.Obj? ==> r == Some(|v.fields|)
    ensures v.Bool? || v.Number? ==> r == Some(0)
  {
    if Nullish(v) then None else Some(|RecordView(Plain(v))|)
  }

  /** The history the search sends: the parsed history when it is a non-empty array. */
  function History(rt: Runtime, h: Value): (r: Option<Value>)
    ensures r.Some? ==> r.value.Arr? && |r.value.items| > 0
  {
    if !Truthy(h) then None
    else
      var parsed := Lenient(rt, h);
      if parsed.Some? && parsed.value.Arr? && |parsed.value.items| > 0 then parsed else None
  }

  /** The filter the search sends: the parsed filter when it has at least one key. */
  function Filter(rt: Runtime, f: Value): (r: Option<Value>)
    ensures r.Some? ==> !Nullish(r.value) && KeyCount(r.value).value > 0
  {
    if !Truthy(f) then None
    else
      var parsed := Lenient(rt, f);
      if parsed.Some? && KeyCount(parsed.value).Some? && KeyCount(parsed.value).value > 0 then parsed else None
  }

  /** A history given as text that `JSON.parse` rejects is dropped, not reported. */
  lemma UnparsableHistoryDropped(rt: Runtime, text: string)
    requires rt.jsonParse(text).None?
    ensures History(rt, Str(text)) == None
  {
  }

  /** A history given as a non-empty array is sent as it is. */
  lemma ArrayHistoryKept(rt: Runtime, items: seq<Value>)
    requires |items| > 0
    ensures History(rt, Arr(items)) == Some(Arr(items))
  {
  }

  /** A filter given as text that parses to an object with keys is sent parsed; `'{}'` (no keys) is not sent. */
  lemma ParsedFilter(rt: Runtime, text: string, fields: Dict<Value>)
    requires text != "" && rt.jsonParse(text) == Some(Obj(fields))
    ensures Filter(rt, Str(text)) == if |fields| > 0 then Some(Obj(fields)) else None
  {
  }

  /** A filter text that parses to `null` is dropped: `Object.keys(null)` throws and the throw is swallowed. */
  lemma NullFilterDropped(rt: Runtime, text: string)
    requires text != "" && rt.jsonParse(text) == Some(Null)
    ensures Filter(rt, Str(text)) == None
  {
  }

  /** The nine assignments into `params`, one per search parameter. */
  datatype Statements = Statements(collectionName: Assignment, query: Assignment, limit: Assignment,
                                   project: Assignment, multiRoundRewrite: Assignment, history: Assignment,
                                   filter: Assignment, returnRawChunk: Assignment, resourceId: Assignment)

  /**
   * `collection_name`, `query` and `limit` always; `project` when not
   * empty; the two switches as `true` when truthy; the history and filter
   * when they parse to something worth sending; `resource_id` as given
   * when truthy.
   */
  function SearchStatements(rt: Runtime, v: Values): Statements {
    var history := History(rt, v.history);
    var filter := Filter(rt, v.filter);
    Statements(Assignment("collection_name", true, Str(v.collectionName)),
               Assignment("query", true, Str(v.query)),
               Assignment("limit", true, v.limit),
               Assignment("project", v.project != "", Str(v.project)),
               Assignment("multi_round_rewrite", Truthy(v.multiRoundRewrite), Bool(true)),
               Assignment("history", history.Some?, history.GetOr(Undefined)),
               Assignment("filter", filter.Some?, filter.GetOr(Undefined)),
               Assignment("return_raw_chunk", Truthy(v.returnRawChunk), Bool(true)),
               Assignment("resource_id", Truthy(v.resourceId), v.resourceId))
  }

  /** The parameters of the search, in the order the operation sets them. */
  function SearchParams(rt: Runtime, v: Values): Dict<Value> {
    var s := SearchStatements(rt, v);
    Assign9([], s.collectionName, s.query, s.limit, s.project, s.multiRoundRewrite, s.history, s.filter,
            s.returnRawChunk, s.resourceId)
  }

  /** Each parameter holds the value of the last assignment that ran and named it; nothing else is sent. */
  lemma SearchParamsLast(rt: Runtime, v: Values, k: string)
    ensures WellFormed(SearchParams(rt, v))
    ensures Get(SearchParams(rt, v), k) ==
      var history := History(rt, v.history);
      var filter := Filter(rt, v.filter);
      if k == "resource_id" && Truthy(v.resourceId) then Some(v.resourceId)
      else if k == "return_raw_chunk" && Truthy(v.returnRawChunk) then Some(Bool(true))
      else if k == "filter" && filter.Some? then filter
      else if k == "history" && history.Some? then history
      else if k == "multi_round_rewrite" && Truthy(v.multiRoundRewrite) then Some(Bool(true))
      else if k == "project" && v.project != "" then Some(Str(v.project))
      else if k == "limit" then Some(v.limit)
      else if k == "query" then Some(Str(v.query))
      else if k == "collection_name" then Some(Str(v.collectionName))
      else None
  {
    var s := SearchStatements(rt, v);
    assert WellFormed<Value>([]);
    Assign9Get([], s.collectionName, s.query, s.limit, s.project, s.multiRoundRewrite, s.history, s.filter,
               s.returnRawChunk, s.resourceId, k);
  }

  /** The collection, the query and the limit are always sent, as given. */
  lemma SendsRequired(rt: Runtime, v: Values)
    ensures Get(SearchParams(rt, v), "collection_name") == Some(Str(v.collectionName))
    ensures Get(SearchParams(rt, v), "query") == Some(Str(v.query))
    ensures Get(SearchParams(rt, v), "limit") == Some(v.limit)
  {
    SearchParamsLast(rt, v, "collection_name");
    SearchParamsLast(rt, v, "query");
    SearchParamsLast(rt, v, "limit");
  }

  /** The project is sent exactly when it is not empty. */
  lemma SendsProject(rt: Runtime, v: Values)
    ensures Get(SearchParams(rt, v), "project") == if v.project != "" then Some(Str(v.project)) else None
  {
    SearchParamsLast(rt, v, "project");
  }

  /** The history is sent exactly when it parses to a non-empty array, and then parsed. */
  lemma SendsHistory(rt: Runtime, v: Values)
    ensures Get(SearchParams(rt, v), "history") == History(rt, v.history)
  {
    SearchParamsLast(rt, v, "history");
  }

  /** The filter is sent exactly when it parses to something with keys, and then parsed. */
  lemma SendsFilter(rt: Runtime, v: Values)
    ensures Get(SearchParams(rt, v), "filter") == Filter(rt, v.filter)
  {
    SearchParamsLast(rt, v, "filter");
  }

  /** The two switches are sent as `true` when truthy and left out otherwise. */
  lemma SendsSwitches(rt: Runtime, v: Values)
    ensures Get(SearchParams(rt, v), "multi_round_rewrite") ==
      if Truthy(v.multiRoundRewrite) then Some(Bool(true)) else None
    ensures Get(SearchParams(rt, v), "return_raw_chunk") ==
      if Truthy(v.returnRawChunk) then Some(Bool(true)) else None
  {
    SearchParamsLast(rt, v, "multi_round_rewrite");
    SearchParamsLast(rt, v, "return_raw_chunk");
  }

  /** The resource id is sent as given when truthy and left out otherwise. */
  lemma SendsResourceId(rt: Runtime, v: Values)
    ensures Get(SearchParams(rt, v), "resource_id") == if Truthy(v.resourceId) then Some(v.resourceId) else None
  {
    SearchParamsLast(rt, v, "resource_id");
  }

  /**
   * The body the client posts for these parameters: the client's default
   * limit never applies, since the operation always sets one, and the
   * project is posted exactly when the operation set it.
   */
  lemma SearchBody(rt: Runtime, v: Values)
    requires !v.limit.Undefined?
    ensures var body := Air.SearchKnowledgeBody(SearchParams(rt, v));
      && Get(body, "collection_name") == Some(Str(v.collectionName))
      && Get(body, "query") == Some(Str(v.query))
      && Get(body, "limit") == Some(v.limit)
      && Get(body, "project") == if v.project != "" then Some(Str(v.project)) else None
  {
    var params := SearchParams(rt, v);
    SendsRequired(rt, v);
    SendsProject(rt, v);
    SearchParamsLast(rt, v, "collection_name");
    Air.SearchKnowledgeBodyGet(params, "collection_name");
    Air.SearchKnowledgeBodyGet(params, "query");
    Air.SearchKnowledgeBodyGet(params, "limit");
    Air.SearchKnowledgeBodyGet(params, "project");
  }

  /** The literal `{ collection_name, query, limit }`. */
  function Required(rt: Runtime, v: Values): Dict<Value> {
    var s := SearchStatements(rt, v);
    Assign3([], s.collectionName, s.query, s.limit)
  }

  /** `project`, `multi_round_rewrite` and `history` onto `d`. */
  function Leading(rt: Runtime, v: Values, d: Dict<Value>): Dict<Value> {
    var s := SearchStatements(rt, v);
    Assign3(d, s.project, s.multiRoundRewrite, s.history)
  }

  /** `filter`, `return_raw_chunk` and `resource_id` onto `d`. */
  function Trailing(rt: Runtime, v: Values, d: Dict<Value>): Dict<Value> {
    var s := SearchStatements(rt, v);
    Assign3(d, s.filter, s.returnRawChunk, s.resourceId)
  }

  /** The parameter object and the conditional assignments into it, with the swallowed parse errors. */
  method BuildParams(rt: Runtime, v: Values) returns (params: Dict<Value>)
    ensures params == SearchParams(rt, v)
  {
    params := [("collection_name", Str(v.collectionName)), ("query", Str(v.query)), ("limit", v.limit)];
    assert params == Required(rt, v) by {
      var s := SearchStatements(rt, v);
      Assign3Literal(s.collectionName, s.query, s.limit);
    }
    params := SetLeading(rt, v, params);
    params := SetTrailing(rt, v, params);
    assert params == SearchParams(rt, v) by {
      var s := SearchStatements(rt, v);
      assert params == Assign3(Assign3(Assign3([], s.collectionName, s.query, s.limit), s.project,
                                       s.multiRoundRewrite, s.history), s.filter, s.returnRawChunk, s.resourceId);
    }
  }

  /** `project` when not empty, the rewrite switch, the history when it parses to a non-empty array. */
  method SetLeading(rt: Runtime, v: Values, d: Dict<Value>) returns (params: Dict<Value>)
    ensures params == Leading(rt, v, d)
  {
    params := d;
    if v.project != "" {
      params := Put(params, "project", Str(v.project));
    }
    if Truthy(v.multiRoundRewrite) {
      params := Put(params, "multi_round_rewrite", Bool(true));
    }
    params := SetHistory(rt, v.history, params);
  }

  /** The filter when it parses to something with keys, the raw-chunk switch, the resource id when truthy. */
  method SetTrailing(rt: Runtime, v: Values, d: Dict<Value>) returns (params: Dict<Value>)
    ensures params == Trailing(rt, v, d)
  {
    params := SetFilter(rt, v.filter, d);
    if Truthy(v.returnRawChunk) {
      params := Put(params, "return_raw_chunk", Bool(true));
    }
    if Truthy(v.resourceId) {
      params := Put(params, "resource_id", v.resourceId);
    }
  }

  /** The `try` block around the history: parse a string, keep a non-empty array, swallow a throw. */
  method SetHistory(rt: Runtime, h: Value, d: Dict<Value>) returns (params: Dict<Value>)
    ensures params == PutIf(d, History(rt, h).Some?, "history", History(rt, h).GetOr(Undefined))
  {
    params := d;
    if Truthy(h) {
      var history := if h.Str? then rt.jsonParse(h.s) else Some(h);
      if history.Some? && history.value.Arr? && |history.value.items| > 0 {
        params := Put(params, "history", history.value);
      }
    }
  }

  /** The `try` block around the filter: parse a string, keep it when it has keys, swallow a throw. */
  method SetFilter(rt: Runtime, f: Value, d: Dict<Value>) returns (params: Dict<Value>)
    ensures params == PutIf(d, Filter(rt, f).Some?, "filter", Filter(rt, f).GetOr(Undefined))
  {
    params := d;
    if Truthy(f) {
      var filter := if f.Str? then rt.jsonParse(f.s) else Some(f);
      if filter.Some? && !Nullish(filter.value) && |RecordView(Plain(filter.value))| > 0 {
        params := Put(params, "filter", filter.value);
      }
    }
  }

  /** What `call` returns or throws, given the transport and `new Date().toISOString()`. */
  function CallOf(rt: Runtime, send: Outgoing -> Value, c: Connection, input: Input, iso: string)
    : Result<Value, CallError>
  {
    ClassifyKnowledge(Air.AirRequestOf(rt, AirConfigured(c), Air.SearchKnowledgeRequest(SearchParams(rt, ValuesOf(input))),
                                       iso), send)
  }

  /** `call`: the client, the parameters, `searchKnowledge`, `handleAirKnowledgeResponse`. */
  method Call(rt: Runtime, send: Outgoing -> Value, c: Connection, input: Input, iso: string)
    returns (r: Result<Value, CallError>)
    ensures r == CallOf(rt, send, c, input, iso)
  {
    var service := new Air.AirService(Air.NoAirOptions.(accessKeyId := Set(c.accessKeyId),
                                                         secretKey := Set(c.secretKey),
                                                         region := Set(StrOr(Some(c.region), DefaultRegion))));
    var params := BuildParams(rt, ValuesOf(input));
    var sent := service.SearchKnowledge(rt, params, iso);
    if sent.Failure? {
      return Failure(Thrown(sent.error));
    }
    var h := HandleAirKnowledgeResponse(send(sent.value));
    if h.Failure? {
      return Failure(Rejected(h.error));
    }
    return Success(h.value);
  }
}
