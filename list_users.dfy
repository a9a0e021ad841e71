/**
 * The IAM `ListUsers` operation (nodes/VolcEngine/resource/iam/ListUsers.ts):
 * a page of users, optionally filtered by a search text, through the
 * `ListUsers` binding of the IAM service.
 */
module ListUsersOperation {
  import opened Base
  import opened Dicts
  import opened JsValues
  import opened Host
  import opened Transport
  import opened OpenApi
  import opened Operations
  import Iam

  const DefaultLimit: int := 50
  const DefaultOffset: int := 0

  /** The node parameters; `None` is a parameter without a value. */
  datatype Input = Input(limit: Option<Num>, offset: Option<Num>, query: Option<string>)

  /** `{ Limit, Offset, ...(query ? { Query } : {}) }`. */
  function ListParams(limit: Num, offset: Num, query: string): (d: Dict<Value>)
    ensures WellFormed(d)
  {
    var d := Put(Put([], "Limit", Number(limit)), "Offset", Number(offset));
    if query != "" then Put(d, "Query", Str(query)) else d
  }

  /** `Limit`, `Offset` and a non-empty `Query` are the only parameters. */
  lemma ListParamsGet(limit: Num, offset: Num, query: string, k: string)
    ensures Get(ListParams(limit, offset, query), k) ==
      if k == "Limit" then Some(Number(limit))
      else if k == "Offset" then Some(Number(offset))
      else if k == "Query" && query != "" then Some(Str(query))
      else None
  {
    var d1: Dict<Value> := Put([], "Limit", Number(limit));
    var d2 := Put(d1, "Offset", Number(offset));
    assert "Limit" != "Offset" by { assert "Limit"[0] != "Offset"[0]; }
    assert "Limit" != "Query" by { assert "Limit"[0] != "Query"[0]; }
    assert "Offset" != "Query" by { assert "Offset"[0] != "Query"[0]; }
    assert Get(d2, k) == if k == "Offset" then Some(Number(offset)) else Get(d1, k);
  }

  /** The query of the call: `Limit` 50 and `Offset` 0 unless given. */
  function InputParams(input: Input): Dict<Value> {
    ListParams(Param(input.limit, Int(DefaultLimit)), Param(input.offset, Int(DefaultOffset)), Param(input.query, ""))
  }

  /** What `call` returns or throws, given the transport and `new Date().toISOString()`. */
  function CallOf(rt: Runtime, send: Outgoing -> Value, c: Connection, input: Input, iso: string)
    : Result<Value, CallError>
  {
    match HostOf(rt, c)
    case None => Failure(Thrown(InvalidUrl))
    case Some(host) =>
      match RequestParamsOf(Iam.ListUsersApi, InputParams(input), NoFetchParams)
      case Failure(e) => Failure(Thrown(e))
      case Success(p) => Classify(FetchOpenApiOf(rt, IamConfigured(c, host), p, NoOptions, iso), send)
  }

  /** `ListUsers` is a `GET`: the whole query of the call is the operation's parameters. */
  lemma ListUsersRequest(input: Input)
    ensures RequestParamsOf(Iam.ListUsersApi, InputParams(input), NoFetchParams)
            == Success(ApiGet("ListUsers", InputParams(input)))
  {
    Iam.ListUsersIsGet(InputParams(input), NoFetchParams, Defaults.(defaultVersion := Set(IamVersion)), NoOptions);
  }

  /** The signed query of a `ListUsers` call, for any parameters whose entries are those of `ListParams`. */
  lemma SignedListQuery(o: Options, data: Dict<Value>, limit: Num, offset: Num, query: string, k: string)
    requires o.defaultVersion == Set(IamVersion)
    requires WellFormed(data)
    requires Get(data, k) ==
      if k == "Limit" then Some(Number(limit))
      else if k == "Offset" then Some(Number(offset))
      else if k == "Query" && query != "" then Some(Str(query))
      else None
    ensures Get(Normalised(SignedParams(ApiGet("ListUsers", data), o.Spread(NoOptions))), k) ==
        if k == "Action" then Some(Str("ListUsers"))
        else if k == "Version" then Some(Str(IamVersion))
        else if k == "Limit" then Some(Number(limit))
        else if k == "Offset" then Some(Number(offset))
        else if k == "Query" && query != "" then Some(Str(query))
        else None
  {
    IamQueryGet(o, "ListUsers", data, k);
    ListQueryEntry(Normalised(SignedParams(ApiGet("ListUsers", data), o.Spread(NoOptions))), data, limit, offset, query, k);
  }

  lemma ListQueryEntry(signed: Dict<Value>, data: Dict<Value>, limit: Num, offset: Num, query: string, k: string)
    requires Get(signed, k) ==
        if k == "Action" then Some(Str("ListUsers"))
        else if k == "Version" then Some(Str(IamVersion))
        else if Get(data, k).Some? then Some(NormalValue(Get(data, k).value))
        else None
    requires Get(data, k) ==
      if k == "Limit" then Some(Number(limit))
      else if k == "Offset" then Some(Number(offset))
      else if k == "Query" && query != "" then Some(Str(query))
      else None
    ensures Get(signed, k) ==
        if k == "Action" then Some(Str("ListUsers"))
        else if k == "Version" then Some(Str(IamVersion))
        else if k == "Limit" then Some(Number(limit))
        else if k == "Offset" then Some(Number(offset))
        else if k == "Query" && query != "" then Some(Str(query))
        else None
  {
    if k == "Action" || k == "Version" {
      assert k[0] == 'A' || k[0] == 'V';
    }
  }

  /**
   * The call signs `Action` `ListUsers`, `Version` `2018-01-01`, `Limit`
   * and `Offset` (50 and 0 unless given) and `Query` only when it is not
   * empty, and nothing else.
   */
  lemma ListUsersQuery(o: Options, input: Input, k: string)
    requires o.defaultVersion == Set(IamVersion)
    ensures var query := Param(input.query, "");
      Get(Normalised(SignedParams(ApiGet("ListUsers", InputParams(input)), o.Spread(NoOptions))), k) ==
        if k == "Action" then Some(Str("ListUsers"))
        else if k == "Version" then Some(Str(IamVersion))
        else if k == "Limit" then Some(Number(Param(input.limit, Int(DefaultLimit))))
        else if k == "Offset" then Some(Number(Param(input.offset, Int(DefaultOffset))))
        else if k == "Query" && query != "" then Some(Str(query))
        else None
  {
    var limit, offset, query := Param(input.limit, Int(DefaultLimit)), Param(input.offset, Int(DefaultOffset)), Param(input.query, "");
    ListParamsGet(limit, offset, query, k);
    SignedListQuery(o, InputParams(input), limit, offset, query, k);
  }

  /** `call`: the host from the base URL, the service through its setters, `ListUsers`, the classification. */
  method Call(rt: Runtime, send: Outgoing -> Value, c: Connection, input: Input, iso: string)
    returns (r: Result<Value, CallError>)
    ensures r == CallOf(rt, send, c, input, iso)
  {
    var host := HostOf(rt, c);
    if host.None? {
      return Failure(Thrown(InvalidUrl));
    }
    var service := ConfigureIam(c, host.value);
    var sent := Iam.ListUsers(service, rt, InputParams(input), NoFetchParams, NoOptions, iso);
    if sent.Failure? {
      return Failure(Thrown(sent.error));
    }
    var h := Responses.HandleVolcEngineResponse(send(sent.value));
    if h.Failure? {
      return Failure(Rejected(h.error));
    }
    return Success(h.value);
  }
}
