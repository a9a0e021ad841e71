/**
 * The IAM `GetUser` operation (nodes/VolcEngine/resource/iam/GetUser.ts):
 * the user is named by `UserName` or, failing that, by `ID`.
 */
module GetUserOperation {
  import opened Base
  import opened Dicts
  import opened JsValues
  import opened Host
  import opened Transport
  import opened OpenApi
  import opened Operations

  const Action: string := "GetUser"

  /** The node parameters; `None` is a parameter without a value. */
  datatype Input = Input(userName: Option<string>, id: Option<Num>)

  /**
   * The query: `UserName` when the user name is not empty, otherwise `ID`
   * when the id is truthy (neither 0 nor NaN), otherwise nothing; never both.
   */
  function UserParams(userName: string, id: Num): (d: Dict<Value>)
    ensures WellFormed(d)
    ensures Get(d, "UserName") == if userName != "" then Some(Str(userName)) else None
    ensures Get(d, "ID") == if userName == "" && Truthy(Number(id)) then Some(Number(id)) else None
    ensures forall k :: k != "UserName" && k != "ID" ==> Get(d, k) == None
    ensures !(Has(d, "UserName") && Has(d, "ID"))
  {
    if userName != "" then [("UserName", Str(userName))]
    else if Truthy(Number(id)) then [("ID", Number(id))]
    else []
  }

  /** The conditional assignments into `params`. */
  method BuildParams(userName: string, id: Num) returns (params: Dict<Value>)
    ensures params == UserParams(userName, id)
  {
    params := [];
    if userName != "" {
      params := Put(params, "UserName", Str(userName));
    } else if Truthy(Number(id)) {
      params := Put(params, "ID", Number(id));
    }
  }

  /** What `call` returns or throws, given the transport and `new Date().toISOString()`. */
  function CallOf(rt: Runtime, send: Outgoing -> Value, c: Connection, input: Input, iso: string)
    : Result<Value, CallError>
  {
    IamCallOf(rt, send, c, Action, UserParams(Param(input.userName, ""), Param(input.id, Int(0))), iso)
  }

  /** `call`: the host from the base URL, the service through its setters, the query, the call. */
  method Call(rt: Runtime, send: Outgoing -> Value, c: Connection, input: Input, iso: string)
    returns (r: Result<Value, CallError>)
    ensures r == CallOf(rt, send, c, input, iso)
  {
    var host := HostOf(rt, c);
    if host.None? {
      return Failure(Thrown(InvalidUrl));
    }
    var service := ConfigureIam(c, host.value);
    var params := BuildParams(Param(input.userName, ""), Param(input.id, Int(0)));
    r := IamCall(rt, send, service, Action, params, iso);
  }
}
