/**
 * The IAM `UpdateUser` operation (nodes/VolcEngine/resource/iam/UpdateUser.ts):
 * the user named by `UserName` gets the new name, display name,
 * description, mobile phone and email that are not left empty.
 */
module UpdateUserOperation {
  import opened Base
  import opened Dicts
  import opened JsValues
  import opened Host
  import opened Transport
  import opened OpenApi
  import opened Operations

  const Action: string := "UpdateUser"

  /** The node parameters; `None` is a parameter without a value (read as `''`). */
  datatype Input = Input(userName: Option<string>, newUserName: Option<string>, newDisplayName: Option<string>,
                         newDescription: Option<string>, newMobilePhone: Option<string>, newEmail: Option<string>)

  /** The parameter values, each defaulting to `''`. */
  datatype Values = Values(userName: string, newUserName: string, newDisplayName: string,
                           newDescription: string, newMobilePhone: string, newEmail: string)

  function ValuesOf(input: Input): Values {
    Values(Param(input.userName, ""), Param(input.newUserName, ""), Param(input.newDisplayName, ""),
           Param(input.newDescription, ""), Param(input.newMobilePhone, ""), Param(input.newEmail, ""))
  }

  /** `if (value) params[name] = value` on a string parameter. */
  function IfSet(name: string, value: string): Assignment {
    Assignment(name, value != "", Str(value))
  }

  /** `{ UserName }` followed by the five optional assignments, in the order the operation makes them. */
  function UpdateParams(f: Values): Dict<Value> {
    Assign3(Assign3([], Assignment("UserName", true, Str(f.userName)), IfSet("NewUserName", f.newUserName),
                    IfSet("NewDisplayName", f.newDisplayName)),
            IfSet("NewDescription", f.newDescription), IfSet("NewMobilePhone", f.newMobilePhone),
            IfSet("NewEmail", f.newEmail))
  }

  /**
   * `UserName` is always sent, even when empty; each new value is sent
   * under its own name exactly when it is not empty; nothing else is sent.
   */
  lemma UpdateParamsGet(f: Values, k: string)
    ensures WellFormed(UpdateParams(f))
    ensures Get(UpdateParams(f), k) ==
      if k == "NewEmail" && f.newEmail != "" then Some(Str(f.newEmail))
      else if k == "NewMobilePhone" && f.newMobilePhone != "" then Some(Str(f.newMobilePhone))
      else if k == "NewDescription" && f.newDescription != "" then Some(Str(f.newDescription))
      else if k == "NewDisplayName" && f.newDisplayName != "" then Some(Str(f.newDisplayName))
      else if k == "NewUserName" && f.newUserName != "" then Some(Str(f.newUserName))
      else if k == "UserName" then Some(Str(f.userName))
      else None
  {
    var head := Assign3([], Assignment("UserName", true, Str(f.userName)), IfSet("NewUserName", f.newUserName),
                        IfSet("NewDisplayName", f.newDisplayName));
    assert WellFormed<Value>([]);
    Assign3Get([], Assignment("UserName", true, Str(f.userName)), IfSet("NewUserName", f.newUserName),
               IfSet("NewDisplayName", f.newDisplayName), k);
    Assign3Get(head, IfSet("NewDescription", f.newDescription), IfSet("NewMobilePhone", f.newMobilePhone),
               IfSet("NewEmail", f.newEmail), k);
  }

  /** The user to update is always named. */
  lemma SendsUserName(f: Values)
    ensures Get(UpdateParams(f), "UserName") == Some(Str(f.userName))
  {
    UpdateParamsGet(f, "UserName");
  }

  /** The new email is sent exactly when it is not empty. */
  lemma SendsNewEmail(f: Values)
    ensures Get(UpdateParams(f), "NewEmail") == if f.newEmail != "" then Some(Str(f.newEmail)) else None
  {
    UpdateParamsGet(f, "NewEmail");
  }

  /** The new user name is sent exactly when it is not empty. */
  lemma SendsNewUserName(f: Values)
    ensures Get(UpdateParams(f), "NewUserName") == if f.newUserName != "" then Some(Str(f.newUserName)) else None
  {
    UpdateParamsGet(f, "NewUserName");
  }

  /** The conditional assignments into `params`. */
  method BuildParams(f: Values) returns (params: Dict<Value>)
    ensures params == UpdateParams(f)
  {
    params := [("UserName", Str(f.userName))];
    if f.newUserName != "" {
      params := Put(params, "NewUserName", Str(f.newUserName));
    }
    if f.newDisplayName != "" {
      params := Put(params, "NewDisplayName", Str(f.newDisplayName));
    }
    if f.newDescription != "" {
      params := Put(params, "NewDescription", Str(f.newDescription));
    }
    if f.newMobilePhone != "" {
      params := Put(params, "NewMobilePhone", Str(f.newMobilePhone));
    }
    if f.newEmail != "" {
      params := Put(params, "NewEmail", Str(f.newEmail));
    }
  }

  /** What `call` returns or throws, given the transport and `new Date().toISOString()`. */
  function CallOf(rt: Runtime, send: Outgoing -> Value, c: Connection, input: Input, iso: string)
    : Result<Value, CallError>
  {
    IamCallOf(rt, send, c, Action, UpdateParams(ValuesOf(input)), iso)
  }

  /** `call`: the credential, `createIamService`, the parameters, the call. */
  method Call(rt: Runtime, send: Outgoing -> Value, c: Connection, input: Input, iso: string)
    returns (r: Result<Value, CallError>)
    ensures r == CallOf(rt, send, c, input, iso)
  {
    var host := HostOf(rt, c);
    if host.None? {
      return Failure(Thrown(InvalidUrl));
    }
    var service := CreateIam(c, host.value);
    var params := BuildParams(ValuesOf(input));
    r := IamCall(rt, send, service, Action, params, iso);
  }
}
