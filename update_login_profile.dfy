/**
 * The IAM `UpdateLoginProfile` operation
 * (nodes/VolcEngine/resource/iam/UpdateLoginProfile.ts): the password,
 * the login switches and the login-protection settings of the user named
 * by `UserName`, each sent only when its parameter is not empty.
 */
module UpdateLoginProfileOperation {
  import opened Base
  import opened Dicts
  import opened JsValues
  import opened Host
  import opened Transport
  import opened OpenApi
  import opened Operations
  import Text

  const Action: string := "UpdateLoginProfile"
  const DefaultMinutes: int := 5
  const DefaultHours: int := 1
  const DefaultDays: int := 1

  // parseInt(s, 10)

  predicate IsDigit(c: char) {
    '0' <= c <= '9'
  }

  /** The longest prefix of `s` made of decimal digits. */
  function Digits(s: string): (r: string)
    ensures |r| <= |s| && r == s[..|r|]
    ensures forall i :: 0 <= i < |r| ==> IsDigit(r[i])
    ensures |r| == |s| || !IsDigit(s[|r|])
  {
    if s != [] && IsDigit(s[0]) then [s[0]] + Digits(s[1..]) else []
  }

  /** The number a run of decimal digits denotes. */
  function DigitsValue(s: string): nat
    requires forall i :: 0 <= i < |s| ==> IsDigit(s[i])
  {
    if s == [] then 0
    else
      var c := s[|s| - 1];
      assert IsDigit(c);
      DigitsValue(s[..|s| - 1]) * 10 + (c as int - '0' as int)
  }

  /**
   * `parseInt(s, 10)`: leading white space skipped, an optional sign, then
   * the longest run of decimal digits; `NaN` when there is no digit.
   */
  function ParseInt(s: string): (n: Num)
    ensures n.NaN? || n.Int?
  {
    var t := Text.TrimStart(s);
    var negative := t != [] && t[0] == '-';
    var rest := if t != [] && (t[0] == '-' || t[0] == '+') then t[1..] else t;
    var digits := Digits(rest);
    if digits == [] then NaN
    else if negative then Int(-(DigitsValue(digits) as int))
    else Int(DigitsValue(digits))
  }

  lemma {:induction false} DigitsValueOfNat(n: nat)
    ensures DigitsValue(NatToString(n)) == n
    decreases n
  {
    var r := NatToString(n);
    if n >= 10 {
      DigitsValueOfNat(n / 10);
      assert r[..|r| - 1] == NatToString(n / 10);
    }
  }

  lemma {:induction false} DigitsOfDigits(s: string, rest: string)
    requires forall i :: 0 <= i < |s| ==> IsDigit(s[i])
    requires rest == [] || !IsDigit(rest[0])
    ensures Digits(s + rest) == s
    decreases |s|
  {
    if s != [] {
      assert (s + rest)[1..] == s[1..] + rest;
      DigitsOfDigits(s[1..], rest);
    } else {
      assert s + rest == rest;
    }
  }

  /**
   * `parseInt` reads back the decimal text of every natural number, and
   * stops at the first character that is not a digit.
   */
  lemma ParseIntOfNat(n: nat, rest: string)
    requires rest == [] || !IsDigit(rest[0])
    ensures ParseInt(NatToString(n) + rest) == Int(n)
  {
    var s := NatToString(n) + rest;
    assert s[0] == NatToString(n)[0];
    assert Text.TrimStart(s) == s;
    DigitsOfDigits(NatToString(n), rest);
    DigitsValueOfNat(n);
  }

  /** `parseInt` of text with no digit after the optional sign is `NaN`. */
  lemma ParseIntNaN(s: string)
    requires var t := Text.TrimStart(s);
      var rest := if t != [] && (t[0] == '-' || t[0] == '+') then t[1..] else t;
      rest == [] || !IsDigit(rest[0])
    ensures ParseInt(s) == NaN
  {
  }

  /** The node parameters; `None` is a parameter without a value. */
  datatype Input = Input(userName: Option<string>, password: Option<string>, loginAllowed: Option<string>,
                         passwordResetRequired: Option<string>, safeAuthFlag: Option<string>,
                         safeAuthType: Option<string>, safeAuthExemptRequired: Option<string>,
                         safeAuthExemptUnit: Option<string>, minutes: Option<Num>, hours: Option<Num>,
                         days: Option<Num>)

  /** The parameter values: `''` for a missing string, 5, 1 and 1 for the durations. */
  datatype Values = Values(userName: string, password: string, loginAllowed: string,
                           passwordResetRequired: string, safeAuthFlag: string, safeAuthType: string,
                           safeAuthExemptRequired: string, safeAuthExemptUnit: string,
                           minutes: Num, hours: Num, days: Num)

  function ValuesOf(input: Input): Values {
    Values(Param(input.userName, ""), Param(input.password, ""), Param(input.loginAllowed, ""),
           Param(input.passwordResetRequired, ""), Param(input.safeAuthFlag, ""), Param(input.safeAuthType, ""),
           Param(input.safeAuthExemptRequired, ""), Param(input.safeAuthExemptUnit, ""),
           Param(input.minutes, Int(DefaultMinutes)), Param(input.hours, Int(DefaultHours)),
           Param(input.days, Int(DefaultDays)))
  }

  /** The duration read for the unit: minutes for `'0'`, hours for `'1'`, days for anything else. */
  function Duration(v: Values): Num {
    if v.safeAuthExemptUnit == "0" then v.minutes
    else if v.safeAuthExemptUnit == "1" then v.hours
    else v.days
  }

  /** The nine assignments, one per parameter. */
  datatype Statements = Statements(userName: Assignment, password: Assignment, loginAllowed: Assignment,
                                   passwordResetRequired: Assignment, safeAuthFlag: Assignment,
                                   safeAuthType: Assignment, safeAuthExemptRequired: Assignment,
                                   safeAuthExemptUnit: Assignment, safeAuthExemptDuration: Assignment)

  /**
   * `UserName` unconditionally; the others when their parameter is not
   * empty, the switches as `=== 'true'`, the exemption flag and unit
   * through `parseInt`; the duration under the unit's condition.
   */
  function LoginStatements(v: Values): Statements {
    var unit := v.safeAuthExemptUnit != "";
    Statements(Assignment("UserName", true, Str(v.userName)),
               Assignment("Password", v.password != "", Str(v.password)),
               Assignment("LoginAllowed", v.loginAllowed != "", Bool(v.loginAllowed == "true")),
               Assignment("PasswordResetRequired", v.passwordResetRequired != "",
                          Bool(v.passwordResetRequired == "true")),
               Assignment("SafeAuthFlag", v.safeAuthFlag != "", Bool(v.safeAuthFlag == "true")),
               Assignment("SafeAuthType", v.safeAuthType != "", Str(v.safeAuthType)),
               Assignment("SafeAuthExemptRequired", v.safeAuthExemptRequired != "",
                          Number(ParseInt(v.safeAuthExemptRequired))),
               Assignment("SafeAuthExemptUnit", unit, Number(ParseInt(v.safeAuthExemptUnit))),
               Assignment("SafeAuthExemptDuration", unit, Number(Duration(v))))
  }

  /** `{ UserName }` and the eight conditional assignments, in the order the operation makes them. */
  function LoginParams(v: Values): Dict<Value> {
    var s := LoginStatements(v);
    Assign9([], s.userName, s.password, s.loginAllowed, s.passwordResetRequired, s.safeAuthFlag,
            s.safeAuthType, s.safeAuthExemptRequired, s.safeAuthExemptUnit, s.safeAuthExemptDuration)
  }

  /** The first three onto `d`. */
  function Credentials(v: Values, d: Dict<Value>): Dict<Value> {
    var s := LoginStatements(v);
    Assign3(d, s.userName, s.password, s.loginAllowed)
  }

  /** The next three onto `d`. */
  function Protection(v: Values, d: Dict<Value>): Dict<Value> {
    var s := LoginStatements(v);
    Assign3(d, s.passwordResetRequired, s.safeAuthFlag, s.safeAuthType)
  }

  /** The last three onto `d`. */
  function Exemption(v: Values, d: Dict<Value>): Dict<Value> {
    var s := LoginStatements(v);
    Assign3(d, s.safeAuthExemptRequired, s.safeAuthExemptUnit, s.safeAuthExemptDuration)
  }

  /** Each parameter holds the value of the last assignment that ran and named it; nothing else is sent. */
  lemma LoginParamsLast(v: Values, k: string)
    ensures WellFormed(LoginParams(v))
    ensures Get(LoginParams(v), k) ==
      if k == "SafeAuthExemptDuration" && v.safeAuthExemptUnit != "" then Some(Number(Duration(v)))
      else if k == "SafeAuthExemptUnit" && v.safeAuthExemptUnit != "" then Some(Number(ParseInt(v.safeAuthExemptUnit)))
      else if k == "SafeAuthExemptRequired" && v.safeAuthExemptRequired != "" then
        Some(Number(ParseInt(v.safeAuthExemptRequired)))
      else if k == "SafeAuthType" && v.safeAuthType != "" then Some(Str(v.safeAuthType))
      else if k == "SafeAuthFlag" && v.safeAuthFlag != "" then Some(Bool(v.safeAuthFlag == "true"))
      else if k == "PasswordResetRequired" && v.passwordResetRequired != "" then
        Some(Bool(v.passwordResetRequired == "true"))
      else if k == "LoginAllowed" && v.loginAllowed != "" then Some(Bool(v.loginAllowed == "true"))
      else if k == "Password" && v.password != "" then Some(Str(v.password))
      else if k == "UserName" then Some(Str(v.userName))
      else None
  {
    var s := LoginStatements(v);
    assert WellFormed<Value>([]);
    Assign9Get([], s.userName, s.password, s.loginAllowed, s.passwordResetRequired, s.safeAuthFlag,
               s.safeAuthType, s.safeAuthExemptRequired, s.safeAuthExemptUnit, s.safeAuthExemptDuration, k);
  }

  /** `UserName` is always sent, even when empty. */
  lemma SendsUserName(v: Values)
    ensures Get(LoginParams(v), "UserName") == Some(Str(v.userName))
  {
    var k := "UserName";
    assert k[0] == 'U' && |k| == 8;
    LoginParamsLast(v, k);
  }

  /** `Password` is sent as given exactly when it is not empty. */
  lemma SendsPassword(v: Values)
    ensures Get(LoginParams(v), "Password") == if v.password != "" then Some(Str(v.password)) else None
  {
    var k := "Password";
    assert k[0] == 'P' && |k| == 8;
    LoginParamsLast(v, k);
  }

  /** `LoginAllowed` is sent when not empty, as `true` exactly when it reads `'true'`. */
  lemma SendsLoginAllowed(v: Values)
    ensures Get(LoginParams(v), "LoginAllowed") ==
      if v.loginAllowed != "" then Some(Bool(v.loginAllowed == "true")) else None
  {
    var k := "LoginAllowed";
    assert k[0] == 'L' && |k| == 12;
    LoginParamsLast(v, k);
  }

  /** `PasswordResetRequired` is sent when not empty, as `true` exactly when it reads `'true'`. */
  lemma SendsPasswordResetRequired(v: Values)
    ensures Get(LoginParams(v), "PasswordResetRequired") ==
      if v.passwordResetRequired != "" then Some(Bool(v.passwordResetRequired == "true")) else None
  {
    var k := "PasswordResetRequired";
    assert k[0] == 'P' && |k| == 21;
    LoginParamsLast(v, k);
  }

  /** `SafeAuthFlag` is sent when not empty, as `true` exactly when it reads `'true'`. */
  lemma SendsSafeAuthFlag(v: Values)
    ensures Get(LoginParams(v), "SafeAuthFlag") ==
      if v.safeAuthFlag != "" then Some(Bool(v.safeAuthFlag == "true")) else None
  {
    LoginParamsLast(v, "SafeAuthFlag");
  }

  /** `SafeAuthType` is sent as given exactly when it is not empty. */
  lemma SendsSafeAuthType(v: Values)
    ensures Get(LoginParams(v), "SafeAuthType") == if v.safeAuthType != "" then Some(Str(v.safeAuthType)) else None
  {
    LoginParamsLast(v, "SafeAuthType");
  }

  /** `SafeAuthExemptRequired` is sent as a parsed integer exactly when it is not empty. */
  lemma SendsSafeAuthExemptRequired(v: Values)
    ensures Get(LoginParams(v), "SafeAuthExemptRequired") ==
      if v.safeAuthExemptRequired != "" then Some(Number(ParseInt(v.safeAuthExemptRequired))) else None
  {
    LoginParamsLast(v, "SafeAuthExemptRequired");
  }

  /**
   * The unit is sent as a parsed integer exactly when it is not empty, and
   * then the duration goes with it: minutes for `'0'`, hours for `'1'`,
   * days otherwise.
   */
  lemma SendsExemptUnit(v: Values)
    ensures Get(LoginParams(v), "SafeAuthExemptUnit") ==
      if v.safeAuthExemptUnit != "" then Some(Number(ParseInt(v.safeAuthExemptUnit))) else None
    ensures Get(LoginParams(v), "SafeAuthExemptDuration") ==
      if v.safeAuthExemptUnit == "" then None
      else if v.safeAuthExemptUnit == "0" then Some(Number(v.minutes))
      else if v.safeAuthExemptUnit == "1" then Some(Number(v.hours))
      else Some(Number(v.days))
  {
    LoginParamsLast(v, "SafeAuthExemptUnit");
    LoginParamsLast(v, "SafeAuthExemptDuration");
  }

  /** The conditional assignments into `params`, the duration chosen by the unit. */
  method BuildParams(v: Values) returns (params: Dict<Value>)
    ensures params == LoginParams(v)
  {
    params := [("UserName", Str(v.userName))];
    if v.password != "" {
      params := Put(params, "Password", Str(v.password));
    }
    if v.loginAllowed != "" {
      params := Put(params, "LoginAllowed", Bool(v.loginAllowed == "true"));
    }
    assert params == Credentials(v, []);
    params := SetProtection(v, params);
    params := SetExemption(v, params);
  }

  /** The password-reset and safe-auth assignments onto `d`. */
  method SetProtection(v: Values, d: Dict<Value>) returns (params: Dict<Value>)
    ensures params == Protection(v, d)
  {
    params := d;
    if v.passwordResetRequired != "" {
      params := Put(params, "PasswordResetRequired", Bool(v.passwordResetRequired == "true"));
    }
    if v.safeAuthFlag != "" {
      params := Put(params, "SafeAuthFlag", Bool(v.safeAuthFlag == "true"));
    }
    if v.safeAuthType != "" {
      params := Put(params, "SafeAuthType", Str(v.safeAuthType));
    }
  }

  /** The exemption assignments onto `d`, the duration picked by the unit. */
  method SetExemption(v: Values, d: Dict<Value>) returns (params: Dict<Value>)
    ensures params == Exemption(v, d)
  {
    params := d;
    if v.safeAuthExemptRequired != "" {
      params := Put(params, "SafeAuthExemptRequired", Number(ParseInt(v.safeAuthExemptRequired)));
    }
    if v.safeAuthExemptUnit != "" {
      params := Put(params, "SafeAuthExemptUnit", Number(ParseInt(v.safeAuthExemptUnit)));
      var duration: Num;
      if v.safeAuthExemptUnit == "0" {
        duration := v.minutes;
      } else if v.safeAuthExemptUnit == "1" {
        duration := v.hours;
      } else {
        duration := v.days;
      }
      params := Put(params, "SafeAuthExemptDuration", Number(duration));
    }
  }

  /** What `call` returns or throws, given the transport and `new Date().toISOString()`. */
  function CallOf(rt: Runtime, send: Outgoing -> Value, c: Connection, input: Input, iso: string)
    : Result<Value, CallError>
  {
    IamCallOf(rt, send, c, Action, LoginParams(ValuesOf(input)), iso)
  }

  /** `call`: the host from the base URL, `new IamService({...})`, the parameters, the call. */
  method Call(rt: Runtime, send: Outgoing -> Value, c: Connection, input: Input, iso: string)
    returns (r: Result<Value, CallError>)
    ensures r == CallOf(rt, send, c, input, iso)
  {
    var host := HostOf(rt, c);
    if host.None? {
      return Failure(Thrown(InvalidUrl));
    }
    var service := CreateIam(c, host.value);
    var params := BuildParams(ValuesOf(input));
    r := IamCall(rt, send, service, Action, params, iso);
  }
}
