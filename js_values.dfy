/**
 * The JavaScript values that flow through the client: request parameters,
 * request bodies, header values and decoded response envelopes.
 */
module JsValues {
  import opened Base
  import opened Dicts
  import Text

  /**
   * A JavaScript number: an integer, a finite non-integer carried as the
   * decimal text JavaScript prints for it (never zero), or NaN.
   */
  datatype Num = Int(i: int) | Frac(text: string) | NaN

  datatype Value =
    | Undefined
    | Null
    | Bool(b: bool)
    | Number(n: Num)
    | Str(s: string)
    | Arr(items: seq<Value>)
    | Obj(fields: Dict<Value>)

  /**
   * A property of a fixed-shape object: missing altogether, present with
   * the value `undefined`, or present with a value. An object spread copies
   * the second kind and the third, which is where the two differ.
   */
  datatype Field<+T> = Absent | Undef | Set(value: T) {
    /** `o.p ?? d`, and the default of a destructuring pattern. */
    function Or(d: T): T {
      if Set? then value else d
    }

    /** The field of `{ ...a, ...b }` when this is `b`'s and `a` is given. */
    function Over(a: Field<T>): Field<T> {
      if Absent? then a else this
    }
  }

  /** JavaScript truthiness: `if (v)`. */
  predicate Truthy(v: Value) {
    match v
    case Undefined => false
    case Null => false
    case Bool(b) => b
    case Number(n) => n != Int(0) && n != NaN
    case Str(s) => s != ""
    case _ => true
  }

  /** `v === undefined || v === null`. */
  predicate Nullish(v: Value) {
    v.Undefined? || v.Null?
  }

  /** A truthy string: set and non-empty (`if (s)` on a `string | undefined`). */
  predicate NonEmpty(s: Option<string>) {
    s.Some? && s.value != ""
  }

  /** `v.k` on a value that is not null or undefined. */
  function GetProp(v: Value, k: string): Value {
    if v.Obj? then Get(v.fields, k).GetOr(Undefined) else Undefined
  }

  function DigitChar(d: int): char
    requires 0 <= d < 10
  {
    "0123456789"[d]
  }

  function NatToString(n: nat): (r: string)
    ensures |r| > 0
    ensures forall i :: 0 <= i < |r| ==> '0' <= r[i] <= '9'
  {
    if n < 10 then [DigitChar(n)] else NatToString(n / 10) + [DigitChar(n % 10)]
  }

  /** `String(n)` for a number. */
  function NumToString(n: Num): string {
    match n
    case Int(i) => if i < 0 then "-" + NatToString(-i) else NatToString(i)
    case Frac(t) => t
    case NaN => "NaN"
  }

  /** `String(v)`, and the text of a template literal `${v}`. */
  function ToStr(v: Value): string {
    match v
    case Undefined => "undefined"
    case Null => "null"
    case Bool(b) => if b then "true" else "false"
    case Number(n) => NumToString(n)
    case Str(s) => s
    case Arr(items) =>
      Text.Join(seq(|items|, i requires 0 <= i < |items| => if Nullish(items[i]) then "" else ToStr(items[i])), ",")
    case Obj(_) => "[object Object]"
  }
}
