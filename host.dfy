/**
 * What the client takes from its host environment without defining it:
 * the crypto-js digests, `JSON.stringify` and `JSON.parse`, the
 * `URLSearchParams` and `querystring` serialisers, the `URL` parser, and
 * the request bodies built from them.
 */
module Host {
  import opened Base
  import opened Dicts
  import opened JsValues
  import opened Escape

  /** A SHA-256 digest or HMAC-SHA256 code: 32 bytes. */
  type Digest = s: seq<Byte> | |s| == 32 witness seq(32, i => 0)

  /**
   * The foreign functions, as values. `hmac(key, message)` and
   * `sha256(message)` work on bytes; a string argument is passed as its
   * UTF-8 bytes, as crypto-js does. `jsonParse` is `None` where
   * `JSON.parse` throws, `urlHost` is `None` where `new URL(s)` throws.
   */
  datatype Runtime = Runtime(
    sha256: seq<Byte> -> Digest,
    hmac: (seq<Byte>, seq<Byte>) -> Digest,
    jsonStringify: Value -> string,
    formEncode: seq<(string, string)> -> string,
    qsStringify: Dict<Value> -> string,
    jsonParse: string -> Option<Value>,
    urlHost: string -> Option<string>)

  /**
   * A request body: a `URLSearchParams` of name/value pairs, or any other
   * value (`Plain(Undefined)` is no body at all).
   */
  datatype Body = Form(pairs: seq<(string, string)>) | Plain(value: Value)

  /** `if (body)`: a `URLSearchParams` is an object and always truthy. */
  predicate BodyTruthy(b: Body) {
    b.Form? || Truthy(b.value)
  }

  /**
   * The text of a body as the signer hashes it: a string as it is, a
   * `URLSearchParams` through `toString()`, anything else through `JSON.stringify`.
   */
  function BodyText(rt: Runtime, b: Body): string {
    match b
    case Form(pairs) => rt.formEncode(pairs)
    case Plain(v) => if v.Str? then v.s else rt.jsonStringify(v)
  }

  /**
   * The body read as a record (`Object.keys(body)` and `body[key]`): a
   * string or an array has its indices as keys, a `URLSearchParams`, a
   * number or a boolean has no own keys.
   */
  function RecordView(b: Body): Dict<Value> {
    match b
    case Form(_) => []
    case Plain(v) =>
      match v
      case Obj(d) => d
      case Str(s) => seq(|s|, i requires 0 <= i < |s| => (NatToString(i), Str([s[i]])))
      case Arr(items) => seq(|items|, i requires 0 <= i < |items| => (NatToString(i), items[i]))
      case _ => []
  }
}
