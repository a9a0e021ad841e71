/**
 * Percent-encoding as the signer performs it (`uriEscape`), UTF-8 and the
 * hexadecimal rendering of digests.
 */
module Escape {
  import opened Base

  type Byte = b: int | 0 <= b < 256

  /** The UTF-8 encoding of one Unicode scalar value. */
  function Utf8(c: char): (bs: seq<Byte>)
    ensures 1 <= |bs| <= 4
  {
    var n := c as int;
    if n < 0x80 then [n]
    else if n < 0x800 then [0xC0 + n / 64, 0x80 + n % 64]
    else if n < 0x10000 then [0xE0 + n / 4096, 0x80 + (n / 64) % 64, 0x80 + n % 64]
    else [0xF0 + n / 262144, 0x80 + (n / 4096) % 64, 0x80 + (n / 64) % 64, 0x80 + n % 64]
  }

  /** The UTF-8 bytes of a string, as crypto-js feeds a string to SHA-256 and HMAC. */
  function Utf8Bytes(s: string): seq<Byte> {
    if s == [] then [] else Utf8(s[0]) + Utf8Bytes(s[1..])
  }

  /** Digit `d` of hexadecimal: `0-9A-F` when `upper`, `0-9a-f` otherwise. */
  function HexDigit(d: int, upper: bool): (c: char)
    requires 0 <= d < 16
    ensures '0' <= c <= '9' || (upper && 'A' <= c <= 'F') || (!upper && 'a' <= c <= 'f')
  {
    (if upper then "0123456789ABCDEF" else "0123456789abcdef")[d]
  }

  /** Lower-case hexadecimal, two digits per byte (`WordArray.toString()`). */
  function Hex(bs: seq<Byte>): (r: string)
    ensures |r| == 2 * |bs|
    ensures forall i :: 0 <= i < |r| ==> '0' <= r[i] <= '9' || 'a' <= r[i] <= 'f'
  {
    seq(2 * |bs|, i requires 0 <= i < 2 * |bs| =>
      if i % 2 == 0 then HexDigit(bs[i / 2] / 16, false) else HexDigit(bs[i / 2] % 16, false))
  }

  /** `%XX` for each byte, upper-case hexadecimal. */
  function PercentEncode(bs: seq<Byte>): (r: string)
    ensures |r| == 3 * |bs|
  {
    seq(3 * |bs|, i requires 0 <= i < 3 * |bs| =>
      if i % 3 == 0 then '%' else if i % 3 == 1 then HexDigit(bs[i / 3] / 16, true) else HexDigit(bs[i / 3] % 16, true))
  }

  predicate IsAlphanumeric(c: char) {
    'A' <= c <= 'Z' || 'a' <= c <= 'z' || '0' <= c <= '9'
  }

  /** The unreserved characters of section 2.3 of RFC 3986. */
  predicate IsUnreserved(c: char) {
    IsAlphanumeric(c) || c == '_' || c == '.' || c == '~' || c == '-'
  }

  /** Applies `f` to every character and concatenates the results. */
  function FlatMap(s: string, f: char -> string): string {
    if s == [] then [] else f(s[0]) + FlatMap(s[1..], f)
  }

  lemma {:induction false} FlatMapAppend(a: string, b: string, f: char -> string)
    ensures FlatMap(a + b, f) == FlatMap(a, f) + FlatMap(b, f)
  {
    if a == [] {
      assert a + b == b;
    } else {
      assert (a + b)[0] == a[0];
      assert (a + b)[1..] == a[1..] + b;
      FlatMapAppend(a[1..], b, f);
    }
  }

  lemma {:induction false} FlatMapCompose(s: string, f: char -> string, g: char -> string)
    ensures FlatMap(FlatMap(s, f), g) == FlatMap(s, c => FlatMap(f(c), g))
  {
    if s != [] {
      FlatMapAppend(f(s[0]), FlatMap(s[1..], f), g);
      FlatMapCompose(s[1..], f, g);
    }
  }

  lemma {:induction false} FlatMapIdentity(s: string, f: char -> string)
    requires forall i :: 0 <= i < |s| ==> f(s[i]) == [s[i]]
    ensures FlatMap(s, f) == s
  {
    if s != [] {
      FlatMapIdentity(s[1..], f);
      assert [s[0]] + s[1..] == s;
    }
  }

  /** The characters `encodeURIComponent` leaves as they are. */
  predicate IsComponentSafe(c: char) {
    IsUnreserved(c) || c == '!' || c == '*' || c == '\'' || c == '(' || c == ')'
  }

  /** `encodeURIComponent(s)`, one character at a time. */
  function EncodeComponentChar(c: char): string {
    if IsComponentSafe(c) then [c] else PercentEncode(Utf8(c))
  }

  /** The characters the legacy `escape` leaves as they are. */
  predicate IsEscapeSafe(c: char) {
    IsAlphanumeric(c) || c == '@' || c == '*' || c == '_' || c == '+' || c == '-' || c == '.' || c == '/'
  }

  /** The legacy `escape` on one character: `%XX` below 256, `%uXXXX` per UTF-16 unit above. */
  function LegacyEscapeChar(c: char): string {
    var n := c as int;
    if IsEscapeSafe(c) then [c]
    else if n < 256 then ['%', HexDigit(n / 16, true), HexDigit(n % 16, true)]
    else if n < 0x10000 then Unit(n)
    else Unit(0xD800 + (n - 0x10000) / 1024) + Unit(0xDC00 + (n - 0x10000) % 1024)
  }

  function Unit(u: int): string
    requires 0 <= u < 0x10000
  {
    ['%', 'u', HexDigit(u / 4096, true), HexDigit(u / 256 % 16, true), HexDigit(u / 16 % 16, true), HexDigit(u % 16, true)]
  }

  /**
   * `.replace(/[^A-Za-z0-9_.~\-%]+/g, escape)`: `escape` works character by
   * character, so escaping each matched run is escaping each of its characters.
   */
  function EscapeRunChar(c: char): string {
    if IsUnreserved(c) || c == '%' then [c] else LegacyEscapeChar(c)
  }

  /** `.replace(/[*]/g, ...)`: `*` becomes `%2A`. */
  function StarChar(c: char): string {
    if c == '*' then "%2A" else [c]
  }

  /** `uriEscape(str)`: the three passes of the source, in order. */
  function UriEscape(s: string): string {
    FlatMap(FlatMap(FlatMap(s, EncodeComponentChar), EscapeRunChar), StarChar)
  }

  /** The rule the three passes implement, for one character. */
  function EscapeChar(c: char): (r: string)
    ensures IsUnreserved(c) ==> r == [c]
    ensures !IsUnreserved(c) ==> r == PercentEncode(Utf8(c)) && |r| >= 3 && r[0] == '%'
  {
    if IsUnreserved(c) then [c] else PercentEncode(Utf8(c))
  }

  lemma PercentEncodePassesThrough(bs: seq<Byte>)
    ensures FlatMap(PercentEncode(bs), EscapeRunChar) == PercentEncode(bs)
    ensures FlatMap(PercentEncode(bs), StarChar) == PercentEncode(bs)
  {
    var p := PercentEncode(bs);
    assert forall i :: 0 <= i < |p| ==> IsUnreserved(p[i]) || p[i] == '%';
    FlatMapIdentity(p, EscapeRunChar);
    FlatMapIdentity(p, StarChar);
  }

  lemma EscapeCharPasses(c: char)
    ensures FlatMap(FlatMap(EncodeComponentChar(c), EscapeRunChar), StarChar) == EscapeChar(c)
  {
    if IsUnreserved(c) {
    } else if IsComponentSafe(c) {
      assert FlatMap([c], EscapeRunChar) == EscapeRunChar(c);
      if c == '*' {
        assert FlatMap("*", StarChar) == "%2A";
      } else {
        var e := LegacyEscapeChar(c);
        assert |e| == 3 && e[0] == '%';
        FlatMapIdentity(e, StarChar);
      }
    } else {
      PercentEncodePassesThrough(Utf8(c));
    }
  }

  /**
   * `uriEscape` keeps `A-Za-z0-9_.~-` and turns every other character into
   * `%XX` groups of its UTF-8 bytes in upper-case hexadecimal.
   */
  lemma UriEscapeByCharacter(s: string)
    ensures UriEscape(s) == FlatMap(s, EscapeChar)
  {
    var f := EncodeComponentChar;
    FlatMapCompose(s, f, EscapeRunChar);
    var fg := c => FlatMap(f(c), EscapeRunChar);
    FlatMapCompose(s, fg, StarChar);
    forall c ensures FlatMap(fg(c), StarChar) == EscapeChar(c) {
      EscapeCharPasses(c);
    }
    FlatMapSame(s, c => FlatMap(fg(c), StarChar), EscapeChar);
  }

  lemma {:induction false} FlatMapSame(s: string, f: char -> string, g: char -> string)
    requires forall c :: f(c) == g(c)
    ensures FlatMap(s, f) == FlatMap(s, g)
  {
    if s != [] {
      FlatMapSame(s[1..], f, g);
    }
  }

  /** The value of an upper-case hexadecimal digit. */
  function HexValue(c: char): Option<int> {
    if '0' <= c <= '9' then Some(c as int - '0' as int)
    else if 'A' <= c <= 'F' then Some(c as int - 'A' as int + 10)
    else None
  }

  lemma HexValueOfDigit(d: int)
    requires 0 <= d < 16
    ensures HexValue(HexDigit(d, true)) == Some(d)
  {
  }

  /** The byte written as the `k`-th `%XX` group of `s`, if there is one. */
  function ByteAt(s: string, k: nat): Option<Byte> {
    if 3 * k + 3 <= |s| && s[3 * k] == '%' && HexValue(s[3 * k + 1]).Some? && HexValue(s[3 * k + 2]).Some?
       && 0 <= HexValue(s[3 * k + 1]).value < 16 && 0 <= HexValue(s[3 * k + 2]).value < 16
    then Some(16 * HexValue(s[3 * k + 1]).value + HexValue(s[3 * k + 2]).value)
    else None
  }

  /** The six payload bits of a UTF-8 continuation byte at group `k`. */
  function Continuation(s: string, k: nat): Option<int> {
    match ByteAt(s, k)
    case Some(b) => if 0x80 <= b < 0xC0 then Some(b - 0x80) else None
    case None => None
  }

  /** How many bytes a UTF-8 sequence starting with `lead` has (0: not a lead byte). */
  function SequenceLength(lead: Byte): nat {
    if lead < 0x80 then 1
    else if 0xC0 <= lead < 0xE0 then 2
    else if 0xE0 <= lead < 0xF0 then 3
    else if 0xF0 <= lead < 0xF8 then 4
    else 0
  }

  predicate IsScalar(n: int) {
    0 <= n < 0xD800 || 0xE000 <= n < 0x11_0000
  }

  /** The code point spelled by the `%XX` groups at the front of `s`. */
  function CodePointAt(s: string): Option<int> {
    match ByteAt(s, 0)
    case None => None
    case Some(lead) =>
      var len := SequenceLength(lead);
      if len == 1 then Some(lead)
      else if len == 2 then
        if Continuation(s, 1).Some? then Some((lead - 0xC0) * 64 + Continuation(s, 1).value) else None
      else if len == 3 then
        if Continuation(s, 1).Some? && Continuation(s, 2).Some?
        then Some((lead - 0xE0) * 4096 + Continuation(s, 1).value * 64 + Continuation(s, 2).value)
        else None
      else if len == 4 then
        if Continuation(s, 1).Some? && Continuation(s, 2).Some? && Continuation(s, 3).Some?
        then Some((lead - 0xF0) * 262144 + Continuation(s, 1).value * 4096
                  + Continuation(s, 2).value * 64 + Continuation(s, 3).value)
        else None
      else None
  }

  /** The character a percent-encoded UTF-8 sequence at the front of `s` decodes to, and its length. */
  function DecodeAt(s: string): (r: Option<(char, nat)>)
    ensures r.Some? ==> 3 <= r.value.1 <= |s|
  {
    match CodePointAt(s)
    case Some(n) =>
      if IsScalar(n) then
        var len := SequenceLength(ByteAt(s, 0).value);
        assert ByteAt(s, len - 1).Some?;
        Some((n as char, 3 * len))
      else None
    case None => None
  }

  /** Reverses `uriEscape`: `%XX` groups back to characters, everything else kept. */
  function UriUnescape(s: string): string
    decreases |s|
  {
    if s == [] then []
    else if s[0] != '%' then [s[0]] + UriUnescape(s[1..])
    else match DecodeAt(s)
      case Some((c, n)) => [c] + UriUnescape(s[n..])
      case None => [s[0]] + UriUnescape(s[1..])
  }

  lemma ByteAtEncoded(bs: seq<Byte>, rest: string, k: nat)
    requires k < |bs|
    ensures ByteAt(PercentEncode(bs) + rest, k) == Some(bs[k])
  {
    var s := PercentEncode(bs) + rest;
    assert s[3 * k] == '%';
    assert s[3 * k + 1] == HexDigit(bs[k] / 16, true);
    assert s[3 * k + 2] == HexDigit(bs[k] % 16, true);
    HexValueOfDigit(bs[k] / 16);
    HexValueOfDigit(bs[k] % 16);
  }

  lemma DigitsOfThree(n: int)
    requires 0 <= n
    ensures n / 4096 * 4096 + (n / 64) % 64 * 64 + n % 64 == n
  {
    var q := n / 64;
    assert n == q * 64 + n % 64;
    assert q == q / 64 * 64 + q % 64;
    assert n / 4096 == q / 64;
  }

  lemma DigitsOfFour(n: int)
    requires 0 <= n
    ensures n / 262144 * 262144 + (n / 4096) % 64 * 4096 + (n / 64) % 64 * 64 + n % 64 == n
  {
    var q := n / 4096;
    DigitsOfThree(n);
    assert n / 4096 * 4096 + (n / 64) % 64 * 64 + n % 64 == n;
    assert q == q / 64 * 64 + q % 64;
    assert n / 262144 == q / 64;
  }

  lemma CodePointOfEncoded(c: char, s: string)
    requires forall k :: 0 <= k < |Utf8(c)| ==> ByteAt(s, k) == Some(Utf8(c)[k])
    ensures CodePointAt(s) == Some(c as int)
  {
    var n := c as int;
    var bs := Utf8(c);
    assert ByteAt(s, 0) == Some(bs[0]);
    if n < 0x80 {
    } else if n < 0x800 {
      assert ByteAt(s, 1) == Some(bs[1]);
    } else if n < 0x10000 {
      assert ByteAt(s, 1) == Some(bs[1]);
      assert ByteAt(s, 2) == Some(bs[2]);
      DigitsOfThree(n);
    } else {
      assert ByteAt(s, 1) == Some(bs[1]);
      assert ByteAt(s, 2) == Some(bs[2]);
      assert ByteAt(s, 3) == Some(bs[3]);
      DigitsOfFour(n);
    }
  }

  lemma DecodeEscaped(c: char, rest: string)
    ensures DecodeAt(PercentEncode(Utf8(c)) + rest) == Some((c, 3 * |Utf8(c)|))
  {
    var bs := Utf8(c);
    var s := PercentEncode(bs) + rest;
    forall k | 0 <= k < |bs| ensures ByteAt(s, k) == Some(bs[k]) {
      ByteAtEncoded(bs, rest, k);
    }
    CodePointOfEncoded(c, s);
  }

  lemma {:induction false} UnescapeEscapeChars(s: string)
    ensures UriUnescape(FlatMap(s, EscapeChar)) == s
  {
    if s != [] {
      var c := s[0];
      var rest := FlatMap(s[1..], EscapeChar);
      var e := EscapeChar(c) + rest;
      UnescapeEscapeChars(s[1..]);
      if IsUnreserved(c) {
        assert e[0] == c && e[1..] == rest;
      } else {
        DecodeEscaped(c, rest);
        assert e[3 * |Utf8(c)|..] == rest;
      }
      assert [c] + s[1..] == s;
    }
  }

  /** Percent-decoding recovers the original string: `uriEscape` loses nothing. */
  lemma UriEscapeRoundTrip(s: string)
    ensures UriUnescape(UriEscape(s)) == s
  {
    UriEscapeByCharacter(s);
    UnescapeEscapeChars(s);
  }

  /** A string made only of unreserved characters is left unchanged, and no other string is. */
  lemma {:induction false} UriEscapeIdentity(s: string)
    ensures UriEscape(s) == s <==> forall i :: 0 <= i < |s| ==> IsUnreserved(s[i])
  {
    UriEscapeByCharacter(s);
    EscapeCharsLength(s);
    if forall i :: 0 <= i < |s| ==> IsUnreserved(s[i]) {
      FlatMapIdentity(s, EscapeChar);
    }
  }

  /** Each character yields at least itself in length, strictly more when it is reserved. */
  lemma {:induction false} EscapeCharsLength(s: string)
    ensures |FlatMap(s, EscapeChar)| >= |s|
    ensures (exists i :: 0 <= i < |s| && !IsUnreserved(s[i])) ==> |FlatMap(s, EscapeChar)| > |s|
  {
    if s != [] {
      EscapeCharsLength(s[1..]);
      if exists i :: 0 <= i < |s| && !IsUnreserved(s[i]) {
        var i :| 0 <= i < |s| && !IsUnreserved(s[i]);
        if i > 0 {
          assert s[1..][i - 1] == s[i];
        }
      }
    }
  }

  /** Every character of the output is unreserved or the `%` of an escape group. */
  lemma {:induction false} UriEscapeAlphabet(s: string)
    ensures IsEscapedText(UriEscape(s))
  {
    UriEscapeByCharacter(s);
    EscapeCharsAlphabet(s);
  }

  /** Text made only of unreserved characters and `%`. */
  predicate IsEscapedText(t: string) {
    forall i :: 0 <= i < |t| ==> IsUnreserved(t[i]) || t[i] == '%'
  }

  lemma {:induction false} EscapeCharsAlphabet(s: string)
    ensures IsEscapedText(FlatMap(s, EscapeChar))
  {
    if s != [] {
      EscapeCharsAlphabet(s[1..]);
      if !IsUnreserved(s[0]) {
        PercentEncodeEscaped(Utf8(s[0]));
      }
      EscapedTextAppend(EscapeChar(s[0]), FlatMap(s[1..], EscapeChar));
    }
  }

  lemma PercentEncodeEscaped(bs: seq<Byte>)
    ensures IsEscapedText(PercentEncode(bs))
  {
  }

  lemma EscapedTextAppend(a: string, b: string)
    requires IsEscapedText(a) && IsEscapedText(b)
    ensures IsEscapedText(a + b)
  {
    assert forall i :: 0 <= i < |a + b| ==> (a + b)[i] == if i < |a| then a[i] else b[i - |a|];
  }

  /**
   * An example of `EscapeChar` on two characters: the `*` that
   * `encodeURIComponent` keeps is sent as `%2A`, and a space as `%20`.
   */
  lemma UriEscapeStar()
    ensures UriEscape("*") == "%2A"
    ensures UriEscape("a b") == "a%20b"
  {
    UriEscapeByCharacter("*");
    UriEscapeByCharacter("a b");
    assert FlatMap("a b", EscapeChar) == EscapeChar('a') + FlatMap(" b", EscapeChar);
    assert FlatMap(" b", EscapeChar) == EscapeChar(' ') + FlatMap("b", EscapeChar);
  }

  /** Only the empty string escapes to the empty string (the source's `!escapedKey` test). */
  lemma UriEscapeEmpty(s: string)
    ensures UriEscape(s) == "" <==> s == ""
  {
    UriEscapeByCharacter(s);
    EscapeCharsLength(s);
  }
}
