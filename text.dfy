/**
 * String operations of the JavaScript runtime that the signer and its
 * callers rely on: `Array.prototype.join`, `String.prototype.split` on one
 * character, the `\s` character class, `trim`, ASCII case mapping and
 * `substr(0, n)`.
 */
module Text {

  /** `xs.join(sep)`. */
  function Join(xs: seq<string>, sep: string): string {
    if xs == [] then ""
    else if |xs| == 1 then xs[0]
    else xs[0] + sep + Join(xs[1..], sep)
  }

  /** `s.split(c)`: the pieces between occurrences of `c`; never empty. */
  function Split(s: string, c: char): (r: seq<string>)
    ensures |r| > 0
  {
    if s == [] then [""]
    else
      var rest := Split(s[1..], c);
      if s[0] == c then [""] + rest else [[s[0]] + rest[0]] + rest[1..]
  }

  lemma {:induction false} SplitNoSeparator(x: string, c: char)
    requires c !in x
    ensures Split(x, c) == [x]
  {
    if x != [] {
      SplitNoSeparator(x[1..], c);
      assert [x[0]] + x[1..] == x;
    }
  }

  lemma {:induction false} SplitAtFirst(x: string, c: char, rest: string)
    requires c !in x
    ensures Split(x + [c] + rest, c) == [x] + Split(rest, c)
  {
    if x == [] {
      assert x + [c] + rest == [c] + rest;
      assert ([c] + rest)[1..] == rest;
    } else {
      assert (x + [c] + rest)[1..] == x[1..] + [c] + rest;
      SplitAtFirst(x[1..], c, rest);
      assert [x[0]] + x[1..] == x;
    }
  }

  /** Splitting at one occurrence of the separator splits each side on its own. */
  lemma {:induction false} SplitAppend(x: string, c: char, y: string)
    ensures Split(x + [c] + y, c) == Split(x, c) + Split(y, c)
  {
    if x == [] {
      assert x + [c] + y == [c] + y;
      assert ([c] + y)[1..] == y;
    } else {
      assert (x + [c] + y)[1..] == x[1..] + [c] + y;
      SplitAppend(x[1..], c, y);
    }
  }

  /** Splitting a join on a separator that no piece contains gives the pieces back. */
  lemma {:induction false} SplitJoin(xs: seq<string>, c: char)
    requires |xs| > 0
    requires forall i :: 0 <= i < |xs| ==> c !in xs[i]
    ensures Split(Join(xs, [c]), c) == xs
  {
    if |xs| == 1 {
      SplitNoSeparator(xs[0], c);
    } else {
      SplitJoin(xs[1..], c);
      SplitAtFirst(xs[0], c, Join(xs[1..], [c]));
    }
  }

  lemma {:induction false} JoinExcludes(xs: seq<string>, sep: string, c: char)
    requires c !in sep
    requires forall i :: 0 <= i < |xs| ==> c !in xs[i]
    ensures c !in Join(xs, sep)
  {
    if |xs| > 1 {
      JoinExcludes(xs[1..], sep, c);
    }
  }

  /** The characters JavaScript's `\s` and `trim` treat as white space. */
  predicate IsSpace(c: char) {
    || c == '\t' || c == '\n' || c == '\U{000B}' || c == '\U{000C}' || c == '\r'
    || c == ' ' || c == '\U{00A0}' || c == '\U{1680}'
    || ('\U{2000}' <= c <= '\U{200A}')
    || c == '\U{2028}' || c == '\U{2029}' || c == '\U{202F}' || c == '\U{205F}'
    || c == '\U{3000}' || c == '\U{FEFF}'
  }

  /** Removes the leading run of white space (`/^\s+/`). */
  function TrimStart(s: string): (r: string)
    ensures |r| <= |s| && r == s[|s| - |r|..]
    ensures r == [] || !IsSpace(r[0])
    ensures forall i :: 0 <= i < |s| - |r| ==> IsSpace(s[i])
  {
    if s != [] && IsSpace(s[0]) then TrimStart(s[1..]) else s
  }

  /** Removes the trailing run of white space (`/\s+$/`). */
  function TrimEnd(s: string): (r: string)
    ensures |r| <= |s| && r == s[..|r|]
    ensures r == [] || !IsSpace(r[|r| - 1])
    ensures forall i :: |r| <= i < |s| ==> IsSpace(s[i])
  {
    if s != [] && IsSpace(s[|s| - 1]) then TrimEnd(s[..|s| - 1]) else s
  }

  /** `s.trim()`, and `s.replace(/^\s+|\s+$/g, '')`. */
  function Trim(s: string): string {
    TrimEnd(TrimStart(s))
  }

  /** `s.replace(/\s+/g, ' ')`: every run of white space becomes one space. */
  function Collapse(s: string): (r: string)
    ensures r == [] <==> s == []
    ensures s != [] ==> r[0] == if IsSpace(s[0]) then ' ' else s[0]
    decreases |s|
  {
    if s == [] then []
    else if IsSpace(s[0]) then " " + Collapse(TrimStart(s))
    else [s[0]] + Collapse(s[1..])
  }

  /** The characters of `s` that are not white space, in order. */
  function NonSpace(s: string): string {
    if s == [] then [] else (if IsSpace(s[0]) then [] else [s[0]]) + NonSpace(s[1..])
  }

  /** White space only as single spaces, never two in a row. */
  predicate IsCollapsed(s: string) {
    && (forall i :: 0 <= i < |s| ==> IsSpace(s[i]) ==> s[i] == ' ')
    && (forall i :: 0 <= i < |s| - 1 ==> !IsSpace(s[i]) || !IsSpace(s[i + 1]))
  }

  lemma {:induction false} CollapseIsCollapsed(s: string)
    ensures IsCollapsed(Collapse(s))
    decreases |s|
  {
    if s != [] {
      if IsSpace(s[0]) {
        var t := TrimStart(s);
        CollapseIsCollapsed(t);
        var c := Collapse(t);
        assert Collapse(s) == " " + c;
        assert c != [] ==> !IsSpace(c[0]);
        assert forall i :: 0 < i < |" " + c| ==> (" " + c)[i] == c[i - 1];
      } else {
        CollapseIsCollapsed(s[1..]);
        var c := Collapse(s[1..]);
        assert Collapse(s) == [s[0]] + c;
        assert forall i :: 0 < i < |[s[0]] + c| ==> ([s[0]] + c)[i] == c[i - 1];
      }
    }
  }

  lemma {:induction false} CollapseCollapsed(s: string)
    requires IsCollapsed(s)
    ensures Collapse(s) == s
    decreases |s|
  {
    if s != [] {
      assert IsCollapsed(s[1..]) by {
        assert forall i :: 0 <= i < |s[1..]| ==> s[1..][i] == s[i + 1];
      }
      CollapseCollapsed(s[1..]);
      if IsSpace(s[0]) {
        assert s[1..] == [] || !IsSpace(s[1]);
        assert TrimStart(s) == s[1..];
      }
      assert [s[0]] + s[1..] == s;
    }
  }

  /** Trimming a collapsed string keeps it collapsed and leaves no white space at either end. */
  lemma TrimCollapsed(s: string)
    requires IsCollapsed(s)
    ensures IsCollapsed(Trim(s))
    ensures Trim(s) == [] || (!IsSpace(Trim(s)[0]) && !IsSpace(Trim(s)[|Trim(s)| - 1]))
  {
    var t := TrimStart(s);
    SliceCollapsed(s, |s| - |t|, |s|);
    var r := TrimEnd(t);
    SliceCollapsed(t, 0, |r|);
    assert r == [] || r[0] == t[0];
  }

  lemma {:induction false} SliceCollapsed(s: string, i: nat, j: nat)
    requires IsCollapsed(s) && i <= j <= |s|
    ensures IsCollapsed(s[i..j])
  {
    assert forall k :: 0 <= k < j - i ==> s[i..j][k] == s[i + k];
  }

  lemma {:induction false} NonSpaceAppend(a: string, b: string)
    ensures NonSpace(a + b) == NonSpace(a) + NonSpace(b)
  {
    if a == [] {
      assert a + b == b;
    } else {
      assert (a + b)[1..] == a[1..] + b;
      NonSpaceAppend(a[1..], b);
    }
  }

  lemma {:induction false} NonSpaceTrimStart(s: string)
    ensures NonSpace(TrimStart(s)) == NonSpace(s)
  {
    if s != [] && IsSpace(s[0]) {
      NonSpaceTrimStart(s[1..]);
    }
  }

  lemma {:induction false} NonSpaceTrimEnd(s: string)
    ensures NonSpace(TrimEnd(s)) == NonSpace(s)
  {
    if s != [] && IsSpace(s[|s| - 1]) {
      var init := s[..|s| - 1];
      NonSpaceTrimEnd(init);
      assert s == init + [s[|s| - 1]];
      NonSpaceAppend(init, [s[|s| - 1]]);
    }
  }

  lemma {:induction false} NonSpaceCollapse(s: string)
    ensures NonSpace(Collapse(s)) == NonSpace(s)
    decreases |s|
  {
    if s != [] {
      if IsSpace(s[0]) {
        NonSpaceCollapse(TrimStart(s));
        NonSpaceTrimStart(s);
        NonSpaceAppend(" ", Collapse(TrimStart(s)));
      } else {
        NonSpaceCollapse(s[1..]);
        NonSpaceAppend([s[0]], Collapse(s[1..]));
      }
    }
  }

  function LowerChar(c: char): char {
    if 'A' <= c <= 'Z' then (c as int + 32) as char else c
  }

  function UpperChar(c: char): char {
    if 'a' <= c <= 'z' then (c as int - 32) as char else c
  }

  /** `s.toLowerCase()` on ASCII letters. */
  function Lower(s: string): string {
    seq(|s|, i requires 0 <= i < |s| => LowerChar(s[i]))
  }

  /** `s.toUpperCase()` on ASCII letters. */
  function Upper(s: string): string {
    seq(|s|, i requires 0 <= i < |s| => UpperChar(s[i]))
  }

  /** `s.substr(0, n)`. */
  function Prefix(s: string, n: nat): string {
    if |s| <= n then s else s[..n]
  }
}
