/**
 * The canonical query string of the signer (`queryParamsToString`): every
 * property with a value, key and value percent-encoded, joined with `&` in
 * the object's key order; an array gives one `key=value` pair per element.
 */
module Query {
  import opened Base
  import opened Dicts
  import opened JsValues
  import opened Text
  import opened Order
  import opened Escape

  /** `val.map((v) => uriEscape(String(v)))`. */
  function EscapedValues(items: seq<Value>): seq<string> {
    seq(|items|, i requires 0 <= i < |items| => UriEscape(ToStr(items[i])))
  }

  /** `val.map((v) => uriEscape(String(v))).sort()` for an array value: the escaped elements in ascending order. */
  function EscapedItems(items: seq<Value>): (r: seq<string>)
    ensures |r| == |items|
    ensures Sorted(r) && multiset(r) == multiset(EscapedValues(items))
  {
    var escaped := EscapedValues(items);
    var r := SortStrings(escaped);
    assert |r| == |multiset(r)| == |multiset(escaped)| == |escaped|;
    r
  }

  /** What one property contributes; `None` where the source returns `undefined`. */
  function Entry(k: string, v: Value): Option<string> {
    if Nullish(v) then None
    else
      var ek := UriEscape(k);
      if ek == "" then None
      else if v.Arr? then Some(ek + "=" + Join(EscapedItems(v.items), "&" + ek + "="))
      else Some(ek + "=" + UriEscape(ToStr(v)))
  }

  /** The contributions that survive `.filter((v) => v)`, in key order. */
  function Entries(d: Dict<Value>): seq<string> {
    if d == [] then []
    else
      var e := Entry(d[0].0, d[0].1);
      (if e.Some? then [e.value] else []) + Entries(d[1..])
  }

  /** `queryParamsToString(params)`. */
  function QueryParamsToString(d: Dict<Value>): string {
    Join(Entries(d), "&")
  }

  /** The escaped `(key, value)` pairs one property contributes. */
  function EntryPairs(k: string, v: Value): (r: seq<(string, string)>)
    ensures forall i :: 0 <= i < |r| ==> r[i].0 == UriEscape(k) != ""
  {
    if Nullish(v) || UriEscape(k) == "" then []
    else if v.Arr? then
      if v.items == [] then [(UriEscape(k), "")]
      else
        var es := EscapedItems(v.items);
        seq(|es|, i requires 0 <= i < |es| => (UriEscape(k), es[i]))
    else [(UriEscape(k), UriEscape(ToStr(v)))]
  }

  /** The escaped pairs of the whole query, in the order they are written. */
  function QueryPairs(d: Dict<Value>): seq<(string, string)> {
    if d == [] then [] else EntryPairs(d[0].0, d[0].1) + QueryPairs(d[1..])
  }

  function PairText(p: (string, string)): string {
    p.0 + "=" + p.1
  }

  function PairTexts(ps: seq<(string, string)>): (r: seq<string>)
    ensures |r| == |ps|
  {
    seq(|ps|, i requires 0 <= i < |ps| => PairText(ps[i]))
  }

  lemma {:induction false} JoinAppend(xs: seq<string>, ys: seq<string>, sep: string)
    requires xs != [] && ys != []
    ensures Join(xs + ys, sep) == Join(xs, sep) + sep + Join(ys, sep)
  {
    if |xs| == 1 {
      assert (xs + ys)[1..] == ys;
    } else {
      assert (xs + ys)[1..] == xs[1..] + ys;
      JoinAppend(xs[1..], ys, sep);
    }
  }

  /** `ek=` followed by values joined with `&ek=` is the `ek=value` pairs joined with `&`. */
  lemma {:induction false} JoinRepeatedKey(ek: string, es: seq<string>)
    requires es != []
    ensures ek + "=" + Join(es, "&" + ek + "=")
         == Join(PairTexts(seq(|es|, i requires 0 <= i < |es| => (ek, es[i]))), "&")
  {
    var ps := seq(|es|, i requires 0 <= i < |es| => (ek, es[i]));
    if |es| > 1 {
      var tail := seq(|es| - 1, i requires 0 <= i < |es| - 1 => (ek, es[1..][i]));
      JoinRepeatedKey(ek, es[1..]);
      assert PairTexts(ps)[1..] == PairTexts(tail);
      assert ek + "=" + Join(es, "&" + ek + "=")
          == (ek + "=" + es[0]) + "&" + (ek + "=" + Join(es[1..], "&" + ek + "="));
    }
  }

  lemma EntryAsPairs(k: string, v: Value)
    ensures Entry(k, v).None? <==> EntryPairs(k, v) == []
    ensures Entry(k, v).Some? ==> Entry(k, v).value == Join(PairTexts(EntryPairs(k, v)), "&")
  {
    if !Nullish(v) && UriEscape(k) != "" && v.Arr? && v.items != [] {
      JoinRepeatedKey(UriEscape(k), EscapedItems(v.items));
    }
  }

  lemma PairTextsAppend(a: seq<(string, string)>, b: seq<(string, string)>)
    ensures PairTexts(a + b) == PairTexts(a) + PairTexts(b)
  {
  }

  lemma {:induction false} EntriesAsPairs(d: Dict<Value>)
    ensures Entries(d) == [] <==> QueryPairs(d) == []
    ensures Join(Entries(d), "&") == Join(PairTexts(QueryPairs(d)), "&")
  {
    if d != [] {
      var e := Entry(d[0].0, d[0].1);
      var a := EntryPairs(d[0].0, d[0].1);
      var b := QueryPairs(d[1..]);
      var rest := Entries(d[1..]);
      EntriesAsPairs(d[1..]);
      EntryAsPairs(d[0].0, d[0].1);
      assert Entries(d) == (if e.Some? then [e.value] else []) + rest;
      assert QueryPairs(d) == a + b;
      PairTextsAppend(a, b);
      if e.None? {
        assert a + b == b;
        assert Entries(d) == rest;
      } else if b == [] {
        assert a + b == a;
        assert Entries(d) == [e.value];
      } else {
        JoinAppend(PairTexts(a), PairTexts(b), "&");
        assert Join([e.value] + rest, "&") == e.value + "&" + Join(rest, "&") by {
          assert ([e.value] + rest)[1..] == rest;
        }
      }
    }
  }

  /** The query string is the `key=value` texts of the escaped pairs joined with `&`. */
  lemma QueryAsPairs(d: Dict<Value>)
    ensures QueryParamsToString(d) == Join(PairTexts(QueryPairs(d)), "&")
  {
    EntriesAsPairs(d);
  }

  /** Reads a query string back into `(key, value)` pairs without decoding them. */
  function ParseQuery(q: string): seq<(string, string)> {
    if q == "" then []
    else
      var pieces := Split(q, '&');
      seq(|pieces|, i requires 0 <= i < |pieces| => ParsePair(pieces[i]))
  }

  function ParsePair(piece: string): (string, string) {
    var kv := Split(piece, '=');
    (kv[0], if |kv| > 1 then kv[1] else "")
  }

  /** Neither component of any pair holds anything but unreserved characters and `%`. */
  predicate AllEscaped(ps: seq<(string, string)>) {
    forall i :: 0 <= i < |ps| ==> IsEscapedText(ps[i].0) && IsEscapedText(ps[i].1)
  }

  lemma EscapedItemsEscaped(items: seq<Value>)
    ensures forall i :: 0 <= i < |EscapedItems(items)| ==> IsEscapedText(EscapedItems(items)[i])
  {
    var es := EscapedItems(items);
    forall i | 0 <= i < |es| ensures IsEscapedText(es[i]) {
      assert es[i] in multiset(EscapedValues(items));
      var j :| 0 <= j < |items| && es[i] == EscapedValues(items)[j];
      UriEscapeAlphabet(ToStr(items[j]));
    }
  }

  lemma EntryPairsEscaped(k: string, v: Value)
    ensures AllEscaped(EntryPairs(k, v))
  {
    UriEscapeAlphabet(k);
    if !Nullish(v) && UriEscape(k) != "" {
      if v.Arr? {
        EscapedItemsEscaped(v.items);
      } else {
        UriEscapeAlphabet(ToStr(v));
      }
    }
  }

  lemma AllEscapedAppend(a: seq<(string, string)>, b: seq<(string, string)>)
    requires AllEscaped(a) && AllEscaped(b)
    ensures AllEscaped(a + b)
  {
    assert forall i :: 0 <= i < |a + b| ==> (a + b)[i] == if i < |a| then a[i] else b[i - |a|];
  }

  /** Every key and value in the pairs is escaped text: no `&`, no `=`. */
  lemma {:induction false} QueryPairsEscaped(d: Dict<Value>)
    ensures AllEscaped(QueryPairs(d))
  {
    if d != [] {
      QueryPairsEscaped(d[1..]);
      EntryPairsEscaped(d[0].0, d[0].1);
      AllEscapedAppend(EntryPairs(d[0].0, d[0].1), QueryPairs(d[1..]));
    }
  }

  lemma ParsePairText(p: (string, string))
    requires IsEscapedText(p.0) && IsEscapedText(p.1)
    ensures ParsePair(PairText(p)) == p
  {
    assert '=' !in p.0 && '=' !in p.1;
    SplitAtFirst(p.0, '=', p.1);
    SplitNoSeparator(p.1, '=');
    assert PairText(p) == p.0 + ['='] + p.1;
  }

  lemma {:induction false} JoinNonEmpty(xs: seq<string>, sep: string)
    requires xs != [] && xs[0] != ""
    ensures Join(xs, sep) != ""
  {
    if |xs| > 1 {
      assert Join(xs, sep) == xs[0] + (sep + Join(xs[1..], sep));
    }
  }

  lemma ParseJoinedPairs(ps: seq<(string, string)>)
    requires ps != [] && AllEscaped(ps)
    ensures ParseQuery(Join(PairTexts(ps), "&")) == ps
  {
    var texts := PairTexts(ps);
    forall i | 0 <= i < |texts| ensures '&' !in texts[i] {
      assert '&' !in ps[i].0 && '&' !in ps[i].1;
    }
    SplitJoin(texts, '&');
    JoinNonEmpty(texts, "&");
    forall i | 0 <= i < |ps| ensures ParsePair(texts[i]) == ps[i] {
      ParsePairText(ps[i]);
    }
  }

  /**
   * Splitting the query string on `&` and each piece on its `=` gives back
   * exactly the escaped pairs, in order: nothing is lost or run together.
   */
  lemma QueryRoundTrip(d: Dict<Value>)
    ensures ParseQuery(QueryParamsToString(d)) == QueryPairs(d)
  {
    QueryAsPairs(d);
    QueryPairsEscaped(d);
    if QueryPairs(d) != [] {
      ParseJoinedPairs(QueryPairs(d));
    }
  }

  lemma EntryPairsPresent(k: string, v: Value)
    requires !Nullish(v) && k != ""
    ensures EntryPairs(k, v) != [] && EntryPairs(k, v)[0].0 == UriEscape(k)
  {
    UriEscapeEmpty(k);
  }

  /** A property whose value is not null or undefined and whose key is not empty is written. */
  lemma {:induction false} QueryKeys(d: Dict<Value>, k: string, v: Value)
    requires (k, v) in d && !Nullish(v) && k != ""
    ensures exists i :: 0 <= i < |QueryPairs(d)| && QueryPairs(d)[i].0 == UriEscape(k)
  {
    var a := EntryPairs(d[0].0, d[0].1);
    var b := QueryPairs(d[1..]);
    assert QueryPairs(d) == a + b;
    if d[0] == (k, v) {
      EntryPairsPresent(k, v);
      assert (a + b)[0] == a[0];
    } else {
      assert (k, v) in d[1..];
      QueryKeys(d[1..], k, v);
      var i :| 0 <= i < |b| && b[i].0 == UriEscape(k);
      assert (a + b)[|a| + i] == b[i];
    }
  }

  /** `key` is the escaped key of a property of `d` with a value and a non-empty key. */
  ghost predicate FromProperty(d: Dict<Value>, key: string) {
    exists k, v :: (k, v) in d && !Nullish(v) && k != "" && key == UriEscape(k)
  }

  lemma FromFirstProperty(d: Dict<Value>, key: string)
    requires d != [] && !Nullish(d[0].1) && d[0].0 != "" && key == UriEscape(d[0].0)
    ensures FromProperty(d, key)
  {
    assert d[0] in d;
  }

  lemma FromLaterProperty(d: Dict<Value>, key: string)
    requires d != [] && FromProperty(d[1..], key)
    ensures FromProperty(d, key)
  {
    var k, v :| (k, v) in d[1..] && !Nullish(v) && k != "" && key == UriEscape(k);
    assert (k, v) in d;
  }

  /** Every written pair comes from a property with a value and a non-empty key. */
  lemma {:induction false} QueryPairsFromProperties(d: Dict<Value>)
    ensures forall i :: 0 <= i < |QueryPairs(d)| ==> FromProperty(d, QueryPairs(d)[i].0)
  {
    if d == [] {
      assert QueryPairs(d) == [];
    } else {
      QueryPairsFromProperties(d[1..]);
      var a: seq<(string, string)> := EntryPairs(d[0].0, d[0].1);
      var b: seq<(string, string)> := QueryPairs(d[1..]);
      assert QueryPairs(d) == a + b;
      forall i | 0 <= i < |a + b|
        ensures FromProperty(d, (a + b)[i].0)
      {
        if i < |a| {
          UriEscapeEmpty(d[0].0);
          assert (a + b)[i] == a[i];
          FromFirstProperty(d, a[i].0);
        } else {
          assert (a + b)[i] == b[i - |a|];
          FromLaterProperty(d, b[i - |a|].0);
        }
      }
    }
  }
}
