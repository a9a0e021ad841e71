/**
 * JavaScript's string order (`a < b`, and the default comparison of
 * `Array.prototype.sort`) and the sorts the signer performs with it.
 */
module Order {

  /** `a < b` on strings: lexicographic by character, a proper prefix first. */
  predicate Below(a: string, b: string) {
    if a == [] then b != []
    else if b == [] then false
    else a[0] < b[0] || (a[0] == b[0] && Below(a[1..], b[1..]))
  }

  predicate LessEq(a: string, b: string) {
    a == b || Below(a, b)
  }

  lemma {:induction false} BelowIrreflexive(a: string)
    ensures !Below(a, a)
  {
    if a != [] {
      BelowIrreflexive(a[1..]);
    }
  }

  lemma {:induction false} BelowTransitive(a: string, b: string, c: string)
    requires Below(a, b) && Below(b, c)
    ensures Below(a, c)
  {
    if a != [] && a[0] == b[0] && b[0] == c[0] {
      BelowTransitive(a[1..], b[1..], c[1..]);
    }
  }

  /** Any two different strings are ordered one way or the other. */
  lemma {:induction false} BelowTotal(a: string, b: string)
    requires a != b
    ensures Below(a, b) || Below(b, a)
  {
    if a != [] && b != [] && a[0] == b[0] {
      assert a == [a[0]] + a[1..] && b == [b[0]] + b[1..];
      BelowTotal(a[1..], b[1..]);
    }
  }

  lemma BelowAsymmetric(a: string, b: string)
    requires Below(a, b)
    ensures !Below(b, a)
  {
    if Below(b, a) {
      BelowTransitive(a, b, a);
      BelowIrreflexive(a);
    }
  }

  ghost predicate Sorted(s: seq<string>) {
    forall i, j :: 0 <= i < j < |s| ==> LessEq(s[i], s[j])
  }

  /** Places `x` before the first element above it. */
  function Insert(x: string, s: seq<string>): (r: seq<string>)
    requires Sorted(s)
    ensures Sorted(r)
    ensures multiset(r) == multiset(s) + multiset{x}
  {
    if s == [] then [x]
    else if Below(x, s[0]) then
      InsertFront(x, s);
      [x] + s
    else
      SortedTail(s);
      var t := Insert(x, s[1..]);
      InsertBack(x, s, t);
      [s[0]] + t
  }

  lemma SortedTail(s: seq<string>)
    requires Sorted(s) && s != []
    ensures Sorted(s[1..])
  {
    assert forall i :: 0 <= i < |s| - 1 ==> s[1..][i] == s[i + 1];
  }

  lemma InsertFront(x: string, s: seq<string>)
    requires Sorted(s) && s != [] && Below(x, s[0])
    ensures Sorted([x] + s) && multiset([x] + s) == multiset(s) + multiset{x}
  {
    forall j | 0 < j < |s| ensures Below(x, s[j]) {
      if s[0] != s[j] { BelowTransitive(x, s[0], s[j]); }
    }
    assert forall j :: 0 < j <= |s| ==> ([x] + s)[j] == s[j - 1];
  }

  lemma InsertBack(x: string, s: seq<string>, t: seq<string>)
    requires Sorted(s) && s != [] && !Below(x, s[0])
    requires Sorted(t) && multiset(t) == multiset(s[1..]) + multiset{x}
    ensures Sorted([s[0]] + t) && multiset([s[0]] + t) == multiset(s) + multiset{x}
  {
    assert s == [s[0]] + s[1..];
    assert LessEq(s[0], x) by {
      if s[0] != x { BelowTotal(s[0], x); }
    }
    forall j | 0 <= j < |t| ensures LessEq(s[0], t[j]) {
      assert t[j] in multiset(t);
      if t[j] != x {
        assert t[j] in multiset(s[1..]);
        var k :| 0 <= k < |s[1..]| && s[1..][k] == t[j];
        assert s[k + 1] == t[j];
      }
    }
    assert forall j :: 0 < j <= |t| ==> ([s[0]] + t)[j] == t[j - 1];
  }

  /** `s.sort()` with the default comparison: an insertion sort. */
  function SortStrings(s: seq<string>): (r: seq<string>)
    ensures Sorted(r)
    ensures multiset(r) == multiset(s)
  {
    if s == [] then []
    else
      assert s == [s[0]] + s[1..];
      Insert(s[0], SortStrings(s[1..]))
  }

  /** A sorted arrangement of a multiset of strings is unique. */
  lemma {:induction false} SortedUnique(a: seq<string>, b: seq<string>)
    requires Sorted(a) && Sorted(b)
    requires multiset(a) == multiset(b)
    ensures a == b
    decreases |a|
  {
    if a != [] {
      assert |b| == |multiset(b)| == |multiset(a)| == |a|;
      SortedLeast(b, a[0]);
      SortedLeast(a, b[0]);
      if a[0] != b[0] {
        BelowAsymmetric(a[0], b[0]);
      }
      TailMultiset(a);
      TailMultiset(b);
      SortedTail(a);
      SortedTail(b);
      SortedUnique(a[1..], b[1..]);
      assert a == [a[0]] + a[1..] && b == [b[0]] + b[1..];
    }
  }

  /** The first element of a sorted sequence is at or below each of its elements. */
  lemma SortedLeast(a: seq<string>, x: string)
    requires Sorted(a) && x in multiset(a)
    ensures a != [] && LessEq(a[0], x)
  {
    var i :| 0 <= i < |a| && a[i] == x;
  }

  lemma TailMultiset(a: seq<string>)
    requires a != []
    ensures multiset(a[1..]) == multiset(a) - multiset{a[0]}
  {
    assert a == [a[0]] + a[1..];
  }

  /** Sorting does not depend on the order in which the strings are given. */
  lemma SortIgnoresOrder(a: seq<string>, b: seq<string>)
    requires multiset(a) == multiset(b)
    ensures SortStrings(a) == SortStrings(b)
  {
    SortedUnique(SortStrings(a), SortStrings(b));
  }

  /** The strings of `s` that satisfy `p`, in order (`s.filter(p)`). */
  function Filter(s: seq<string>, p: string -> bool): (r: seq<string>)
    ensures forall y :: y in r ==> y in s && p(y)
    ensures Sorted(s) ==> Sorted(r)
  {
    if s == [] then []
    else
      var rest := Filter(s[1..], p);
      assert forall y :: y in rest ==> y in s[1..];
      assert Sorted(s) ==> forall y :: y in rest ==> LessEq(s[0], y);
      (if p(s[0]) then [s[0]] else []) + rest
  }

  lemma {:induction false} FilterKeeps(s: seq<string>, p: string -> bool, y: string)
    requires y in s && p(y)
    ensures y in Filter(s, p)
  {
    if s[0] != y {
      FilterKeeps(s[1..], p, y);
    }
  }

  lemma {:induction false} FilterSnoc(s: seq<string>, x: string, p: string -> bool)
    ensures Filter(s + [x], p) == Filter(s, p) + (if p(x) then [x] else [])
  {
    var tail := if p(x) then [x] else [];
    if s == [] {
      assert s + [x] == [x];
      assert Filter([x], p) == tail + Filter([], p);
    } else {
      var head := if p(s[0]) then [s[0]] else [];
      var t := s + [x];
      assert t[0] == s[0] && t[1..] == s[1..] + [x];
      FilterSnoc(s[1..], x, p);
      assert Filter(t, p) == head + Filter(s[1..] + [x], p);
      assert Filter(s, p) == head + Filter(s[1..], p);
      assert head + (Filter(s[1..], p) + tail) == (head + Filter(s[1..], p)) + tail;
    }
  }

  lemma {:induction false} FilterInsertFront(x: string, s: seq<string>, p: string -> bool)
    requires Sorted(s) && s != [] && Below(x, s[0])
    ensures Filter(Insert(x, s), p) == if p(x) then Insert(x, Filter(s, p)) else Filter(s, p)
  {
    var f := Filter(s, p);
    assert Insert(x, s) == [x] + s;
    assert ([x] + s)[1..] == s;
    assert Filter([x] + s, p) == (if p(x) then [x] else []) + f;
    if p(x) && f != [] {
      assert f[0] in s;
      assert LessEq(s[0], f[0]);
      if s[0] != f[0] { BelowTransitive(x, s[0], f[0]); }
      assert Insert(x, f) == [x] + f;
    }
  }

  lemma {:induction false} FilterInsertBack(x: string, s: seq<string>, p: string -> bool)
    requires Sorted(s) && s != [] && !Below(x, s[0])
    requires Filter(Insert(x, s[1..]), p) == if p(x) then Insert(x, Filter(s[1..], p)) else Filter(s[1..], p)
    ensures Filter(Insert(x, s), p) == if p(x) then Insert(x, Filter(s, p)) else Filter(s, p)
  {
    var t := Insert(x, s[1..]);
    var f' := Filter(s[1..], p);
    assert Insert(x, s) == [s[0]] + t;
    assert ([s[0]] + t)[1..] == t;
    assert Filter([s[0]] + t, p) == (if p(s[0]) then [s[0]] else []) + Filter(t, p);
    assert Filter(s, p) == (if p(s[0]) then [s[0]] else []) + f';
    assert Sorted(s[1..]);
    var f := Filter(s, p);
    if p(s[0]) && p(x) {
      assert f == [s[0]] + f';
      assert f[1..] == f';
      assert Sorted(f);
      assert Insert(x, f) == [s[0]] + Insert(x, f');
      assert Filter(Insert(x, s), p) == Insert(x, f);
    } else if p(x) {
      assert f == f';
      assert Filter(Insert(x, s), p) == Insert(x, f);
    } else if p(s[0]) {
      assert Filter(Insert(x, s), p) == f;
    } else {
      assert Filter(Insert(x, s), p) == f;
    }
  }

  lemma {:induction false} FilterInsert(x: string, s: seq<string>, p: string -> bool)
    requires Sorted(s)
    ensures Filter(Insert(x, s), p) == if p(x) then Insert(x, Filter(s, p)) else Filter(s, p)
  {
    if s == [] {
    } else if Below(x, s[0]) {
      FilterInsertFront(x, s, p);
    } else {
      FilterInsert(x, s[1..], p);
      FilterInsertBack(x, s, p);
    }
  }

  /** Filtering a sorted sequence gives the sorted filtered sequence. */
  lemma {:induction false} FilterSortCommute(xs: seq<string>, p: string -> bool)
    ensures Filter(SortStrings(xs), p) == SortStrings(Filter(xs, p))
  {
    if xs != [] {
      var sorted' := SortStrings(xs[1..]);
      var f' := Filter(xs[1..], p);
      FilterSortCommute(xs[1..], p);
      FilterInsert(xs[0], sorted', p);
      assert SortStrings(xs) == Insert(xs[0], sorted');
      var f := Filter(xs, p);
      if p(xs[0]) {
        assert f == [xs[0]] + f';
        assert f[1..] == f';
        assert SortStrings(f) == Insert(xs[0], SortStrings(f'));
      } else {
        assert f == f';
      }
    }
  }

  /** The sort keys of a sequence, in order. */
  function KeySeq<T>(s: seq<T>, key: T -> string): (r: seq<string>)
    ensures |r| == |s| && forall i :: 0 <= i < |s| ==> r[i] == key(s[i])
  {
    seq(|s|, i requires 0 <= i < |s| => key(s[i]))
  }

  lemma KeySeqSnoc<T>(s: seq<T>, x: T, key: T -> string)
    ensures KeySeq(s + [x], key) == KeySeq(s, key) + [key(x)]
  {
    var a, b := KeySeq(s + [x], key), KeySeq(s, key) + [key(x)];
    assert forall i :: 0 <= i < |a| ==> a[i] == b[i] by {
      forall i | 0 <= i < |a| ensures a[i] == b[i] {
        assert (s + [x])[i] == if i < |s| then s[i] else x;
      }
    }
  }

  lemma KeySeqLast<T>(s: seq<T>, key: T -> string)
    requires s != []
    ensures KeySeq(s, key) == KeySeq(s[..|s| - 1], key) + [key(s[|s| - 1])]
  {
    var a, b := KeySeq(s, key), KeySeq(s[..|s| - 1], key) + [key(s[|s| - 1])];
    assert forall i :: 0 <= i < |a| ==> a[i] == b[i];
  }

  /**
   * `s.sort((a, b) => key(a) < key(b) ? -1 : 1)`. That comparator never answers
   * "equal", so the order of elements with equal keys is left to the engine.
   */
  function InsertBy<T(==)>(x: T, s: seq<T>, key: T -> string): (r: seq<T>)
    ensures multiset(r) == multiset(s) + multiset{x}
  {
    if s == [] then [x]
    else if Below(key(x), key(s[0])) then [x] + s
    else
      assert s == [s[0]] + s[1..];
      [s[0]] + InsertBy(x, s[1..], key)
  }

  function SortBy<T(==)>(s: seq<T>, key: T -> string): (r: seq<T>)
    ensures multiset(r) == multiset(s)
  {
    if s == [] then []
    else
      assert s == [s[0]] + s[1..];
      InsertBy(s[0], SortBy(s[1..], key), key)
  }

  lemma {:induction false} KeysOfInsertBy<T>(x: T, s: seq<T>, key: T -> string)
    requires Sorted(KeySeq(s, key))
    ensures KeySeq(InsertBy(x, s, key), key) == Insert(key(x), KeySeq(s, key))
  {
    var ks := KeySeq(s, key);
    if s == [] {
      assert KeySeq([x], key) == [key(x)];
    } else if Below(key(x), key(s[0])) {
      KeySeqCons(x, s, key);
    } else {
      var rest := KeySeq(s[1..], key);
      assert ks[1..] == rest;
      assert Sorted(rest);
      KeysOfInsertBy(x, s[1..], key);
      KeySeqCons(s[0], InsertBy(x, s[1..], key), key);
      assert Insert(key(x), ks) == [ks[0]] + Insert(key(x), rest);
    }
  }

  lemma KeySeqCons<T>(y: T, s: seq<T>, key: T -> string)
    ensures KeySeq([y] + s, key) == [key(y)] + KeySeq(s, key)
  {
    var a, b := KeySeq([y] + s, key), [key(y)] + KeySeq(s, key);
    assert forall i :: 0 <= i < |a| ==> a[i] == b[i] by {
      forall i | 0 <= i < |a| ensures a[i] == b[i] {
        assert ([y] + s)[i] == if i == 0 then y else s[i - 1];
      }
    }
  }

  /** The keys of a keyed sort are the sorted keys. */
  lemma {:induction false} KeysOfSortBy<T>(s: seq<T>, key: T -> string)
    ensures KeySeq(SortBy(s, key), key) == SortStrings(KeySeq(s, key))
  {
    if s != [] {
      var y, t := s[0], s[1..];
      calc {
        KeySeq(SortBy(s, key), key);
        KeySeq(InsertBy(y, SortBy(t, key), key), key);
        { KeysOfSortBy(t, key); KeysOfInsertBy(y, SortBy(t, key), key); }
        Insert(key(y), SortStrings(KeySeq(t, key)));
        { SortStringsCons(key(y), KeySeq(t, key)); }
        SortStrings([key(y)] + KeySeq(t, key));
        { KeySeqCons(y, t, key); assert [y] + t == s; }
        SortStrings(KeySeq(s, key));
      }
    }
  }

  lemma SortStringsCons(y: string, t: seq<string>)
    ensures SortStrings([y] + t) == Insert(y, SortStrings(t))
  {
    assert ([y] + t)[0] == y && ([y] + t)[1..] == t;
  }
}
