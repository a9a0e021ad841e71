/**
 * JavaScript plain objects (`Record<string, V>`): their own string keys in
 * insertion order, each key at most once. Assigning `o[k] = v` is `Put`, an
 * object spread `{ ...a, ...b }` is `Merge`.
 */
module Dicts {
  import opened Base

  type Dict<V> = seq<(string, V)>

  function Keys<V>(d: Dict<V>): (ks: seq<string>)
    ensures |ks| == |d|
  {
    if d == [] then [] else [d[0].0] + Keys(d[1..])
  }

  /** No key occurs twice, as in every JavaScript object. */
  predicate WellFormed<V>(d: Dict<V>) {
    d == [] || (d[0].0 !in Keys(d[1..]) && WellFormed(d[1..]))
  }

  predicate Has<V>(d: Dict<V>, k: string) {
    k in Keys(d)
  }

  /** `o[k]`, with `None` for a key the object does not have. */
  function Get<V>(d: Dict<V>, k: string): (r: Option<V>)
    ensures r.Some? <==> Has(d, k)
    ensures r.Some? ==> (k, r.value) in d
  {
    if d == [] then None
    else if d[0].0 == k then Some(d[0].1)
    else Get(d[1..], k)
  }

  /** `o[k] = v`: an existing key keeps its position, a new key goes last. */
  function Put<V>(d: Dict<V>, k: string, v: V): (r: Dict<V>)
    ensures Get(r, k) == Some(v)
    ensures forall k' :: k' != k ==> Get(r, k') == Get(d, k')
    ensures Keys(r) == if Has(d, k) then Keys(d) else Keys(d) + [k]
    ensures WellFormed(d) ==> WellFormed(r)
  {
    if d == [] then [(k, v)]
    else if d[0].0 == k then [(k, v)] + d[1..]
    else [d[0]] + Put(d[1..], k, v)
  }

  /** `{ ...a, ...b }`: the properties of `b`, assigned one by one onto a copy of `a`. */
  function Merge<V>(a: Dict<V>, b: Dict<V>): (r: Dict<V>)
    ensures WellFormed(a) ==> WellFormed(r)
    decreases |b|
  {
    if b == [] then a
    else Merge(Put(a, b[0].0, b[0].1), b[1..])
  }

  /** A spread takes each property from `b` when `b` has it and from `a` otherwise. */
  lemma {:induction false} MergeGet<V>(a: Dict<V>, b: Dict<V>, k: string)
    requires WellFormed(b)
    ensures Get(Merge(a, b), k) == if Has(b, k) then Get(b, k) else Get(a, k)
    decreases |b|
  {
    if b != [] {
      MergeGet(Put(a, b[0].0, b[0].1), b[1..], k);
    }
  }

  lemma {:induction false} KeysAt<V>(d: Dict<V>)
    ensures forall i :: 0 <= i < |d| ==> Keys(d)[i] == d[i].0
  {
    if d != [] {
      KeysAt(d[1..]);
      assert forall i :: 0 < i < |d| ==> Keys(d)[i] == Keys(d[1..])[i - 1];
    }
  }

  /** No string occurs twice. */
  predicate Distinct(s: seq<string>) {
    forall i, j :: 0 <= i < j < |s| ==> s[i] != s[j]
  }

  lemma {:induction false} WellFormedDistinct<V>(d: Dict<V>)
    requires WellFormed(d)
    ensures Distinct(Keys(d))
  {
    if d != [] {
      WellFormedDistinct(d[1..]);
      assert forall j :: 0 < j < |d| ==> Keys(d)[j] == Keys(d[1..])[j - 1];
    }
  }

  lemma FirstKeyUnique<V>(d: Dict<V>, i: nat)
    requires WellFormed(d) && 0 < i < |d|
    ensures d[0].0 != d[i].0 && WellFormed(d[1..])
  {
    KeysAt(d[1..]);
    assert Keys(d[1..])[i - 1] == d[i].0;
  }

  /** `o[k]` is the entry of the first occurrence of `k`. */
  lemma {:induction false} GetFirst<V>(d: Dict<V>, i: nat)
    requires i < |d| && forall j :: 0 <= j < i ==> d[j].0 != d[i].0
    ensures Get(d, d[i].0) == Some(d[i].1)
  {
    if i > 0 {
      GetFirst(d[1..], i - 1);
    }
  }

  /** An object whose keys are the first of some distinct names, in order, holds each entry under its name. */
  lemma GetByKeys<V>(d: Dict<V>, names: seq<string>)
    requires Distinct(names) && |d| <= |names| && forall i :: 0 <= i < |d| ==> d[i].0 == names[i]
    ensures forall i :: 0 <= i < |d| ==> Get(d, names[i]) == Some(d[i].1)
    ensures forall k :: k in names[|d|..] ==> Get(d, k) == None
  {
    forall i | 0 <= i < |d|
      ensures Get(d, names[i]) == Some(d[i].1)
    {
      GetFirst(d, i);
    }
    KeysAt(d);
    assert Keys(d) == names[..|d|];
  }

  /** Assigning a key the object does not have appends it. */
  lemma {:induction false} PutNew<V>(d: Dict<V>, k: string, v: V)
    requires !Has(d, k)
    ensures Put(d, k, v) == d + [(k, v)]
  {
    if d != [] {
      assert Keys(d) == [d[0].0] + Keys(d[1..]);
      PutNew(d[1..], k, v);
      assert d == [d[0]] + d[1..];
    }
  }

  lemma PutCons<V>(d: Dict<V>, k: string, v: V)
    requires d != [] && d[0].0 != k
    ensures Put(d, k, v) == [d[0]] + Put(d[1..], k, v)
  {
  }

  lemma SpliceCons<V>(d: Dict<V>, i: nat, x: (string, V))
    requires 0 < i < |d|
    ensures [d[0]] + (d[1..][..i - 1] + [x] + d[1..][i..]) == d[..i] + [x] + d[i + 1..]
  {
    assert [d[0]] + d[1..][..i - 1] == d[..i];
    assert d[1..][i..] == d[i + 1..];
  }

  /** Assigning an existing key replaces its entry where it stands. */
  lemma {:induction false} PutAt<V>(d: Dict<V>, i: nat, v: V)
    requires WellFormed(d) && i < |d|
    ensures Put(d, d[i].0, v) == d[..i] + [(d[i].0, v)] + d[i + 1..]
  {
    if i > 0 {
      FirstKeyUnique(d, i);
      PutAt(d[1..], i - 1, v);
      PutCons(d, d[i].0, v);
      SpliceCons(d, i, (d[i].0, v));
    }
  }
}
