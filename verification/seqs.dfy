/** The array operations the application leans on: `filter`, `findIndex`
    and `find` over a table whose records are identified by a key. */
module Seqs {

  datatype Option<+T> = None | Some(value: T)

  /** `s.filter(p)`: the elements of `s` that satisfy `p`, in their original order. */
  function Filter<T>(s: seq<T>, p: T -> bool): (r: seq<T>)
    ensures |r| <= |s|
    ensures forall i :: 0 <= i < |r| ==> r[i] in s && p(r[i])
    ensures forall i :: 0 <= i < |s| && p(s[i]) ==> s[i] in r
  {
    if s == [] then []
    else
      assert s == [s[0]] + s[1..];
      (if p(s[0]) then [s[0]] else []) + Filter(s[1..], p)
  }

  /** Filtering distributes over concatenation: together with the one-element
      case this pins the result down to "the kept elements, in order". */
  lemma {:induction false} FilterAppend<T>(a: seq<T>, b: seq<T>, p: T -> bool)
    ensures Filter(a + b, p) == Filter(a, p) + Filter(b, p)
  {
    if a == [] {
      assert a + b == b;
    } else {
      assert (a + b)[1..] == a[1..] + b;
      FilterAppend(a[1..], b, p);
    }
  }

  /** A test every element passes keeps the whole sequence. */
  lemma {:induction false} FilterKeepsAll<T>(s: seq<T>, p: T -> bool)
    requires forall i :: 0 <= i < |s| ==> p(s[i])
    ensures Filter(s, p) == s
  {
    if s != [] {
      FilterKeepsAll(s[1..], p);
    }
  }

  /** Two tests that agree on every element give the same filtered sequence. */
  lemma {:induction false} FilterSameTest<T>(s: seq<T>, p: T -> bool, q: T -> bool)
    requires forall i :: 0 <= i < |s| ==> p(s[i]) == q(s[i])
    ensures Filter(s, p) == Filter(s, q)
  {
    if s != [] {
      FilterSameTest(s[1..], p, q);
    }
  }

  /** `s.findIndex(x => key(x) == k)`: the first position whose key is `k`, or -1. */
  function IndexOf<T, K(==)>(s: seq<T>, key: T -> K, k: K): (r: int)
    ensures -1 <= r < |s|
    ensures r == -1 <==> forall i :: 0 <= i < |s| ==> key(s[i]) != k
    ensures 0 <= r ==> key(s[r]) == k && forall i :: 0 <= i < r ==> key(s[i]) != k
  {
    if s == [] then -1
    else if key(s[0]) == k then 0
    else
      var i := IndexOf(s[1..], key, k);
      if i == -1 then -1 else i + 1
  }

  /** `s.find(x => key(x) == k)`: the first record whose key is `k`, if any. */
  function Find<T, K(==)>(s: seq<T>, key: T -> K, k: K): (r: Option<T>)
    ensures r.None? <==> forall i :: 0 <= i < |s| ==> key(s[i]) != k
    ensures r.Some? ==> key(r.value) == k
    ensures r.Some? ==> exists i :: 0 <= i < |s| && s[i] == r.value && forall j :: 0 <= j < i ==> key(s[j]) != k
  {
    var i := IndexOf(s, key, k);
    if i == -1 then None else Some(s[i])
  }

  /** No two records of `s` share a key. */
  ghost predicate KeysDistinct<T, K>(s: seq<T>, key: T -> K) {
    forall i, j :: 0 <= i < j < |s| ==> key(s[i]) != key(s[j])
  }

  /** With distinct keys, looking a record's key up finds that very record. */
  lemma IndexOfDistinct<T, K>(s: seq<T>, key: T -> K, i: int)
    requires KeysDistinct(s, key) && 0 <= i < |s|
    ensures IndexOf(s, key, key(s[i])) == i
  {
  }

  /** Two tables with the same keys position by position agree on every lookup. */
  lemma {:induction false} IndexOfSameKeys<T, K>(s: seq<T>, t: seq<T>, key: T -> K, k: K)
    requires |s| == |t|
    requires forall i :: 0 <= i < |s| ==> key(s[i]) == key(t[i])
    ensures IndexOf(s, key, k) == IndexOf(t, key, k)
  {
    if s != [] && key(s[0]) != k {
      IndexOfSameKeys(s[1..], t[1..], key, k);
    }
  }

  /** A record appended under a key not yet present is the one a lookup of that key finds. */
  lemma IndexOfAppendFresh<T, K>(s: seq<T>, x: T, key: T -> K)
    requires forall i :: 0 <= i < |s| ==> key(s[i]) != key(x)
    ensures IndexOf(s + [x], key, key(x)) == |s|
  {
    assert (s + [x])[|s|] == x;
  }

  /** Appending a record under a fresh key keeps the keys distinct. */
  lemma AppendFreshKeepsDistinct<T, K>(s: seq<T>, x: T, key: T -> K)
    requires KeysDistinct(s, key)
    requires forall i :: 0 <= i < |s| ==> key(s[i]) != key(x)
    ensures KeysDistinct(s + [x], key)
  {
    forall i, j | 0 <= i < j < |s| + 1
      ensures key((s + [x])[i]) != key((s + [x])[j])
    {
      assert (s + [x])[i] == s[i];
      if j < |s| {
        assert (s + [x])[j] == s[j];
      }
    }
  }
}
