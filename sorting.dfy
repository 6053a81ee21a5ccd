/**
 * `Array.prototype.sort` with a numeric comparator, as the pages use it: a stable
 * sort (required of every engine since ECMAScript 2019) on an integer sort key,
 * and the sums (`reduce`) taken over the results.
 */
module Sorting {

  /** Ascending by key: the comparator `(a, b) => key(a) - key(b)` is never positive on adjacent pairs. */
  ghost predicate SortedBy<T>(s: seq<T>, key: T -> int) {
    forall i, j :: 0 <= i < j < |s| ==> key(s[i]) <= key(s[j])
  }

  /** Insert x after the leading elements whose key is smaller than its own. */
  function Insert<T>(x: T, s: seq<T>, key: T -> int): (r: seq<T>)
    ensures multiset(r) == multiset(s) + multiset{x}
    ensures |r| == |s| + 1
    ensures r[0] == x || (s != [] && r[0] == s[0])
  {
    if s == [] || key(x) <= key(s[0]) then [x] + s
    else
      assert s == [s[0]] + s[1..];
      [s[0]] + Insert(x, s[1..], key)
  }

  lemma {:induction false} InsertSorted<T>(x: T, s: seq<T>, key: T -> int)
    requires SortedBy(s, key)
    ensures SortedBy(Insert(x, s, key), key)
  {
    if !(s == [] || key(x) <= key(s[0])) {
      var rest := Insert(x, s[1..], key);
      InsertSorted(x, s[1..], key);
      var r := [s[0]] + rest;
      forall i, j | 0 <= i < j < |r| ensures key(r[i]) <= key(r[j]) {
        if i == 0 {
          assert r[j] == rest[j - 1];
          assert key(rest[0]) <= key(rest[j - 1]);
        } else {
          assert r[i] == rest[i - 1] && r[j] == rest[j - 1];
        }
      }
    }
  }

  /** A stable insertion sort, ascending by key. */
  function SortBy<T>(s: seq<T>, key: T -> int): (r: seq<T>)
    ensures SortedBy(r, key)
    ensures multiset(r) == multiset(s)
    ensures |r| == |s|
  {
    if s == [] then []
    else
      var rest := SortBy(s[1..], key);
      InsertSorted(s[0], rest, key);
      assert s == [s[0]] + s[1..];
      Insert(s[0], rest, key)
  }

  /** The elements whose key is v, in their order of appearance. */
  function WithKey<T>(s: seq<T>, key: T -> int, v: int): seq<T> {
    if s == [] then []
    else (if key(s[0]) == v then [s[0]] else []) + WithKey(s[1..], key, v)
  }

  lemma {:induction false} InsertKeepsTies<T>(x: T, s: seq<T>, key: T -> int, v: int)
    ensures WithKey(Insert(x, s, key), key, v)
         == (if key(x) == v then [x] else []) + WithKey(s, key, v)
  {
    var px := if key(x) == v then [x] else [];
    if s == [] || key(x) <= key(s[0]) {
      var r := [x] + s;
      assert r[0] == x && r[1..] == s;
      assert WithKey(r, key, v) == px + WithKey(s, key, v);
    } else {
      var rest := Insert(x, s[1..], key);
      var r := [s[0]] + rest;
      var p0 := if key(s[0]) == v then [s[0]] else [];
      InsertKeepsTies(x, s[1..], key, v);
      assert r[0] == s[0] && r[1..] == rest;
      assert WithKey(r, key, v) == p0 + (px + WithKey(s[1..], key, v));
      assert WithKey(s, key, v) == p0 + WithKey(s[1..], key, v);
      assert p0 == [] || px == [];
    }
  }

  /** Stability: elements with equal keys keep their input order. */
  lemma {:induction false} SortByIsStable<T>(s: seq<T>, key: T -> int, v: int)
    ensures WithKey(SortBy(s, key), key, v) == WithKey(s, key, v)
  {
    if s != [] {
      SortByIsStable(s[1..], key, v);
      InsertKeepsTies(s[0], SortBy(s[1..], key), key, v);
    }
  }

  /**
   * In a sorted list, an element with a copy left out of the first n has a key
   * no smaller than any element among the first n.
   */
  lemma OmittedComeLater<T>(s: seq<T>, n: nat, t: T, x: T, key: T -> int)
    requires n <= |s| && SortedBy(s, key)
    requires multiset(s[..n])[t] < multiset(s)[t]
    requires x in s[..n]
    ensures key(x) <= key(t)
  {
    assert s == s[..n] + s[n..];
    assert t in multiset(s[n..]);
    var j :| n <= j < |s| && s[j] == t;
    var i :| 0 <= i < n && s[i] == x;
  }

  /**
   * A reordering of the images f(k) of a list of keys holds the image of every
   * key, and nothing else; when f's results carry their key, each element is
   * the image of its own key.
   */
  lemma ImagesReordered<K, B>(ks: seq<K>, bs: seq<B>, chart: seq<B>, f: K -> B, name: B -> K)
    requires |bs| == |ks| && forall i :: 0 <= i < |ks| ==> bs[i] == f(ks[i])
    requires forall k :: name(f(k)) == k
    requires multiset(chart) == multiset(bs)
    ensures forall k :: k in ks ==> f(k) in chart
    ensures forall b :: b in chart ==> name(b) in ks && b == f(name(b))
  {
    forall k | k in ks ensures f(k) in chart {
      var p :| 0 <= p < |ks| && ks[p] == k;
      assert bs[p] in multiset(bs);
    }
    forall b | b in chart ensures name(b) in ks && b == f(name(b)) {
      assert b in multiset(bs);
      var p :| 0 <= p < |bs| && bs[p] == b;
      assert name(b) == ks[p];
    }
  }

  /** A prefix holds no element more often than the whole list. */
  lemma PrefixIncluded<T>(s: seq<T>, n: nat)
    requires n <= |s|
    ensures multiset(s[..n]) <= multiset(s)
  {
    assert s == s[..n] + s[n..];
  }

  /** `s.reduce((sum, x) => sum + f(x), 0)`. */
  function SumOf<T>(s: seq<T>, f: T -> real): real {
    if s == [] then 0.0 else SumOf(s[..|s| - 1], f) + f(s[|s| - 1])
  }

  lemma SumOfSnoc<T>(s: seq<T>, x: T, f: T -> real)
    ensures SumOf(s + [x], f) == SumOf(s, f) + f(x)
  {
    assert (s + [x])[..|s|] == s;
  }

  lemma {:induction false} SumOfAppend<T>(a: seq<T>, b: seq<T>, f: T -> real)
    ensures SumOf(a + b, f) == SumOf(a, f) + SumOf(b, f)
    decreases |b|
  {
    if b == [] {
      assert a + b == a;
    } else {
      SumOfAppend(a, b[..|b| - 1], f);
      assert (a + b)[..|a + b| - 1] == a + b[..|b| - 1];
    }
  }

  lemma SumOfCons<T>(x: T, s: seq<T>, f: T -> real)
    ensures SumOf([x] + s, f) == f(x) + SumOf(s, f)
  {
    SumOfAppend([x], s, f);
    assert [x][..0] == [];
  }

  /** A list holds the element at p once more than the list without it. */
  lemma MultisetSplit<T>(s: seq<T>, p: nat)
    requires p < |s|
    ensures multiset(s) == multiset(s[..p] + s[p + 1..]) + multiset{s[p]}
  {
    assert s == s[..p] + [s[p]] + s[p + 1..];
    assert multiset(s[..p] + s[p + 1..]) == multiset(s[..p]) + multiset(s[p + 1..]);
  }

  /** Removing one occurrence of the same element from two permutations leaves permutations. */
  lemma RemoveOne<T>(s: seq<T>, p: nat, t: seq<T>)
    requires p < |s| && t != [] && s[p] == t[0]
    requires multiset(s) == multiset(t)
    ensures multiset(s[..p] + s[p + 1..]) == multiset(t[1..])
  {
    var s', y := s[..p] + s[p + 1..], t[0];
    MultisetSplit(s, p);
    MultisetSplit(t, 0);
    assert t[..0] + t[1..] == t[1..];
    MultisetCancel(multiset(s'), multiset(t[1..]), y);
  }

  lemma MultisetCancel<T>(a: multiset<T>, b: multiset<T>, y: T)
    requires a + multiset{y} == b + multiset{y}
    ensures a == b
  {
    forall z ensures a[z] == b[z] {
      assert (a + multiset{y})[z] == (b + multiset{y})[z];
    }
  }

  /** A sum does not depend on the order of its terms. */
  lemma {:induction false} SumOfPermutation<T>(s: seq<T>, t: seq<T>, f: T -> real)
    requires multiset(s) == multiset(t)
    ensures SumOf(s, f) == SumOf(t, f)
    decreases |s|
  {
    if s != [] {
      var x := s[0];
      assert x in multiset(t);
      var i :| 0 <= i < |t| && t[i] == x;
      var t' := t[..i] + t[i + 1..];
      assert t == t[..i] + [x] + t[i + 1..];
      RemoveOne(t, i, s);
      SumOfPermutation(s[1..], t', f);
      assert s == [x] + s[1..];
      SumOfCons(x, s[1..], f);
      SumOfAppend(t[..i] + [x], t[i + 1..], f);
      SumOfAppend(t[..i], [x], f);
      SumOfAppend(t[..i], t[i + 1..], f);
      assert [x][..0] == [];
    }
  }

  /** No two elements share an image under f. */
  ghost predicate DistinctBy<T, K>(s: seq<T>, f: T -> K) {
    forall i, j :: 0 <= i < j < |s| ==> f(s[i]) != f(s[j])
  }

  lemma DistinctWithout<T, K>(s: seq<T>, p: nat, f: T -> K)
    requires p < |s| && DistinctBy(s, f)
    ensures DistinctBy(s[..p] + s[p + 1..], f)
    ensures forall z :: z in s[..p] + s[p + 1..] ==> f(z) != f(s[p])
  {
    var s' := s[..p] + s[p + 1..];
    forall i | 0 <= i < |s'| ensures s'[i] == s[if i < p then i else i + 1] {
    }
  }

  /** Reordering keeps the images distinct. */
  lemma {:induction false} PermutationKeepsDistinct<T, K>(s: seq<T>, t: seq<T>, f: T -> K)
    requires multiset(s) == multiset(t)
    requires DistinctBy(s, f)
    ensures DistinctBy(t, f)
    decreases |t|
  {
    if t != [] {
      var y := t[0];
      assert y in multiset(s);
      var p :| 0 <= p < |s| && s[p] == y;
      var s' := s[..p] + s[p + 1..];
      RemoveOne(s, p, t);
      DistinctWithout(s, p, f);
      PermutationKeepsDistinct(s', t[1..], f);
      forall j | 0 < j < |t| ensures f(t[0]) != f(t[j]) {
        assert t[j] in multiset(s');
        var q :| 0 <= q < |s'| && s'[q] == t[j];
      }
    }
  }
}
