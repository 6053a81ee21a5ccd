/**
 * Grouping a list by a key into a JavaScript object, `if (!groups[k]) groups[k] = ...`
 * inside a `forEach`: the object's keys come out in the order they were first
 * inserted (none of the keys here is an array index), and each group holds the
 * items with its key, in list order.
 */
module Grouping {
  import opened Sorting

  ghost predicate Distinct<K>(ks: seq<K>) {
    forall i, j :: 0 <= i < j < |ks| ==> ks[i] != ks[j]
  }

  /** The items of s whose key is k, in list order. */
  function Matching<T, K(==)>(s: seq<T>, key: T -> K, k: K): (g: seq<T>)
    ensures |g| <= |s|
    ensures forall i :: 0 <= i < |g| ==> key(g[i]) == k
  {
    if s == [] then []
    else Matching(s[..|s| - 1], key, k) + (if key(s[|s| - 1]) == k then [s[|s| - 1]] else [])
  }

  /** A group holds only items of the list. */
  lemma {:induction false} MatchingFrom<T, K>(s: seq<T>, key: T -> K, k: K)
    ensures forall x :: x in Matching(s, key, k) ==> x in s
  {
    if s != [] {
      var p := s[..|s| - 1];
      MatchingFrom(p, key, k);
      forall x | x in Matching(s, key, k) ensures x in s {
        if x in Matching(p, key, k) {
          assert x in p;
          var j :| 0 <= j < |p| && p[j] == x;
          assert s[j] == x;
        }
      }
    }
  }

  /** The distinct keys of s in order of first appearance. */
  function KeysOf<T, K(==)>(s: seq<T>, key: T -> K): (ks: seq<K>)
    ensures Distinct(ks)
    ensures forall i :: 0 <= i < |s| ==> key(s[i]) in ks
    ensures |ks| <= |s|
  {
    if s == [] then []
    else
      var ks := KeysOf(s[..|s| - 1], key);
      var k := key(s[|s| - 1]);
      assert forall i :: 0 <= i < |s| - 1 ==> s[i] == s[..|s| - 1][i];
      if k in ks then ks else ks + [k]
  }

  /** One more item: its key joins the keys if new. */
  lemma KeysOfSnoc<T, K>(p: seq<T>, x: T, key: T -> K)
    ensures KeysOf(p + [x], key)
         == if key(x) in KeysOf(p, key) then KeysOf(p, key) else KeysOf(p, key) + [key(x)]
  {
    assert (p + [x])[..|p|] == p;
  }

  /** A loop over `list` that started after `before` has seen one more item. */
  lemma TakeOneMore<T>(before: seq<T>, list: seq<T>, i: int)
    requires 0 <= i < |list|
    ensures before + list[..i + 1] == (before + list[..i]) + [list[i]]
  {
    PrefixStep(list, i);
  }

  /** One more item joins the group of its own key and leaves every other group as it was. */
  lemma MatchingSnoc<T, K>(p: seq<T>, x: T, key: T -> K, k: K)
    ensures Matching(p + [x], key, k) == Matching(p, key, k) + (if key(x) == k then [x] else [])
  {
    assert (p + [x])[..|p|] == p;
  }

  lemma SplitLast<T>(a: seq<T>, b: seq<T>)
    requires b != []
    ensures b == b[..|b| - 1] + [b[|b| - 1]]
    ensures a + b == (a + b[..|b| - 1]) + [b[|b| - 1]]
  {
  }

  /** The groups as a dictionary: each key that occurs, mapped to its items. */
  function GroupsOf<T, K(==)>(s: seq<T>, key: T -> K): map<K, seq<T>> {
    map k | k in KeysOf(s, key) :: Matching(s, key, k)
  }

  /** What a grouping loop holds after the items `done`: their keys in order, and each key's group. */
  ghost predicate GroupedSoFar<T, K>(done: seq<T>, key: T -> K, groups: map<K, seq<T>>, order: seq<K>) {
    && order == KeysOf(done, key)
    && (forall k :: k in order ==> k in groups)
    && (forall k :: k in groups ==> k in order && groups[k] == Matching(done, key, k))
  }

  /** `if (!groups[k]) groups[k] = []; groups[k].push(x)` for the item's key k. */
  function AddToGroup<T, K>(groups: map<K, seq<T>>, x: T, key: T -> K): (r: map<K, seq<T>>)
    ensures r.Keys == groups.Keys + {key(x)}
  {
    var k := key(x);
    var created := if k in groups then groups else groups[k := []];
    created[k := created[k] + [x]]
  }

  /** One loop step: the item's key joins the order on first sight, and the item joins its group. */
  lemma GroupStep<T, K>(done: seq<T>, x: T, key: T -> K, groups: map<K, seq<T>>, order: seq<K>)
    requires GroupedSoFar(done, key, groups, order)
    ensures GroupedSoFar(done + [x], key, AddToGroup(groups, x, key), if key(x) in groups then order else order + [key(x)])
  {
    var k := key(x);
    var groups', order' := AddToGroup(groups, x, key), if k in groups then order else order + [k];
    KeysOfSnoc(done, x, key);
    assert (k in groups) == (k in order);
    assert order' == KeysOf(done + [x], key);
    assert forall k' :: k' in order' <==> k' in groups';
    forall k' | k' in groups' ensures groups'[k'] == Matching(done + [x], key, k') {
      GroupAfterStep(done, x, key, groups, order, k');
    }
    Grouped(done + [x], key, groups', order');
  }

  lemma Grouped<T, K>(done: seq<T>, key: T -> K, groups: map<K, seq<T>>, order: seq<K>)
    requires order == KeysOf(done, key)
    requires forall k :: k in order <==> k in groups
    requires forall k :: k in groups ==> groups[k] == Matching(done, key, k)
    ensures GroupedSoFar(done, key, groups, order)
  {
  }

  lemma GroupAfterStep<T, K>(done: seq<T>, x: T, key: T -> K, groups: map<K, seq<T>>, order: seq<K>, k': K)
    requires GroupedSoFar(done, key, groups, order)
    requires k' in groups || k' == key(x)
    ensures AddToGroup(groups, x, key)[k'] == Matching(done + [x], key, k')
  {
    MatchingSnoc(done, x, key, k');
    if k' == key(x) && k' !in groups {
      MatchingEmpty(done, key, k');
    }
  }

  /** A loop over s has seen one more item. */
  lemma PrefixStep<T>(s: seq<T>, i: int)
    requires 0 <= i < |s|
    ensures s[..i + 1] == s[..i] + [s[i]]
  {
  }

  /** When the loop has seen every item, its dictionary is GroupsOf. */
  lemma GroupedAll<T, K>(s: seq<T>, key: T -> K, groups: map<K, seq<T>>, order: seq<K>)
    requires GroupedSoFar(s, key, groups, order)
    ensures groups == GroupsOf(s, key)
  {
  }

  /** A key has a non-empty group exactly when some item carries it. */
  lemma {:induction false} MatchingEmpty<T, K>(s: seq<T>, key: T -> K, k: K)
    ensures Matching(s, key, k) == [] <==> k !in KeysOf(s, key)
  {
    if s != [] {
      MatchingEmpty(s[..|s| - 1], key, k);
    }
  }

  /** Every item lands in the group of its own key (and, by Matching's contract, in no other). */
  lemma {:induction false} InOwnGroup<T, K>(s: seq<T>, key: T -> K, i: nat)
    requires i < |s|
    ensures s[i] in Matching(s, key, key(s[i]))
  {
    var p := s[..|s| - 1];
    if i < |s| - 1 {
      InOwnGroup(p, key, i);
      assert p[i] == s[i];
    }
  }

  /** A group starts with the first item of the list that has its key. */
  lemma {:induction false} GroupHead<T, K>(s: seq<T>, key: T -> K, i: nat)
    requires i < |s|
    requires forall j :: 0 <= j < i ==> key(s[j]) != key(s[i])
    ensures Matching(s, key, key(s[i])) != []
    ensures Matching(s, key, key(s[i]))[0] == s[i]
  {
    var p, k := s[..|s| - 1], key(s[i]);
    if i < |s| - 1 {
      assert p[i] == s[i];
      GroupHead(p, key, i);
    } else {
      assert forall j :: 0 <= j < |p| ==> p[j] == s[j];
      MatchingNone(p, key, k);
    }
  }

  lemma {:induction false} MatchingNone<T, K>(s: seq<T>, key: T -> K, k: K)
    requires forall j :: 0 <= j < |s| ==> key(s[j]) != k
    ensures Matching(s, key, k) == []
  {
    if s != [] {
      MatchingNone(s[..|s| - 1], key, k);
    }
  }

  /** Grouping a concatenation: the first list's items come first, each part in its own order. */
  lemma {:induction false} MatchingAppend<T, K>(a: seq<T>, b: seq<T>, key: T -> K, k: K)
    ensures Matching(a + b, key, k) == Matching(a, key, k) + Matching(b, key, k)
    decreases |b|
  {
    if b == [] {
      assert a + b == a;
    } else {
      var b', y := b[..|b| - 1], b[|b| - 1];
      var tail := if key(y) == k then [y] else [];
      MatchingAppend(a, b', key, k);
      SplitLast(a, b);
      MatchingSnoc(a + b', y, key, k);
      MatchingSnoc(b', y, key, k);
      assert Matching(a + b, key, k) == (Matching(a, key, k) + Matching(b', key, k)) + tail;
    }
  }

  /**
   * Grouping a concatenation a + b keeps a's items ahead of b's within each
   * group: when every item of a satisfies inA and none of b does, an item
   * satisfying inA is preceded only by such items.
   */
  lemma FirstPartFirst<T, K>(a: seq<T>, b: seq<T>, key: T -> K, k: K, inA: T -> bool, i: int, j: int)
    requires forall x :: x in a ==> inA(x)
    requires forall x :: x in b ==> !inA(x)
    requires 0 <= i < j < |Matching(a + b, key, k)|
    requires inA(Matching(a + b, key, k)[j])
    ensures inA(Matching(a + b, key, k)[i])
  {
    var m1, m2 := Matching(a, key, k), Matching(b, key, k);
    MatchingAppend(a, b, key, k);
    MatchingFrom(a, key, k);
    MatchingFrom(b, key, k);
    var g := m1 + m2;
    forall q | |m1| <= q < |g| ensures !inA(g[q]) {
      assert g[q] == m2[q - |m1|];
    }
    assert g[i] == m1[i];
  }

  /** The sum of f over each group in turn, for the keys ks. */
  function GroupSum<T, K(==)>(ks: seq<K>, s: seq<T>, key: T -> K, f: T -> real): real {
    if ks == [] then 0.0
    else GroupSum(ks[..|ks| - 1], s, key, f) + SumOf(Matching(s, key, ks[|ks| - 1]), f)
  }

  lemma {:induction false} GroupSumAppendItem<T, K>(ks: seq<K>, p: seq<T>, x: T, key: T -> K, f: T -> real)
    requires Distinct(ks)
    ensures GroupSum(ks, p + [x], key, f)
         == GroupSum(ks, p, key, f) + (if key(x) in ks then f(x) else 0.0)
  {
    assert (p + [x])[..|p|] == p;
    if ks != [] {
      var init, k := ks[..|ks| - 1], ks[|ks| - 1];
      assert ks == init + [k];
      GroupSumAppendItem(init, p, x, key, f);
      var m := Matching(p, key, k);
      if key(x) == k {
        assert Matching(p + [x], key, k) == m + [x];
        assert (m + [x])[..|m|] == m;
      } else {
        assert Matching(p + [x], key, k) == m + [];
        assert m + [] == m;
      }
    }
  }

  /** Summing group by group over all keys gives the sum over the whole list. */
  lemma {:induction false} PartitionSum<T, K>(s: seq<T>, key: T -> K, f: T -> real)
    ensures GroupSum(KeysOf(s, key), s, key, f) == SumOf(s, f)
  {
    if s != [] {
      var p, x := s[..|s| - 1], s[|s| - 1];
      var ks := KeysOf(p, key);
      assert s == p + [x];
      SumOfSnoc(p, x, f);
      PartitionSum(p, key, f);
      GroupSumAppendItem(ks, p, x, key, f);
      KeysOfSnoc(p, x, key);
      if key(x) !in ks {
        NewGroupSum(p, x, key, f);
      }
    }
  }

  /** An item with a new key opens a group of its own, which adds just that item to the sum. */
  lemma NewGroupSum<T, K>(p: seq<T>, x: T, key: T -> K, f: T -> real)
    requires key(x) !in KeysOf(p, key)
    ensures GroupSum(KeysOf(p, key) + [key(x)], p + [x], key, f) == GroupSum(KeysOf(p, key), p + [x], key, f) + f(x)
  {
    var ks, kx := KeysOf(p, key), key(x);
    var ks' := ks + [kx];
    assert ks'[..|ks'| - 1] == ks;
    KeysOfSnoc(p, x, key);
    MatchingEmpty(p, key, kx);
    MatchingSnoc(p, x, key, kx);
    assert Matching(p + [x], key, kx) == [x];
    SumOfSnoc([], x, f);
    assert [] + [x] == [x];
  }
}
