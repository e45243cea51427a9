/** Sequence operations that stand for the document store's queries: a filter (`find`,
    `countDocuments`), the first match (`findOne`), reversal (a descending sort on an
    insertion-ordered key) and removal at a position. */
module Seqs {
  import opened Common

  function Filter<T>(s: seq<T>, p: T -> bool): (r: seq<T>)
    ensures |r| <= |s|
    ensures forall i :: 0 <= i < |r| ==> r[i] in s && p(r[i])
  {
    if s == [] then []
    else (if p(s[0]) then [s[0]] else []) + Filter(s[1..], p)
  }

  /** Every element that passes the filter is kept. */
  lemma {:induction false} FilterKeepsPassing<T>(s: seq<T>, p: T -> bool)
    ensures forall i :: 0 <= i < |s| && p(s[i]) ==> s[i] in Filter(s, p)
  {
    if s != [] {
      FilterKeepsPassing(s[1..], p);
      var head := if p(s[0]) then [s[0]] else [];
      assert Filter(s, p) == head + Filter(s[1..], p);
      assert forall i :: 1 <= i < |s| ==> s[i] == s[1..][i - 1];
    }
  }

  /** The first components of `g` are pairwise distinct. */
  ghost predicate DistinctKeys<K, V>(g: seq<(K, V)>) {
    forall i, j :: 0 <= i < j < |g| ==> g[i].0 != g[j].0
  }

  /** Putting a pair with a new key in front keeps the keys distinct. */
  lemma ConsDistinctKeys<K, V>(x: (K, V), rest: seq<(K, V)>)
    requires DistinctKeys(rest)
    requires forall i :: 0 <= i < |rest| ==> rest[i].0 != x.0
    ensures DistinctKeys([x] + rest)
  {
    var g := [x] + rest;
    forall i, j | 0 <= i < j < |g|
      ensures g[i].0 != g[j].0
    {
      assert g[j] == rest[j - 1];
      if i > 0 {
        assert g[i] == rest[i - 1];
      }
    }
  }

  /** The tail of a sequence without repetitions has none either, and lacks the head. */
  lemma DistinctTail<T>(s: seq<T>)
    requires s != [] && forall i, j :: 0 <= i < j < |s| ==> s[i] != s[j]
    ensures forall i, j :: 0 <= i < j < |s[1..]| ==> s[1..][i] != s[1..][j]
    ensures s[0] !in s[1..]
  {
    var t := s[1..];
    forall i, j | 0 <= i < j < |t|
      ensures t[i] != t[j]
    {
      assert t[i] == s[i + 1] && t[j] == s[j + 1];
    }
    forall j | 0 <= j < |t|
      ensures t[j] != s[0]
    {
      assert t[j] == s[j + 1];
    }
  }

  /** One element more counts once more exactly when it passes the filter. */
  lemma FilterLengthStep<T>(s: seq<T>, p: T -> bool)
    requires s != []
    ensures |Filter(s, p)| == (if p(s[0]) then 1 else 0) + |Filter(s[1..], p)|
  {
  }

  /** Filtering with two predicates that agree on the elements gives the same result. */
  lemma {:induction false} FilterExt<T>(s: seq<T>, p: T -> bool, q: T -> bool)
    requires forall i :: 0 <= i < |s| ==> p(s[i]) == q(s[i])
    ensures Filter(s, p) == Filter(s, q)
  {
    if s != [] {
      FilterExt(s[1..], p, q);
    }
  }

  lemma {:induction false} FilterAppend<T>(s: seq<T>, t: seq<T>, p: T -> bool)
    ensures Filter(s + t, p) == Filter(s, p) + Filter(t, p)
  {
    if s == [] {
      assert s + t == t;
    } else {
      assert (s + t)[1..] == s[1..] + t;
      FilterAppend(s[1..], t, p);
    }
  }

  lemma {:induction false} FilterMultiset<T>(s: seq<T>, p: T -> bool)
    ensures multiset(Filter(s, p)) <= multiset(s)
  {
    if s != [] {
      FilterMultiset(s[1..], p);
      var head := if p(s[0]) then [s[0]] else [];
      assert multiset(Filter(s, p)) == multiset(head) + multiset(Filter(s[1..], p));
      assert s == [s[0]] + s[1..];
      assert multiset(s) == multiset([s[0]]) + multiset(s[1..]);
    }
  }

  /** Filtering a filtered sequence again with the same predicate changes nothing. */
  lemma {:induction false} FilterIdempotent<T>(s: seq<T>, p: T -> bool)
    ensures Filter(Filter(s, p), p) == Filter(s, p)
  {
    if s != [] {
      FilterIdempotent(s[1..], p);
      var rest := Filter(s[1..], p);
      var head := if p(s[0]) then [s[0]] else [];
      assert Filter(s, p) == head + rest;
      FilterAppend(head, rest, p);
      if p(s[0]) {
        assert Filter(head, p) == [s[0]] + Filter([], p);
      }
    }
  }

  /** The keys of `s` strictly increase from left to right. */
  ghost predicate IncreasingBy<T>(s: seq<T>, key: T -> int) {
    forall i, j :: 0 <= i < j < |s| ==> key(s[i]) < key(s[j])
  }

  /** The keys of `s` strictly decrease from left to right. */
  ghost predicate DecreasingBy<T>(s: seq<T>, key: T -> int) {
    forall i, j :: 0 <= i < j < |s| ==> key(s[i]) > key(s[j])
  }

  /** A bound on every key of `s` holds for every key `Filter` keeps. */
  lemma {:induction false} FilterKeysAbove<T>(s: seq<T>, p: T -> bool, key: T -> int, bound: int)
    requires forall i :: 0 <= i < |s| ==> bound < key(s[i])
    ensures forall i :: 0 <= i < |Filter(s, p)| ==> bound < key(Filter(s, p)[i])
  {
    if s != [] {
      FilterKeysAbove(s[1..], p, key, bound);
      var head := if p(s[0]) then [s[0]] else [];
      var rest := Filter(s[1..], p);
      assert Filter(s, p) == head + rest;
      assert forall i :: 0 <= i < |rest| ==> bound < key(rest[i]);
    }
  }

  /** A filter keeps the relative order of what it keeps. */
  lemma {:induction false} FilterKeepsIncreasing<T>(s: seq<T>, p: T -> bool, key: T -> int)
    requires IncreasingBy(s, key)
    ensures IncreasingBy(Filter(s, p), key)
  {
    if s != [] {
      var tail := s[1..];
      assert IncreasingBy(tail, key) by {
        forall i, j | 0 <= i < j < |tail|
          ensures key(tail[i]) < key(tail[j])
        {
          assert tail[i] == s[i + 1] && tail[j] == s[j + 1];
        }
      }
      FilterKeepsIncreasing(tail, p, key);
      var rest := Filter(tail, p);
      if p(s[0]) {
        forall i | 0 <= i < |tail|
          ensures key(s[0]) < key(tail[i])
        {
          assert tail[i] == s[i + 1];
        }
        FilterKeysAbove(tail, p, key, key(s[0]));
        var r := [s[0]] + rest;
        assert Filter(s, p) == r;
        forall i, j | 0 <= i < j < |r|
          ensures key(r[i]) < key(r[j])
        {
          assert r[j] == rest[j - 1];
          if i > 0 {
            assert r[i] == rest[i - 1];
          }
        }
      } else {
        assert Filter(s, p) == rest;
      }
    }
  }

  function Reverse<T>(s: seq<T>): (r: seq<T>)
    ensures |r| == |s|
    ensures forall i :: 0 <= i < |s| ==> r[i] == s[|s| - 1 - i]
  {
    if s == [] then [] else Reverse(s[1..]) + [s[0]]
  }

  lemma ReverseMultiset<T>(s: seq<T>)
    ensures multiset(Reverse(s)) == multiset(s)
  {
    if s != [] {
      ReverseMultiset(s[1..]);
      assert s == [s[0]] + s[1..];
    }
  }

  lemma ReverseOfIncreasing<T>(s: seq<T>, key: T -> int)
    requires IncreasingBy(s, key)
    ensures DecreasingBy(Reverse(s), key)
  {
  }

  lemma SliceKeepsDecreasing<T>(s: seq<T>, a: nat, b: nat, key: T -> int)
    requires a <= b <= |s| && DecreasingBy(s, key)
    ensures DecreasingBy(s[a..b], key)
  {
    assert forall i :: 0 <= i < b - a ==> s[a..b][i] == s[a + i];
  }

  /** Index of the first element satisfying `p`, as `findOne` returns the first match. */
  function IndexWhere<T>(s: seq<T>, p: T -> bool): (r: Option<nat>)
    ensures r.Some? ==> r.value < |s| && p(s[r.value])
    ensures r.Some? ==> forall k :: 0 <= k < r.value ==> !p(s[k])
    ensures r.None? <==> forall k :: 0 <= k < |s| ==> !p(s[k])
  {
    if s == [] then None
    else if p(s[0]) then Some(0)
    else match IndexWhere(s[1..], p)
      case None => None
      case Some(k) => Some(k + 1)
  }

  function RemoveAt<T>(s: seq<T>, i: nat): (r: seq<T>)
    requires i < |s|
    ensures |r| == |s| - 1
    ensures forall k :: 0 <= k < i ==> r[k] == s[k]
    ensures forall k :: i <= k < |r| ==> r[k] == s[k + 1]
  {
    s[..i] + s[i + 1..]
  }

  /** In a sequence whose keys increase, removing the element at i removes its key and
      keeps every element with another key. */
  lemma RemoveUniqueKey<T>(s: seq<T>, i: nat, key: T -> int)
    requires i < |s| && IncreasingBy(s, key)
    ensures forall k :: 0 <= k < |RemoveAt(s, i)| ==> key(RemoveAt(s, i)[k]) != key(s[i])
    ensures forall k :: 0 <= k < |s| && key(s[k]) != key(s[i]) ==> s[k] in RemoveAt(s, i)
  {
    var r := RemoveAt(s, i);
    forall k | 0 <= k < |r|
      ensures key(r[k]) != key(s[i])
    {
      if k < i {
        assert r[k] == s[k];
      } else {
        assert r[k] == s[k + 1];
      }
    }
    forall k | 0 <= k < |s| && key(s[k]) != key(s[i])
      ensures s[k] in r
    {
      if k < i {
        assert r[k] == s[k];
      } else {
        assert k != i && r[k - 1] == s[k];
      }
    }
  }
}
