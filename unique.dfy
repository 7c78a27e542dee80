/**
 * The `filter((x, i, arr) => i === arr.findIndex(y => key(y) === key(x)))` idiom, with the key
 * a parameter: the Overpass path keys records on their exact name and address, the government
 * organisation list on the name alone.
 */
module Unique {

  /** `a` is `b` with some elements left out, the rest in their order. */
  predicate IsSubsequence<T(==)>(a: seq<T>, b: seq<T>)
    decreases |b|
  {
    a == [] || (b != [] && ((a[0] == b[0] && IsSubsequence(a[1..], b[1..])) || IsSubsequence(a, b[1..])))
  }

  /** `xs.findIndex(y => key(y) === key(x))`: the first index with the key of `x`, or -1. */
  function FindIndex<T, K(==)>(key: T -> K, xs: seq<T>, x: T): (r: int)
    ensures -1 <= r < |xs|
    ensures r >= 0 ==> key(xs[r]) == key(x) && forall j :: 0 <= j < r ==> key(xs[j]) != key(x)
    ensures r == -1 ==> forall j :: 0 <= j < |xs| ==> key(xs[j]) != key(x)
  {
    if xs == [] then -1
    else if key(xs[0]) == key(x) then 0
    else
      var j := FindIndex(key, xs[1..], x);
      if j < 0 then -1 else j + 1
  }

  /** `xs[i]` is the first element of its key. */
  predicate FirstOf<T, K(==)>(key: T -> K, xs: seq<T>, i: nat)
    requires i < |xs|
  {
    forall j :: 0 <= j < i ==> key(xs[j]) != key(xs[i])
  }

  /** The filter from index `i` on: keep `xs[i]` when `findIndex` finds it at `i`. */
  function UniqueFrom<T, K(==)>(key: T -> K, xs: seq<T>, i: nat): seq<T>
    requires i <= |xs|
    decreases |xs| - i
  {
    if i == |xs| then []
    else (if FindIndex(key, xs, xs[i]) == i then [xs[i]] else []) + UniqueFrom(key, xs, i + 1)
  }

  /** The whole filter. */
  function UniqueBy<T, K(==)>(key: T -> K, xs: seq<T>): seq<T> {
    UniqueFrom(key, xs, 0)
  }

  /** No two elements share a key. */
  predicate DistinctBy<T, K(==)>(key: T -> K, xs: seq<T>) {
    forall i, j :: 0 <= i < j < |xs| ==> key(xs[i]) != key(xs[j])
  }

  lemma FindIndexFirst<T, K>(key: T -> K, xs: seq<T>, i: nat)
    requires i < |xs|
    ensures FindIndex(key, xs, xs[i]) == i <==> FirstOf(key, xs, i)
  {
  }

  lemma {:induction false} UniqueFromMembers<T, K>(key: T -> K, xs: seq<T>, i: nat)
    requires i <= |xs|
    ensures forall w :: w in UniqueFrom(key, xs, i) ==> exists j :: i <= j < |xs| && xs[j] == w && FirstOf(key, xs, j)
    decreases |xs| - i
  {
    if i < |xs| {
      UniqueFromMembers(key, xs, i + 1);
      FindIndexFirst(key, xs, i);
    }
  }

  lemma {:induction false} UniqueFromSubsequence<T, K>(key: T -> K, xs: seq<T>, i: nat)
    requires i <= |xs|
    ensures IsSubsequence(UniqueFrom(key, xs, i), xs[i..])
    decreases |xs| - i
  {
    if i < |xs| {
      UniqueFromSubsequence(key, xs, i + 1);
      var rest := UniqueFrom(key, xs, i + 1);
      assert xs[i..][0] == xs[i] && xs[i..][1..] == xs[i + 1..];
      if FindIndex(key, xs, xs[i]) == i {
        var u := [xs[i]] + rest;
        assert u[0] == xs[i] && u[1..] == rest;
      } else {
        assert UniqueFrom(key, xs, i) == rest;
      }
    }
  }

  lemma {:induction false} UniqueFromDistinct<T, K>(key: T -> K, xs: seq<T>, i: nat)
    requires i <= |xs|
    ensures DistinctBy(key, UniqueFrom(key, xs, i))
    decreases |xs| - i
  {
    if i < |xs| {
      UniqueFromDistinct(key, xs, i + 1);
      var rest := UniqueFrom(key, xs, i + 1);
      if FindIndex(key, xs, xs[i]) == i {
        UniqueFromMembers(key, xs, i + 1);
        var u := [xs[i]] + rest;
        forall p, q | 0 <= p < q < |u| ensures key(u[p]) != key(u[q]) {
          if p == 0 {
            assert u[q] in rest;
            var j :| i + 1 <= j < |xs| && xs[j] == u[q] && FirstOf(key, xs, j);
          } else {
            assert u[p] == rest[p - 1] && u[q] == rest[q - 1];
          }
        }
      }
    }
  }

  lemma {:induction false} UniqueFromKeepsFirst<T, K>(key: T -> K, xs: seq<T>, i: nat, k: nat)
    requires i <= k < |xs| && FirstOf(key, xs, k)
    ensures xs[k] in UniqueFrom(key, xs, i)
    decreases k - i
  {
    FindIndexFirst(key, xs, k);
    if i < k {
      UniqueFromKeepsFirst(key, xs, i + 1, k);
    }
  }

  lemma {:induction false} UniqueFromOfDistinct<T, K>(key: T -> K, xs: seq<T>, i: nat)
    requires i <= |xs| && DistinctBy(key, xs)
    ensures UniqueFrom(key, xs, i) == xs[i..]
    decreases |xs| - i
  {
    if i < |xs| {
      FindIndexFirst(key, xs, i);
      UniqueFromOfDistinct(key, xs, i + 1);
      assert xs[i..] == [xs[i]] + xs[i + 1..];
    }
  }

  /** Every key of the input is kept, by the first element that has it. */
  lemma UniqueByCovers<T, K>(key: T -> K, xs: seq<T>, i: nat)
    requires i < |xs|
    ensures exists w :: w in UniqueBy(key, xs) && key(w) == key(xs[i])
  {
    var f := FindIndex(key, xs, xs[i]);
    assert FirstOf(key, xs, f) by {
      forall j | 0 <= j < f ensures key(xs[j]) != key(xs[f]) {
        assert key(xs[j]) != key(xs[i]);
      }
    }
    UniqueFromKeepsFirst(key, xs, 0, f);
  }

  /** What the filter promises: a subsequence of its input with pairwise distinct keys, keeping
    * exactly the first element of each key; every key of the input is kept; applying it twice is
    * applying it once. */
  lemma UniqueBySpec<T, K>(key: T -> K, xs: seq<T>)
    ensures IsSubsequence(UniqueBy(key, xs), xs)
    ensures DistinctBy(key, UniqueBy(key, xs))
    ensures forall i :: 0 <= i < |xs| && FirstOf(key, xs, i) ==> xs[i] in UniqueBy(key, xs)
    ensures forall w :: w in UniqueBy(key, xs) ==> exists i :: 0 <= i < |xs| && xs[i] == w && FirstOf(key, xs, i)
    ensures forall i :: 0 <= i < |xs| ==> exists w :: w in UniqueBy(key, xs) && key(w) == key(xs[i])
    ensures UniqueBy(key, UniqueBy(key, xs)) == UniqueBy(key, xs)
  {
    UniqueFromSubsequence(key, xs, 0);
    assert xs[0..] == xs;
    UniqueFromDistinct(key, xs, 0);
    UniqueFromMembers(key, xs, 0);
    forall i | 0 <= i < |xs| && FirstOf(key, xs, i) ensures xs[i] in UniqueBy(key, xs) {
      UniqueFromKeepsFirst(key, xs, 0, i);
    }
    forall i | 0 <= i < |xs| ensures exists w :: w in UniqueBy(key, xs) && key(w) == key(xs[i]) {
      UniqueByCovers(key, xs, i);
    }
    var u := UniqueBy(key, xs);
    UniqueFromOfDistinct(key, u, 0);
    assert u[0..] == u;
  }

  /** On a list whose keys are already distinct the filter keeps everything. */
  lemma UniqueByOfDistinct<T, K>(key: T -> K, xs: seq<T>)
    requires DistinctBy(key, xs)
    ensures UniqueBy(key, xs) == xs
  {
    UniqueFromOfDistinct(key, xs, 0);
    assert xs[0..] == xs;
  }
}
