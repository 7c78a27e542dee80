/** Sequence helpers shared by the model: a concatenating map and the loop that builds it, and
  * `find` and `filter`. */
module Lists {
  import opened Wrappers

  /** `f` applied to each element, the results concatenated in order. */
  function ConcatMap<A, B>(f: A -> seq<B>, xs: seq<A>): seq<B>
    decreases |xs|
  {
    if xs == [] then [] else ConcatMap(f, xs[..|xs| - 1]) + f(xs[|xs| - 1])
  }

  lemma {:induction false} ConcatMapConcat<A, B>(f: A -> seq<B>, a: seq<A>, b: seq<A>)
    ensures ConcatMap(f, a + b) == ConcatMap(f, a) + ConcatMap(f, b)
    decreases |b|
  {
    if b == [] {
      assert a + b == a;
    } else {
      var c := a + b;
      assert c[..|c| - 1] == a + b[..|b| - 1];
      assert c[|c| - 1] == b[|b| - 1];
      ConcatMapConcat(f, a, b[..|b| - 1]);
    }
  }

  lemma ConcatMapOne<A, B>(f: A -> seq<B>, x: A)
    ensures ConcatMap(f, [x]) == f(x)
  {
    assert [x][..0] == [];
  }

  /** A loop `for (i = start; i < xs.length; i++)` that appends what each element contributes. */
  method CollectFrom<A, B>(f: A -> seq<B>, xs: seq<A>, start: nat) returns (r: seq<B>)
    ensures r == if |xs| <= start then [] else ConcatMap(f, xs[start..])
  {
    r := [];
    var i := start;
    while i < |xs|
      invariant start <= i
      invariant i > start ==> i <= |xs|
      invariant r == (if i <= |xs| then ConcatMap(f, xs[start..i]) else [])
    {
      assert xs[start..i + 1] == xs[start..i] + [xs[i]];
      ConcatMapConcat(f, xs[start..i], [xs[i]]);
      ConcatMapOne(f, xs[i]);
      r := r + f(xs[i]);
      i := i + 1;
    }
    if |xs| > start {
      assert xs[start..|xs|] == xs[start..];
    }
  }

  /** Every element satisfies `p`. */
  predicate All<T>(p: T -> bool, xs: seq<T>) {
    forall k :: 0 <= k < |xs| ==> p(xs[k])
  }

  lemma AllConcat<T>(p: T -> bool, a: seq<T>, b: seq<T>)
    requires All(p, a) && All(p, b)
    ensures All(p, a + b)
  {
    forall k | 0 <= k < |a + b| ensures p((a + b)[k]) {
      if k >= |a| {
        assert (a + b)[k] == b[k - |a|];
      }
    }
  }

  /** When every element contributes only elements satisfying `p`, so does the whole map. */
  lemma {:induction false} ConcatMapAll<A, B>(f: A -> seq<B>, p: B -> bool, xs: seq<A>)
    requires forall k :: 0 <= k < |xs| ==> All(p, f(xs[k]))
    ensures All(p, ConcatMap(f, xs))
    decreases |xs|
  {
    if xs != [] {
      ConcatMapAll(f, p, xs[..|xs| - 1]);
      AllConcat(p, ConcatMap(f, xs[..|xs| - 1]), f(xs[|xs| - 1]));
    }
  }

  /** When every element contributes at most one element, the map is no longer than its input. */
  lemma {:induction false} ConcatMapAtMostOne<A, B>(f: A -> seq<B>, xs: seq<A>)
    requires forall k :: 0 <= k < |xs| ==> |f(xs[k])| <= 1
    ensures |ConcatMap(f, xs)| <= |xs|
    decreases |xs|
  {
    if xs != [] {
      ConcatMapAtMostOne(f, xs[..|xs| - 1]);
    }
  }

  /** What lies in a concatenating map is exactly what some element contributes. */
  lemma {:induction false} ConcatMapMember<A, B>(f: A -> seq<B>, xs: seq<A>, y: B)
    ensures y in ConcatMap(f, xs) <==> exists k :: 0 <= k < |xs| && y in f(xs[k])
    decreases |xs|
  {
    if xs != [] {
      var init := xs[..|xs| - 1];
      ConcatMapMember(f, init, y);
      if y in ConcatMap(f, xs) && y !in f(xs[|xs| - 1]) {
        var k :| 0 <= k < |init| && y in f(init[k]);
        assert init[k] == xs[k];
      }
      if exists k :: 0 <= k < |xs| && y in f(xs[k]) {
        var k :| 0 <= k < |xs| && y in f(xs[k]);
        if k < |init| {
          assert init[k] == xs[k];
        }
      }
    }
  }

  /** `xs.findIndex(p)` as an option: the first index whose element satisfies `p`. */
  function Find<T>(p: T -> bool, xs: seq<T>): (r: Option<nat>)
    ensures r.Some? ==> r.value < |xs| && p(xs[r.value]) && forall j :: 0 <= j < r.value ==> !p(xs[j])
    ensures r.None? <==> forall j :: 0 <= j < |xs| ==> !p(xs[j])
    decreases |xs|
  {
    if xs == [] then None
    else if p(xs[0]) then Some(0)
    else match Find(p, xs[1..])
      case None => None
      case Some(j) => Some(j + 1)
  }

  /** `xs.filter(p)`. */
  function Filter<T>(p: T -> bool, xs: seq<T>): seq<T>
    decreases |xs|
  {
    if xs == [] then [] else Filter(p, xs[..|xs| - 1]) + (if p(xs[|xs| - 1]) then [xs[|xs| - 1]] else [])
  }

  /** The filtered list holds exactly the elements that satisfy `p`, is no longer than the
    * input, and is the input itself when every element satisfies `p`. */
  lemma {:induction false} FilterSpec<T>(p: T -> bool, xs: seq<T>)
    ensures All(p, Filter(p, xs))
    ensures forall x :: x in Filter(p, xs) <==> x in xs && p(x)
    ensures |Filter(p, xs)| <= |xs|
    ensures All(p, xs) ==> Filter(p, xs) == xs
    decreases |xs|
  {
    if xs != [] {
      var init := xs[..|xs| - 1];
      var last := xs[|xs| - 1];
      FilterSpec(p, init);
      assert xs == init + [last];
      AllConcat(p, Filter(p, init), if p(last) then [last] else []);
      if All(p, xs) {
        assert All(p, init) by {
          forall k | 0 <= k < |init| ensures p(init[k]) {
            assert init[k] == xs[k];
          }
        }
      }
    }
  }

  /** `if (on) xs.forEach(…)`: the concatenating map when `on` holds, nothing otherwise. */
  function When<A, B>(on: bool, f: A -> seq<B>, xs: seq<A>): seq<B> {
    if on then ConcatMap(f, xs) else []
  }

  method CollectWhen<A, B>(on: bool, f: A -> seq<B>, xs: seq<A>) returns (r: seq<B>)
    ensures r == When(on, f, xs)
  {
    r := [];
    if on {
      r := CollectFrom(f, xs, 0);
      assert xs[0..] == xs;
    }
  }
}
