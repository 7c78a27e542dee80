/**
 * Aggregation in both scraper variants: the Google Maps records followed by the JustDial
 * records, deduplicated on the lowercased `name + address` key with the first record of each key
 * kept, then cut to `max_results`.
 */
module Dedup {
  import opened JsString
  import opened Vendors
  import opened Unique

  /** The keys occurring in `vs`. */
  function KeysOf(vs: seq<Vendor>): set<string> {
    if vs == [] then {} else {Key(vs[0])} + KeysOf(vs[1..])
  }

  /** The keys of a list are exactly the keys of its records. */
  lemma {:induction false} KeysOfSpec(vs: seq<Vendor>)
    ensures forall i :: 0 <= i < |vs| ==> Key(vs[i]) in KeysOf(vs)
    ensures forall k :: k in KeysOf(vs) ==> exists i :: 0 <= i < |vs| && Key(vs[i]) == k
    decreases |vs|
  {
    if vs != [] {
      KeysOfSpec(vs[1..]);
      forall i | 0 < i < |vs| ensures Key(vs[i]) in KeysOf(vs) {
        assert vs[i] == vs[1..][i - 1];
      }
      forall k | k in KeysOf(vs) ensures exists i :: 0 <= i < |vs| && Key(vs[i]) == k {
        if k != Key(vs[0]) {
          var i :| 0 <= i < |vs[1..]| && Key(vs[1..][i]) == k;
          assert vs[i + 1] == vs[1..][i];
        }
      }
    }
  }

  /** No two records share a key. */
  predicate DistinctKeys(vs: seq<Vendor>) {
    forall i, j :: 0 <= i < j < |vs| ==> Key(vs[i]) != Key(vs[j])
  }

  /** `vs[i]` is the first record of its key. */
  predicate FirstOfKey(vs: seq<Vendor>, i: nat)
    requires i < |vs|
  {
    forall j :: 0 <= j < i ==> Key(vs[j]) != Key(vs[i])
  }

  /** The records the `seen`-set loop keeps from `vs` once the keys in `seen` are already taken. */
  function DedupFrom(vs: seq<Vendor>, seen: set<string>): seq<Vendor>
    decreases |vs|
  {
    if vs == [] then []
    else if Key(vs[0]) in seen then DedupFrom(vs[1..], seen)
    else [vs[0]] + DedupFrom(vs[1..], seen + {Key(vs[0])})
  }

  /** `deduplicateVendors(vs)`. */
  function Dedup(vs: seq<Vendor>): seq<Vendor> {
    DedupFrom(vs, {})
  }

  /** `deduplicateVendors`: one pass that records each new key in `seen` and pushes the record. */
  method DeduplicateVendors(vs: seq<Vendor>) returns (deduped: seq<Vendor>)
    ensures deduped == Dedup(vs)
  {
    var seen: set<string> := {};
    deduped := [];
    var i := 0;
    while i < |vs|
      invariant 0 <= i <= |vs|
      invariant deduped + DedupFrom(vs[i..], seen) == Dedup(vs)
    {
      assert vs[i..][0] == vs[i] && vs[i..][1..] == vs[i + 1..];
      var key := Key(vs[i]);
      if key !in seen {
        seen := seen + {key};
        deduped := deduped + [vs[i]];
      }
      i := i + 1;
    }
  }

  /** The kept records carry exactly the keys of the input that were not already taken. */
  lemma {:induction false} DedupFromKeys(vs: seq<Vendor>, seen: set<string>)
    ensures KeysOf(DedupFrom(vs, seen)) == KeysOf(vs) - seen
    decreases |vs|
  {
    if vs != [] {
      if Key(vs[0]) in seen {
        DedupFromKeys(vs[1..], seen);
      } else {
        DedupFromKeys(vs[1..], seen + {Key(vs[0])});
        var rest := DedupFrom(vs[1..], seen + {Key(vs[0])});
        assert ([vs[0]] + rest)[1..] == rest;
      }
    }
  }

  /** The kept records have pairwise distinct keys, none of them already taken. */
  lemma {:induction false} DedupFromDistinct(vs: seq<Vendor>, seen: set<string>)
    ensures DistinctKeys(DedupFrom(vs, seen))
    ensures forall i :: 0 <= i < |DedupFrom(vs, seen)| ==> Key(DedupFrom(vs, seen)[i]) !in seen
    decreases |vs|
  {
    if vs != [] {
      if Key(vs[0]) in seen {
        DedupFromDistinct(vs[1..], seen);
      } else {
        var seen' := seen + {Key(vs[0])};
        DedupFromDistinct(vs[1..], seen');
        var rest := DedupFrom(vs[1..], seen');
        var d := [vs[0]] + rest;
        assert forall i :: 1 <= i < |d| ==> d[i] == rest[i - 1];
      }
    }
  }

  /** The kept records are a subsequence of the input. */
  lemma {:induction false} DedupFromSubsequence(vs: seq<Vendor>, seen: set<string>)
    ensures IsSubsequence(DedupFrom(vs, seen), vs)
    decreases |vs|
  {
    if vs != [] {
      if Key(vs[0]) in seen {
        DedupFromSubsequence(vs[1..], seen);
      } else {
        var rest := DedupFrom(vs[1..], seen + {Key(vs[0])});
        DedupFromSubsequence(vs[1..], seen + {Key(vs[0])});
        assert ([vs[0]] + rest)[1..] == rest;
      }
    }
  }

  lemma FirstOfKeyTail(vs: seq<Vendor>, i: nat)
    requires 0 < i < |vs| && FirstOfKey(vs, i)
    ensures FirstOfKey(vs[1..], i - 1)
  {
    forall j | 0 <= j < i - 1 ensures Key(vs[1..][j]) != Key(vs[1..][i - 1]) {
      assert vs[1..][j] == vs[j + 1];
    }
  }

  /** Every record that is the first of its key, with that key not yet taken, is kept. */
  lemma {:induction false} DedupFromKeepsFirst(vs: seq<Vendor>, seen: set<string>, i: nat)
    requires i < |vs| && FirstOfKey(vs, i) && Key(vs[i]) !in seen
    ensures vs[i] in DedupFrom(vs, seen)
    decreases |vs|
  {
    if i > 0 {
      FirstOfKeyTail(vs, i);
      assert vs[1..][i - 1] == vs[i];
      if Key(vs[0]) in seen {
        DedupFromKeepsFirst(vs[1..], seen, i - 1);
      } else {
        assert Key(vs[0]) != Key(vs[i]);
        DedupFromKeepsFirst(vs[1..], seen + {Key(vs[0])}, i - 1);
      }
    }
  }

  /** Every kept record is the first record of its key in the input. */
  lemma {:induction false} DedupFromOnlyFirst(vs: seq<Vendor>, seen: set<string>, v: Vendor)
    requires v in DedupFrom(vs, seen)
    ensures exists i :: 0 <= i < |vs| && vs[i] == v && FirstOfKey(vs, i) && Key(v) !in seen
    decreases |vs|
  {
    if Key(vs[0]) in seen {
      DedupFromOnlyFirst(vs[1..], seen, v);
      var i :| 0 <= i < |vs[1..]| && vs[1..][i] == v && FirstOfKey(vs[1..], i) && Key(v) !in seen;
      assert vs[i + 1] == v;
      assert FirstOfKey(vs, i + 1) by {
        forall j | 0 <= j < i + 1 ensures Key(vs[j]) != Key(vs[i + 1]) {
          if j > 0 {
            assert vs[j] == vs[1..][j - 1];
          }
        }
      }
    } else if v != vs[0] {
      var seen' := seen + {Key(vs[0])};
      assert v in DedupFrom(vs[1..], seen');
      DedupFromOnlyFirst(vs[1..], seen', v);
      var i :| 0 <= i < |vs[1..]| && vs[1..][i] == v && FirstOfKey(vs[1..], i) && Key(v) !in seen';
      assert vs[i + 1] == v;
      assert FirstOfKey(vs, i + 1) by {
        forall j | 0 <= j < i + 1 ensures Key(vs[j]) != Key(vs[i + 1]) {
          if j > 0 {
            assert vs[j] == vs[1..][j - 1];
          }
        }
      }
    } else {
      assert vs[0] == v && FirstOfKey(vs, 0);
    }
  }

  /** A list with distinct keys, none already taken, passes through unchanged. */
  lemma {:induction false} DedupFromDistinctFixed(vs: seq<Vendor>, seen: set<string>)
    requires DistinctKeys(vs)
    requires forall i :: 0 <= i < |vs| ==> Key(vs[i]) !in seen
    ensures DedupFrom(vs, seen) == vs
    decreases |vs|
  {
    if vs != [] {
      var seen' := seen + {Key(vs[0])};
      assert forall i :: 0 <= i < |vs[1..]| ==> Key(vs[1..][i]) !in seen' by {
        forall i | 0 <= i < |vs[1..]| ensures Key(vs[1..][i]) !in seen' {
          assert vs[1..][i] == vs[i + 1];
        }
      }
      assert DistinctKeys(vs[1..]) by {
        forall i, j | 0 <= i < j < |vs[1..]| ensures Key(vs[1..][i]) != Key(vs[1..][j]) {
          assert vs[1..][i] == vs[i + 1] && vs[1..][j] == vs[j + 1];
        }
      }
      DedupFromDistinctFixed(vs[1..], seen');
      assert vs == [vs[0]] + vs[1..];
    }
  }

  /** The first record of `a + b` and what follows it, when `a` is not empty. */
  lemma ConcatFront(a: seq<Vendor>, b: seq<Vendor>)
    requires a != []
    ensures (a + b)[0] == a[0] && (a + b)[1..] == a[1..] + b
  {
  }

  /** The keys of a non-empty list: its first key and the keys of the rest. */
  lemma KeysOfCons(a: seq<Vendor>, seen: set<string>)
    requires a != []
    ensures seen + {Key(a[0])} + KeysOf(a[1..]) == seen + KeysOf(a)
    ensures Key(a[0]) in seen ==> seen + KeysOf(a[1..]) == seen + KeysOf(a)
  {
    assert KeysOf(a) == {Key(a[0])} + KeysOf(a[1..]);
  }

  /** The loop passes over a record of `a + b` whose key is taken. */
  lemma ConcatSkips(a: seq<Vendor>, b: seq<Vendor>, seen: set<string>)
    requires a != [] && Key(a[0]) in seen
    ensures DedupFrom(a + b, seen) == DedupFrom(a[1..] + b, seen)
  {
    ConcatFront(a, b);
  }

  /** The loop keeps a record of `a + b` whose key is new. */
  lemma ConcatKeeps(a: seq<Vendor>, b: seq<Vendor>, seen: set<string>)
    requires a != [] && Key(a[0]) !in seen
    ensures DedupFrom(a + b, seen) == [a[0]] + DedupFrom(a[1..] + b, seen + {Key(a[0])})
  {
    ConcatFront(a, b);
  }

  /** One step of `DedupFromConcat` when the first key is already taken. */
  lemma ConcatSkipStep(a: seq<Vendor>, b: seq<Vendor>, seen: set<string>)
    requires a != [] && Key(a[0]) in seen
    requires DedupFrom(a[1..] + b, seen) == DedupFrom(a[1..], seen) + DedupFrom(b, seen + KeysOf(a[1..]))
    ensures DedupFrom(a + b, seen) == DedupFrom(a, seen) + DedupFrom(b, seen + KeysOf(a))
  {
    ConcatSkips(a, b, seen);
    KeysOfCons(a, seen);
  }

  /** Prepending one record to a concatenation. */
  lemma ConsConcat(h: Vendor, x: seq<Vendor>, y: seq<Vendor>)
    ensures [h] + (x + y) == [h] + x + y
  {
  }

  /** One step of `DedupFromConcat` when the first key is new. */
  lemma ConcatKeepStep(a: seq<Vendor>, b: seq<Vendor>, seen: set<string>)
    requires a != [] && Key(a[0]) !in seen
    requires var seen' := seen + {Key(a[0])};
      DedupFrom(a[1..] + b, seen') == DedupFrom(a[1..], seen') + DedupFrom(b, seen' + KeysOf(a[1..]))
    ensures DedupFrom(a + b, seen) == DedupFrom(a, seen) + DedupFrom(b, seen + KeysOf(a))
  {
    var h, t, seen' := a[0], a[1..], seen + {Key(a[0])};
    ConcatKeeps(a, b, seen);
    KeysOfCons(a, seen);
    ConsConcat(h, DedupFrom(t, seen'), DedupFrom(b, seen' + KeysOf(t)));
  }

  /** Deduplicating a concatenation: the first part is deduplicated on its own, and the second part
    * loses every key the first part already has. */
  lemma {:induction false} DedupFromConcat(a: seq<Vendor>, b: seq<Vendor>, seen: set<string>)
    ensures DedupFrom(a + b, seen) == DedupFrom(a, seen) + DedupFrom(b, seen + KeysOf(a))
    decreases |a|
  {
    if a == [] {
      assert a + b == b;
      assert seen + KeysOf(a) == seen;
    } else if Key(a[0]) in seen {
      DedupFromConcat(a[1..], b, seen);
      ConcatSkipStep(a, b, seen);
    } else {
      DedupFromConcat(a[1..], b, seen + {Key(a[0])});
      ConcatKeepStep(a, b, seen);
    }
  }

  /** A list has no more keys than records. */
  lemma {:induction false} KeysOfSize(vs: seq<Vendor>)
    ensures |KeysOf(vs)| <= |vs|
    decreases |vs|
  {
    if vs != [] {
      KeysOfSize(vs[1..]);
      assert KeysOf(vs) == {Key(vs[0])} + KeysOf(vs[1..]);
    }
  }

  /** The number of distinct keys of a list with distinct keys is its length. */
  lemma {:induction false} DistinctKeysCount(vs: seq<Vendor>)
    requires DistinctKeys(vs)
    ensures |KeysOf(vs)| == |vs|
    decreases |vs|
  {
    if vs != [] {
      assert DistinctKeys(vs[1..]) by {
        forall i, j | 0 <= i < j < |vs[1..]| ensures Key(vs[1..][i]) != Key(vs[1..][j]) {
          assert vs[1..][i] == vs[i + 1] && vs[1..][j] == vs[j + 1];
        }
      }
      DistinctKeysCount(vs[1..]);
      KeysOfSpec(vs[1..]);
      forall i | 0 <= i < |vs[1..]| ensures Key(vs[1..][i]) != Key(vs[0]) {
        assert vs[1..][i] == vs[i + 1];
      }
    }
  }

  /** What `deduplicateVendors` promises: a subsequence of its input with pairwise distinct keys
    * and the same set of keys, keeping for each key exactly the first record that has it; its
    * length is the number of distinct keys. */
  lemma DedupSpec(vs: seq<Vendor>)
    ensures IsSubsequence(Dedup(vs), vs)
    ensures DistinctKeys(Dedup(vs))
    ensures KeysOf(Dedup(vs)) == KeysOf(vs)
    ensures |Dedup(vs)| == |KeysOf(vs)|
    ensures forall i :: 0 <= i < |vs| && FirstOfKey(vs, i) ==> vs[i] in Dedup(vs)
    ensures forall v :: v in Dedup(vs) ==> exists i :: 0 <= i < |vs| && vs[i] == v && FirstOfKey(vs, i)
  {
    DedupFromSubsequence(vs, {});
    DedupFromDistinct(vs, {});
    DedupFromKeys(vs, {});
    assert KeysOf(vs) - {} == KeysOf(vs);
    DistinctKeysCount(Dedup(vs));
    forall i | 0 <= i < |vs| && FirstOfKey(vs, i) ensures vs[i] in Dedup(vs) {
      DedupFromKeepsFirst(vs, {}, i);
    }
    forall v | v in Dedup(vs) ensures exists i :: 0 <= i < |vs| && vs[i] == v && FirstOfKey(vs, i) {
      DedupFromOnlyFirst(vs, {}, v);
    }
  }

  /** Deduplicating twice is deduplicating once. */
  lemma DedupIdempotent(vs: seq<Vendor>)
    ensures Dedup(Dedup(vs)) == Dedup(vs)
  {
    DedupFromDistinct(vs, {});
    DedupFromDistinctFixed(Dedup(vs), {});
  }

  /** Records whose name and address differ can still share a key, since the key concatenates the
    * two without a separator. */
  lemma KeyJoinsWithoutSeparator(v: Vendor, w: Vendor)
    requires v.name == "ab" && v.address == "c" && w.name == "a" && w.address == "bc"
    ensures Key(v) == Key(w) && Dedup([v, w]) == [v]
  {
    assert v.name + v.address == w.name + w.address;
    assert Key(v) == Key(w);
    assert [v, w][0] == v && [v, w][1..] == [w];
    assert DedupFrom([w], {Key(v)}) == DedupFrom([], {Key(v)}) by {
      assert [w][0] == w && [w][1..] == [];
    }
    var none: set<string> := {};
    assert none + {Key(v)} == {Key(v)};
    assert DedupFrom([v, w], none) == [v] + DedupFrom([w], {Key(v)});
  }

  /** The aggregation step: `deduplicateVendors(googleVendors.concat(justDialVendors)).slice(0, maxResults)`. */
  function Aggregate(googleMaps: seq<Vendor>, justDial: seq<Vendor>, maxResults: int): seq<Vendor> {
    SliceTo(Dedup(googleMaps + justDial), maxResults)
  }

  /** A prefix of a list with distinct keys has distinct keys. */
  lemma DistinctKeysPrefix(vs: seq<Vendor>, p: seq<Vendor>)
    requires DistinctKeys(vs) && p <= vs
    ensures DistinctKeys(p)
  {
    assert forall i :: 0 <= i < |p| ==> p[i] == vs[i];
  }

  /** The aggregated list keeps the Google Maps records first, adds the JustDial records whose key is
    * new, and is then cut: it has distinct keys, at most `maxResults` records when that is
    * non-negative, and exactly `maxResults` when there are at least that many distinct keys, since
    * the cut comes after deduplication. */
  lemma AggregateSpec(googleMaps: seq<Vendor>, justDial: seq<Vendor>, maxResults: int)
    ensures Dedup(googleMaps + justDial) == Dedup(googleMaps) + DedupFrom(justDial, KeysOf(googleMaps))
    ensures Aggregate(googleMaps, justDial, maxResults) <= Dedup(googleMaps + justDial)
    ensures DistinctKeys(Aggregate(googleMaps, justDial, maxResults))
    ensures |Aggregate(googleMaps, justDial, maxResults)| <= |KeysOf(googleMaps + justDial)|
    ensures maxResults >= 0 ==> |Aggregate(googleMaps, justDial, maxResults)| <= maxResults
    ensures 0 <= maxResults <= |KeysOf(googleMaps + justDial)| ==>
      |Aggregate(googleMaps, justDial, maxResults)| == maxResults
  {
    DedupFromConcat(googleMaps, justDial, {});
    assert {} + KeysOf(googleMaps) == KeysOf(googleMaps);
    var d := Dedup(googleMaps + justDial);
    DedupFromDistinct(googleMaps + justDial, {});
    DedupFromKeys(googleMaps + justDial, {});
    assert KeysOf(googleMaps + justDial) - {} == KeysOf(googleMaps + justDial);
    DistinctKeysCount(d);
    DistinctKeysPrefix(d, Aggregate(googleMaps, justDial, maxResults));
  }
}
