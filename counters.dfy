/**
 * The counting idiom `if k not in d: d[k] = 0; d[k] += 1` over a list of
 * keys, on insertion-ordered dictionaries.
 */
module Counters {
  import opened Wrappers
  import opened Dicts

  function Tally<K(==,!new)>(d: Dict<K, nat>, ks: seq<K>): Dict<K, nat>
  {
    if |ks| == 0 then d
    else
      Bump(Tally(d, ks[..|ks| - 1]), ks[|ks| - 1])
  }

  /** One counting step: `d[k] = d.get(k, 0) + 1`. */
  function Bump<K(==,!new)>(d: Dict<K, nat>, k: K): Dict<K, nat>
  {
    Put<K, nat>(d, k, CountOf(d, k) + 1)
  }

  /** The number of times `k` occurs in `ks`. */
  function Occurrences<K(==)>(ks: seq<K>, k: K): nat
  {
    if |ks| == 0 then 0 else Occurrences(ks[..|ks| - 1], k) + (if ks[|ks| - 1] == k then 1 else 0)
  }

  /** `d.get(k, 0)` on a dictionary of counts. */
  function CountOf<K(==)>(d: Dict<K, nat>, k: K): nat
  {
    GetOr(d, k, 0)
  }

  function Count(n: nat): int
  {
    n
  }

  /** One counting step adds one to the counted key and leaves every other count; the counted key becomes present. */
  lemma BumpCounts<K(!new)>(d: Dict<K, nat>, x: K, k: K)
    ensures CountOf(Bump(d, x), k) == CountOf(d, k) + (if k == x then 1 else 0)
    ensures HasKey(Bump(d, x), k) <==> HasKey(d, k) || k == x
  {
    GetFinds(Bump(d, x), k);
    GetFinds(d, k);
  }

  /**
   * Counting adds to each key's count the number of times the key occurs;
   * keys already present stay present, every counted key becomes present,
   * and no other key appears.
   */
  lemma {:induction false} TallyCounts<K(!new)>(d: Dict<K, nat>, ks: seq<K>)
    ensures forall k :: CountOf(Tally(d, ks), k) == CountOf(d, k) + Occurrences(ks, k)
    ensures forall k :: HasKey(Tally(d, ks), k) <==> HasKey(d, k) || k in ks
  {
    if |ks| > 0 {
      var init := ks[..|ks| - 1];
      var x := ks[|ks| - 1];
      TallyCounts(d, init);
      forall k ensures CountOf(Tally(d, ks), k) == CountOf(d, k) + Occurrences(ks, k)
        && (HasKey(Tally(d, ks), k) <==> HasKey(d, k) || k in ks) {
        BumpCounts(Tally(d, init), x, k);
        assert k in ks <==> k in init || k == x by {
          assert ks == init + [x];
        }
      }
    }
  }

  /** The counts grow in total by the number of counted keys, and no key is repeated. */
  lemma {:induction false} TallyTotal<K(!new)>(d: Dict<K, nat>, ks: seq<K>)
    requires DistinctKeys(d)
    ensures DistinctKeys(Tally(d, ks))
    ensures Total(Tally(d, ks), Count) == Total(d, Count) + |ks|
  {
    if |ks| > 0 {
      var r := Tally(d, ks[..|ks| - 1]);
      var k := ks[|ks| - 1];
      TallyTotal(d, ks[..|ks| - 1]);
      PutDistinct<K, nat>(r, k, CountOf(r, k) + 1);
      TotalPut<K, nat>(r, k, CountOf(r, k) + 1, Count);
    }
  }

  /** Counting keeps the position of every key already present and appends new keys in order of first occurrence. */
  lemma {:induction false} TallyKeys<K(!new)>(d: Dict<K, nat>, ks: seq<K>)
    ensures |Tally(d, ks)| >= |d|
    ensures Keys(Tally(d, ks))[..|d|] == Keys(d)
  {
    if |ks| > 0 {
      var r := Tally(d, ks[..|ks| - 1]);
      var k := ks[|ks| - 1];
      TallyKeys(d, ks[..|ks| - 1]);
      PutKeys<K, nat>(r, k, CountOf(r, k) + 1);
      var kr := Keys(r);
      assert (kr + [k])[..|d|] == kr[..|d|];
    }
  }

  /** Counting two lists one after the other is counting their concatenation. */
  lemma {:induction false} TallyConcat<K(!new)>(d: Dict<K, nat>, a: seq<K>, b: seq<K>)
    ensures Tally(d, a + b) == Tally(Tally(d, a), b)
  {
    if |b| > 0 {
      TallyConcat(d, a, b[..|b| - 1]);
      assert (a + b)[..|a + b| - 1] == a + b[..|b| - 1];
    } else {
      assert a + b == a;
    }
  }

  /** Counting only keys already present keeps the keys and their order. */
  lemma {:induction false} TallyKnownKeys<K(!new)>(d: Dict<K, nat>, ks: seq<K>)
    requires forall i :: 0 <= i < |ks| ==> HasKey(d, ks[i])
    ensures Keys(Tally(d, ks)) == Keys(d)
  {
    if |ks| > 0 {
      var init := ks[..|ks| - 1];
      var r := Tally(d, init);
      var k := ks[|ks| - 1];
      forall i | 0 <= i < |init| ensures HasKey(d, init[i]) {
        assert init[i] == ks[i];
      }
      TallyKnownKeys(d, init);
      BumpKnownKey(r, k);
    }
  }

  lemma BumpKnownKey<K(!new)>(d: Dict<K, nat>, k: K)
    requires HasKey(d, k)
    ensures Keys(Bump(d, k)) == Keys(d)
  {
    PutKeys<K, nat>(d, k, CountOf(d, k) + 1);
  }

  /** The method form of the counting loop. */
  method Contar<K(==,!new)>(d: Dict<K, nat>, ks: seq<K>) returns (r: Dict<K, nat>)
    ensures r == Tally(d, ks)
  {
    r := d;
    var i := 0;
    while i < |ks|
      invariant 0 <= i <= |ks|
      invariant r == Tally(d, ks[..i])
    {
      assert ks[..i + 1][..i] == ks[..i];
      r := Bump(r, ks[i]);
      i := i + 1;
    }
    assert ks[..i] == ks;
  }
}
