/**
 * Python dictionaries whose iteration order matters are modelled as
 * insertion-ordered association lists: lookup finds the first entry with
 * the key, assignment overwrites that entry in place or appends a new one.
 */
module Dicts {
  import opened Wrappers

  type Dict<K, V> = seq<(K, V)>

  function Keys<K, V>(d: Dict<K, V>): (ks: seq<K>)
    ensures |ks| == |d|
    ensures forall i :: 0 <= i < |d| ==> ks[i] == d[i].0
  {
    if |d| == 0 then [] else [d[0].0] + Keys(d[1..])
  }

  /** Python's `k in d`. */
  predicate HasKey<K(==), V>(d: Dict<K, V>, k: K)
  {
    k in Keys(d)
  }

  /** Python keys are unique; every dictionary built by `Put` keeps this. */
  predicate DistinctKeys<K(==), V>(d: Dict<K, V>)
  {
    forall i, j :: 0 <= i < j < |d| ==> d[i].0 != d[j].0
  }

  /** Python's `d.get(k)`: the value stored under `k`, if any. */
  function Get<K(==), V>(d: Dict<K, V>, k: K): Option<V>
  {
    if |d| == 0 then None
    else if d[0].0 == k then Some(d[0].1)
    else Get(d[1..], k)
  }

  /** A lookup succeeds exactly for the keys present, and finds an entry of the dictionary. */
  lemma {:induction false} GetFinds<K, V>(d: Dict<K, V>, k: K)
    ensures Get(d, k).Some? <==> HasKey(d, k)
    ensures Get(d, k).Some? ==> (k, Get(d, k).value) in d
  {
    if |d| > 0 && d[0].0 != k {
      GetFinds(d[1..], k);
      assert Keys(d) == [d[0].0] + Keys(d[1..]);
    }
  }

  /** The keys of a dictionary with one more entry at the end. */
  lemma KeysAppend<K, V>(d: Dict<K, V>, k: K, v: V)
    ensures Keys(d + [(k, v)]) == Keys(d) + [k]
  {
  }

  /** Python's `d.get(k, default)`. */
  function GetOr<K(==), V>(d: Dict<K, V>, k: K, default: V): V
  {
    match Get(d, k)
    case Some(v) => v
    case None => default
  }

  /** The value of the entry at position `i` is what a lookup of its key finds. */
  lemma {:induction false} GetAt<K, V>(d: Dict<K, V>, i: nat)
    requires i < |d|
    requires forall j :: 0 <= j < i ==> d[j].0 != d[i].0
    ensures Get(d, d[i].0) == Some(d[i].1)
  {
    if i > 0 {
      GetAt(d[1..], i - 1);
    }
  }

  /** Python's `d[k] = v`. */
  function Put<K(==,!new), V>(d: Dict<K, V>, k: K, v: V): (r: Dict<K, V>)
    ensures Get(r, k) == Some(v)
    ensures forall k' :: k' != k ==> Get(r, k') == Get(d, k')
  {
    if |d| == 0 then [(k, v)]
    else if d[0].0 == k then [(k, v)] + d[1..]
    else
      var rest := Put(d[1..], k, v);
      assert ([d[0]] + rest)[1..] == rest;
      [d[0]] + rest
  }

  /** Assignment keeps the key order and appends a new key at the end. */
  lemma {:induction false} PutKeys<K(!new), V>(d: Dict<K, V>, k: K, v: V)
    ensures Keys(Put(d, k, v)) == if HasKey(d, k) then Keys(d) else Keys(d) + [k]
  {
    if |d| > 0 && d[0].0 != k {
      PutKeys(d[1..], k, v);
      assert Keys(d) == [d[0].0] + Keys(d[1..]);
    }
  }

  /** Assignment never creates a duplicate key. */
  lemma PutDistinct<K(!new), V>(d: Dict<K, V>, k: K, v: V)
    requires DistinctKeys(d)
    ensures DistinctKeys(Put(d, k, v))
  {
    PutKeys(d, k, v);
    var r := Put(d, k, v);
    assert Keys(r) == if HasKey(d, k) then Keys(d) else Keys(d) + [k];
    forall i, j | 0 <= i < j < |r| ensures r[i].0 != r[j].0 {
      assert Keys(r)[i] == r[i].0 && Keys(r)[j] == r[j].0;
    }
  }

  /** Assignment leaves every entry as it was, except the one it writes. */
  lemma {:induction false} PutEntries<K(!new), V>(d: Dict<K, V>, k: K, v: V)
    ensures forall i :: 0 <= i < |Put(d, k, v)| ==> Put(d, k, v)[i] == (k, v) || Put(d, k, v)[i] in d
  {
    if |d| > 0 && d[0].0 != k {
      PutEntries(d[1..], k, v);
    }
  }

  /** A second assignment to the same key overwrites the first. */
  lemma {:induction false} PutTwice<K(!new), V>(d: Dict<K, V>, k: K, v: V, w: V)
    ensures Put(Put(d, k, v), k, w) == Put(d, k, w)
  {
    if |d| > 0 && d[0].0 != k {
      PutTwice(d[1..], k, v, w);
    }
  }

  /** Python's `d.values()`, in insertion order. */
  function ValuesOf<K, V>(d: Dict<K, V>): (vs: seq<V>)
    ensures |vs| == |d|
    ensures forall i :: 0 <= i < |d| ==> vs[i] == d[i].1
  {
    seq(|d|, i requires 0 <= i < |d| => d[i].1)
  }

  /** Python's `d.update(e)`: every entry of `e`, in order, assigned into `d`. */
  function Update<K(==,!new), V>(d: Dict<K, V>, e: Dict<K, V>): (r: Dict<K, V>)
    ensures forall k :: HasKey(r, k) <==> HasKey(d, k) || HasKey(e, k)
    ensures forall k :: !HasKey(e, k) ==> Get(r, k) == Get(d, k)
    decreases |e|
  {
    if |e| == 0 then d
    else
      PutKeys(d, e[0].0, e[0].1);
      assert forall k :: HasKey(e, k) <==> k == e[0].0 || HasKey(e[1..], k);
      Update(Put(d, e[0].0, e[0].1), e[1..])
  }

  /** On a dictionary with distinct keys, assigning to an existing key updates that entry in place. */
  lemma {:induction false} PutAt<K(!new), V>(d: Dict<K, V>, i: nat, v: V)
    requires DistinctKeys(d) && i < |d|
    ensures Put(d, d[i].0, v) == d[i := (d[i].0, v)]
  {
    if i > 0 {
      PutAt(d[1..], i - 1, v);
      assert d[1..][i - 1 := (d[i].0, v)] == d[i := (d[i].0, v)][1..];
    }
  }

  /** Assigning to a new key appends one entry. */
  lemma {:induction false} PutAppends<K(!new), V>(d: Dict<K, V>, k: K, v: V)
    requires !HasKey(d, k)
    ensures Put(d, k, v) == d + [(k, v)]
  {
    if |d| > 0 {
      assert Keys(d) == [d[0].0] + Keys(d[1..]);
      PutAppends(d[1..], k, v);
    }
  }

  /** The sum of `size` over the values, in order. */
  function Total<K, V>(d: Dict<K, V>, size: V -> int): int
  {
    if |d| == 0 then 0 else Total(d[..|d| - 1], size) + size(d[|d| - 1].1)
  }

  lemma {:induction false} TotalUpdate<K, V>(d: Dict<K, V>, i: nat, v: V, size: V -> int)
    requires i < |d|
    ensures Total(d[i := (d[i].0, v)], size) == Total(d, size) - size(d[i].1) + size(v)
  {
    var e := d[i := (d[i].0, v)];
    if i < |d| - 1 {
      TotalUpdate(d[..|d| - 1], i, v, size);
      assert e[..|e| - 1] == d[..|d| - 1][i := (d[i].0, v)];
    } else {
      assert e[..|e| - 1] == d[..|d| - 1];
    }
  }

  /** An assignment changes the total by the difference between the new value and the one it replaces. */
  lemma TotalPut<K(!new), V>(d: Dict<K, V>, k: K, v: V, size: V -> int)
    requires DistinctKeys(d)
    ensures Total(Put(d, k, v), size) == Total(d, size) - (if Get(d, k).Some? then size(Get(d, k).value) else 0) + size(v)
  {
    GetFinds(d, k);
    if HasKey(d, k) {
      var i :| 0 <= i < |d| && Keys(d)[i] == k;
      GetAt(d, i);
      PutAt(d, i, v);
      TotalUpdate(d, i, v, size);
    } else {
      PutAppends(d, k, v);
      assert (d + [(k, v)])[..|d|] == d;
    }
  }

  /** A lookup in a dictionary finds its last entry's key only when no earlier entry has it. */
  lemma LastGet<K, V>(d: Dict<K, V>, k: K)
    requires |d| > 0
    ensures Get(d, k) == if Get(d[..|d| - 1], k).Some? then Get(d[..|d| - 1], k)
                         else if d[|d| - 1].0 == k then Some(d[|d| - 1].1) else None
  {
    GetSplit(d[..|d| - 1], [d[|d| - 1]], k);
    assert d == d[..|d| - 1] + [d[|d| - 1]];
  }

  /** A lookup in a concatenation finds the first part's entry if it has one. */
  lemma {:induction false} GetSplit<K, V>(a: Dict<K, V>, b: Dict<K, V>, k: K)
    ensures Get(a + b, k) == if Get(a, k).Some? then Get(a, k) else Get(b, k)
  {
    if |a| > 0 {
      GetSplit(a[1..], b, k);
      assert (a + b)[1..] == a[1..] + b;
    } else {
      assert a + b == b;
    }
  }
}
