/**
 * Python's `list.sort(key=...)` and `sorted(..., key=...)` are stable sorts.
 * `SortBy` is a stable insertion sort on a real-valued key; the lemmas show
 * that it orders by the key, permutes its input, keeps the relative order
 * of elements with equal keys, and leaves an already ordered input as it is.
 * A descending sort (`reverse=True`, also stable in Python) is `SortBy`
 * on the negated key.
 */
module Sorting {
  /** Inserts `x` after every element whose key is not greater than its own. */
  function Insert<T>(s: seq<T>, x: T, key: T -> real): seq<T>
  {
    if |s| == 0 then [x]
    else if key(x) < key(s[0]) then [x] + s
    else [s[0]] + Insert(s[1..], x, key)
  }

  function SortBy<T>(s: seq<T>, key: T -> real): seq<T>
  {
    if |s| == 0 then [] else Insert(SortBy(s[..|s| - 1], key), s[|s| - 1], key)
  }

  ghost predicate Ascending<T>(s: seq<T>, key: T -> real)
  {
    forall i, j :: 0 <= i < j < |s| ==> key(s[i]) <= key(s[j])
  }

  /** The elements of `s` whose key is `k`, in their order in `s`. */
  function WithKey<T>(s: seq<T>, key: T -> real, k: real): seq<T>
  {
    if |s| == 0 then []
    else if key(s[|s| - 1]) == k then WithKey(s[..|s| - 1], key, k) + [s[|s| - 1]]
    else WithKey(s[..|s| - 1], key, k)
  }

  /** Stability: within each key, the order of the input is kept. */
  ghost predicate SameOrderPerKey<T>(s: seq<T>, t: seq<T>, key: T -> real)
  {
    forall k :: WithKey(s, key, k) == WithKey(t, key, k)
  }

  lemma {:induction false} InsertAscending<T>(s: seq<T>, x: T, key: T -> real)
    requires Ascending(s, key)
    ensures Ascending(Insert(s, x, key), key)
    ensures |Insert(s, x, key)| == |s| + 1
    ensures forall i :: 0 <= i < |Insert(s, x, key)| ==> Insert(s, x, key)[i] in s || Insert(s, x, key)[i] == x
  {
    if |s| > 0 && key(x) >= key(s[0]) {
      InsertAscending(s[1..], x, key);
      var r := Insert(s[1..], x, key);
      forall j | 0 <= j < |r| ensures key(s[0]) <= key(r[j]) {
        if r[j] != x { assert r[j] in s[1..]; }
      }
    }
  }

  lemma {:induction false} SortByAscending<T>(s: seq<T>, key: T -> real)
    ensures Ascending(SortBy(s, key), key)
    ensures |SortBy(s, key)| == |s|
  {
    if |s| > 0 {
      SortByAscending(s[..|s| - 1], key);
      InsertAscending(SortBy(s[..|s| - 1], key), s[|s| - 1], key);
    }
  }

  lemma {:induction false} InsertPermutes<T>(s: seq<T>, x: T, key: T -> real)
    ensures multiset(Insert(s, x, key)) == multiset(s) + multiset{x}
  {
    if |s| > 0 && key(x) >= key(s[0]) {
      InsertPermutes(s[1..], x, key);
      assert s == [s[0]] + s[1..];
    }
  }

  /** The sort returns a permutation of its input. */
  lemma {:induction false} SortByPermutes<T>(s: seq<T>, key: T -> real)
    ensures multiset(SortBy(s, key)) == multiset(s)
  {
    if |s| > 0 {
      SortByPermutes(s[..|s| - 1], key);
      InsertPermutes(SortBy(s[..|s| - 1], key), s[|s| - 1], key);
      assert s == s[..|s| - 1] + [s[|s| - 1]];
    }
  }

  lemma {:induction false} WithKeyAppend<T>(s: seq<T>, t: seq<T>, key: T -> real, k: real)
    ensures WithKey(s + t, key, k) == WithKey(s, key, k) + WithKey(t, key, k)
    decreases |t|
  {
    if |t| > 0 {
      assert (s + t)[..|s + t| - 1] == s + t[..|t| - 1];
      WithKeyAppend(s, t[..|t| - 1], key, k);
    } else {
      assert s + t == s;
    }
  }

  lemma {:induction false} WithKeyNone<T>(s: seq<T>, key: T -> real, k: real)
    requires forall i :: 0 <= i < |s| ==> key(s[i]) != k
    ensures WithKey(s, key, k) == []
  {
    if |s| > 0 {
      WithKeyNone(s[..|s| - 1], key, k);
    }
  }

  lemma WithKeySingle<T>(x: T, key: T -> real, k: real)
    ensures WithKey([x], key, k) == if key(x) == k then [x] else []
  {
    assert [x][..0] == [];
  }

  lemma {:induction false} InsertKeepsKeyOrder<T>(s: seq<T>, x: T, key: T -> real, k: real)
    requires Ascending(s, key)
    ensures WithKey(Insert(s, x, key), key, k) == WithKey(s, key, k) + WithKey([x], key, k)
  {
    WithKeySingle(x, key, k);
    if |s| == 0 {
      assert Insert(s, x, key) == [x];
    } else if key(x) < key(s[0]) {
      InsertFrontKeepsKeyOrder(s, x, key, k);
    } else {
      var rest := Insert(s[1..], x, key);
      assert Insert(s, x, key) == [s[0]] + rest;
      assert Ascending(s[1..], key);
      InsertKeepsKeyOrder(s[1..], x, key, k);
      WithKeyAppend([s[0]], rest, key, k);
      WithKeyAppend([s[0]], s[1..], key, k);
      assert [s[0]] + s[1..] == s;
    }
  }

  lemma InsertFrontKeepsKeyOrder<T>(s: seq<T>, x: T, key: T -> real, k: real)
    requires Ascending(s, key) && |s| > 0 && key(x) < key(s[0])
    ensures WithKey([x] + s, key, k) == WithKey(s, key, k) + WithKey([x], key, k)
  {
    WithKeySingle(x, key, k);
    WithKeyAppend([x], s, key, k);
    if key(x) == k {
      forall i | 0 <= i < |s| ensures key(s[i]) != k {
        assert i == 0 || key(s[0]) <= key(s[i]);
      }
      WithKeyNone(s, key, k);
    }
  }

  /** The sort is stable: elements with equal keys keep their input order. */
  lemma {:induction false} SortByStable<T>(s: seq<T>, key: T -> real)
    ensures SameOrderPerKey(s, SortBy(s, key), key)
  {
    if |s| > 0 {
      SortByStable(s[..|s| - 1], key);
      SortByAscending(s[..|s| - 1], key);
      var init, last := s[..|s| - 1], s[|s| - 1];
      var sorted := SortBy(init, key);
      assert SortBy(s, key) == Insert(sorted, last, key);
      assert init + [last] == s;
      forall k ensures WithKey(s, key, k) == WithKey(SortBy(s, key), key, k) {
        InsertKeepsKeyOrder(sorted, last, key, k);
        WithKeyAppend(init, [last], key, k);
        assert WithKey(init, key, k) == WithKey(sorted, key, k);
      }
    }
  }

  /** Sorting an ascending sequence changes nothing. */
  lemma {:induction false} SortBySorted<T>(s: seq<T>, key: T -> real)
    requires Ascending(s, key)
    ensures SortBy(s, key) == s
  {
    if |s| > 0 {
      var init := s[..|s| - 1];
      SortBySorted(init, key);
      InsertAtEnd(init, s[|s| - 1], key);
      assert init + [s[|s| - 1]] == s;
    }
  }

  lemma {:induction false} InsertAtEnd<T>(s: seq<T>, x: T, key: T -> real)
    requires forall i :: 0 <= i < |s| ==> key(s[i]) <= key(x)
    ensures Insert(s, x, key) == s + [x]
  {
    if |s| > 0 {
      InsertAtEnd(s[1..], x, key);
      assert [s[0]] + (s[1..] + [x]) == s + [x];
    }
  }
}
