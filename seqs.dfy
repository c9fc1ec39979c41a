/** Sums, means and extrema of real sequences, and Python's bounded-history idioms. */
module Seqs {
  function Sum(s: seq<real>): real
  {
    if |s| == 0 then 0.0 else Sum(s[..|s| - 1]) + s[|s| - 1]
  }

  /** Python's `sum(s) / len(s)` (numpy's `mean`) on a non-empty list. */
  function Mean(s: seq<real>): real
    requires |s| > 0
  {
    Sum(s) / |s| as real
  }

  function Min(s: seq<real>): (m: real)
    requires |s| > 0
    ensures forall i :: 0 <= i < |s| ==> m <= s[i]
    ensures exists i :: 0 <= i < |s| && m == s[i]
  {
    if |s| == 1 then s[0]
    else
      var m := Min(s[..|s| - 1]);
      if s[|s| - 1] < m then s[|s| - 1] else m
  }

  function Max(s: seq<real>): (m: real)
    requires |s| > 0
    ensures forall i :: 0 <= i < |s| ==> s[i] <= m
    ensures exists i :: 0 <= i < |s| && m == s[i]
  {
    if |s| == 1 then s[0]
    else
      var m := Max(s[..|s| - 1]);
      if s[|s| - 1] > m then s[|s| - 1] else m
  }

  /** A sum lies between count times the smallest and count times the largest bound. */
  lemma {:induction false} SumBounds(s: seq<real>, lo: real, hi: real)
    requires forall i :: 0 <= i < |s| ==> lo <= s[i] <= hi
    ensures |s| as real * lo <= Sum(s) <= |s| as real * hi
  {
    if |s| > 0 {
      SumBounds(s[..|s| - 1], lo, hi);
    }
  }

  /** A sum of non-negative samples is non-negative. */
  lemma {:induction false} SumNonNegative(s: seq<real>)
    requires forall i :: 0 <= i < |s| ==> 0.0 <= s[i]
    ensures 0.0 <= Sum(s)
  {
    if |s| > 0 {
      SumNonNegative(s[..|s| - 1]);
    }
  }

  /** The mean lies between the smallest and the largest sample. */
  lemma MeanBounds(s: seq<real>)
    requires |s| > 0
    ensures Min(s) <= Mean(s) <= Max(s)
  {
    var lo, hi := Min(s), Max(s);
    SumBounds(s, lo, hi);
    MeanBetween(s, lo, hi);
  }

  lemma MeanBetween(s: seq<real>, lo: real, hi: real)
    requires |s| > 0
    requires |s| as real * lo <= Sum(s) <= |s| as real * hi
    ensures lo <= Mean(s) <= hi
  {
    DivBetween(Sum(s), |s| as real, lo, hi);
  }

  lemma DivBetween(a: real, n: real, lo: real, hi: real)
    requires n > 0.0 && n * lo <= a <= n * hi
    ensures lo <= a / n <= hi
  {
  }

  /**
   * The contents of a Python `deque(maxlen=cap)` after its elements were
   * appended in the order `s`: the newest `cap` of them.
   */
  function Newest<T>(s: seq<T>, cap: nat): (r: seq<T>)
    ensures |r| == if |s| <= cap then |s| else cap
    ensures r == s[|s| - |r|..]
  {
    if |s| <= cap then s else s[|s| - cap..]
  }

  /** Appending to a bounded deque one batch at a time keeps the newest elements overall. */
  lemma NewestAppend<T>(a: seq<T>, b: seq<T>, cap: nat)
    ensures Newest(Newest(a, cap) + b, cap) == Newest(a + b, cap)
  {
    var na := Newest(a, cap);
    var l := Newest(na + b, cap);
    var r := Newest(a + b, cap);
    assert |l| == |r|;
    forall i | 0 <= i < |l| ensures l[i] == r[i] {
      var j := |na + b| - |l| + i;
      var k := |a + b| - |r| + i;
      if j < |na| {
        assert l[i] == na[j] == a[|a| - |na| + j];
        assert k == |a| - |na| + j;
      } else {
        assert l[i] == b[j - |na|];
      }
    }
  }

  /**
   * Python's slice `s[-n:]`. For n == 0 this is `s[0:]`, the whole list,
   * because `-0 == 0`; for n > len(s) it is the whole list as well.
   */
  function PyLast<T>(s: seq<T>, n: nat): (r: seq<T>)
    ensures n == 0 || n >= |s| ==> r == s
    ensures 0 < n <= |s| ==> |r| == n && r == s[|s| - n..]
  {
    if n == 0 || n >= |s| then s else s[|s| - n..]
  }

  /**
   * Python's `if len(s) > m: s = s[-m:]`. With `m == 0` the slice `s[-0:]`
   * is the whole list, so nothing is dropped.
   */
  function Capped<T>(s: seq<T>, m: nat): seq<T>
  {
    if |s| > m then PyLast(s, m) else s
  }

  /**
   * `m.setdefault(k, []).append(x)` on a list that then keeps its newest
   * `cap` entries (all of them for a zero cap).
   */
  function AppendCapped<T>(m: map<string, seq<T>>, k: string, x: T, cap: nat): map<string, seq<T>>
  {
    m[k := Capped((if k in m then m[k] else []) + [x], cap)]
  }

  /** A capped list holds the newest `m` elements at most; a zero cap keeps everything. */
  lemma CappedBound<T>(s: seq<T>, m: nat)
    ensures m > 0 ==> |Capped(s, m)| == if |s| <= m then |s| else m
    ensures Capped(s, m) == s[|s| - |Capped(s, m)|..]
    ensures m == 0 ==> Capped(s, m) == s
  {
  }

  /** `[f(s[0], 0), f(s[1], 1), …]`: a list comprehension over the elements and their positions. */
  function MapIndexed<A, B>(s: seq<A>, f: (A, nat) -> B): seq<B>
  {
    if |s| == 0 then [] else MapIndexed(s[..|s| - 1], f) + [f(s[|s| - 1], |s| - 1)]
  }

  /** `[f(0), f(1), …, f(n - 1)]`. */
  function Tabulate<B>(n: nat, f: nat -> B): (r: seq<B>)
    ensures |r| == n
  {
    if n == 0 then [] else Tabulate(n - 1, f) + [f(n - 1)]
  }

  /** The `i`-th element of the table is `f(i)`. */
  lemma {:induction false} TabulateAt<B>(n: nat, f: nat -> B)
    ensures forall i :: 0 <= i < n ==> Tabulate(n, f)[i] == f(i)
  {
    if n > 0 {
      TabulateAt(n - 1, f);
    }
  }

  /** Extending the input by its next element extends the comprehension by that element's image. */
  lemma MapIndexedStep<A, B>(s: seq<A>, k: nat, f: (A, nat) -> B)
    requires k < |s|
    ensures MapIndexed(s[..k + 1], f) == MapIndexed(s[..k], f) + [f(s[k], k)]
  {
    assert s[..k + 1][..k] == s[..k];
  }

  /** The comprehension keeps the length, and its `k`-th element is `f` of the `k`-th element and `k`. */
  lemma {:induction false} MapIndexedAt<A, B>(s: seq<A>, f: (A, nat) -> B)
    ensures |MapIndexed(s, f)| == |s|
    ensures forall k :: 0 <= k < |s| ==> MapIndexed(s, f)[k] == f(s[k], k)
  {
    if |s| > 0 {
      var init := s[..|s| - 1];
      MapIndexedAt(init, f);
      assert forall k :: 0 <= k < |init| ==> init[k] == s[k];
    }
  }
}
