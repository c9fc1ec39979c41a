/**
 * String helpers shared by the Python and Go models: decimal rendering of
 * integers (Python's `str(int)`, `int(x)` on a float, Go's `%d`), substring
 * search (Python's `a in b`) and Python's `str.replace`.
 */
module Text {
  function DigitChar(d: nat): char
    requires d < 10
  {
    "0123456789"[d]
  }

  predicate IsDigits(s: string)
  {
    forall i :: 0 <= i < |s| ==> '0' <= s[i] <= '9'
  }

  /** Decimal rendering of a natural number, without leading zeros. */
  function NatText(n: nat): (s: string)
    ensures |s| >= 1 && IsDigits(s)
    ensures n > 0 ==> s[0] != '0'
    decreases n
  {
    if n < 10 then [DigitChar(n)] else NatText(n / 10) + [DigitChar(n % 10)]
  }

  /** Python's `str(i)` for an int, Go's `fmt.Sprintf("%d", i)`. */
  function IntText(i: int): string
  {
    if i < 0 then "-" + NatText(-i) else NatText(i)
  }

  /** The value a decimal digit string denotes. */
  function DigitsValue(s: string): nat
    requires IsDigits(s)
  {
    if |s| == 0 then 0
    else
      10 * DigitsValue(s[..|s| - 1]) + (s[|s| - 1] as int - '0' as int)
  }

  /** Reading back the rendering of `n` gives `n`; so the rendering is injective. */
  lemma {:induction false} NatTextRoundTrip(n: nat)
    ensures DigitsValue(NatText(n)) == n
  {
    if n >= 10 {
      var q, r := n / 10, n % 10;
      NatTextRoundTrip(q);
      var s := NatText(n);
      assert s == NatText(q) + [DigitChar(r)];
      assert s[..|s| - 1] == NatText(q) && s[|s| - 1] == DigitChar(r);
      DigitCharValue(r);
      assert 10 * q + r == n;
    }
  }

  lemma DigitCharValue(d: nat)
    requires d < 10
    ensures DigitChar(d) as int - '0' as int == d
  {
  }

  lemma NatTextInjective(m: nat, n: nat)
    requires NatText(m) == NatText(n)
    ensures m == n
  {
    NatTextRoundTrip(m);
    NatTextRoundTrip(n);
  }

  /** Python's `int(x)` on a float: truncation toward zero. */
  function Trunc(x: real): (i: int)
    ensures x >= 0.0 ==> i as real <= x < i as real + 1.0
    ensures x < 0.0 ==> i as real - 1.0 < x <= i as real
  {
    if x >= 0.0 then x.Floor else -((-x).Floor)
  }

  /** Python's `p in s` on strings: `p` occurs at some position of `s`. */
  predicate Contains(s: string, p: string)
  {
    exists i :: 0 <= i <= |s| && OccursAt(s, p, i)
  }

  predicate OccursAt(s: string, p: string, i: int)
  {
    0 <= i && i + |p| <= |s| && s[i..i + |p|] == p
  }

  /** Python's `s.replace(p, "")` target: occurrences are found left to right without overlap. */
  function Replace(s: string, p: string, rep: string): (r: string)
    decreases |s|
  {
    if |p| == 0 then Interleave(s, rep)
    else if |s| < |p| then s
    else if s[..|p|] == p then rep + Replace(s[|p|..], p, rep)
    else [s[0]] + Replace(s[1..], p, rep)
  }

  /** Python's `s.replace("", rep)`: `rep` before every character and at the end. */
  function Interleave(s: string, rep: string): string
  {
    if |s| == 0 then rep else rep + [s[0]] + Interleave(s[1..], rep)
  }

  lemma ContainsShift(s: string, p: string)
    requires |s| > 0 && Contains(s[1..], p)
    ensures Contains(s, p)
  {
    var i :| 0 <= i <= |s[1..]| && OccursAt(s[1..], p, i);
    assert s[i + 1..i + 1 + |p|] == p;
    assert OccursAt(s, p, i + 1);
  }

  /** A string without an occurrence of the pattern is left as it is. */
  lemma {:induction false} ReplaceAbsent(s: string, p: string, rep: string)
    requires |p| > 0 && !Contains(s, p)
    ensures Replace(s, p, rep) == s
    decreases |s|
  {
    if |s| >= |p| {
      assert !OccursAt(s, p, 0);
      if Contains(s[1..], p) {
        ContainsShift(s, p);
      }
      ReplaceAbsent(s[1..], p, rep);
      assert [s[0]] + s[1..] == s;
    }
  }

  /** An occurrence of the pattern at the front is replaced. */
  lemma ReplaceFront(p: string, rep: string, rest: string)
    requires |p| > 0
    ensures Replace(p + rest, p, rep) == rep + Replace(rest, p, rep)
  {
    assert (p + rest)[..|p|] == p;
    assert (p + rest)[|p|..] == rest;
  }
}
