/**
 * The variation operators of the plan optimiser. A plan is a list of
 * action indices; crossover splits the actions two parent plans do not
 * share between two children, mutation flips the presence of each action
 * with a small probability. Every random draw is a parameter: `moeda(k)`
 * is the coin for the k-th unshared action, `muta(i)` says whether action
 * `i` is flipped, `sorteio` is the fallback draw.
 */
module Variation {
  /** No element occurs twice. */
  predicate Distinct<T(==)>(s: seq<T>)
  {
    forall i, j :: 0 <= i < j < |s| ==> s[i] != s[j]
  }

  lemma DistinctConcat<T>(a: seq<T>, b: seq<T>)
    requires Distinct(a) && Distinct(b)
    requires forall x :: x in a ==> x !in b
    ensures Distinct(a + b)
  {
    var c := a + b;
    forall i, j | 0 <= i < j < |c| ensures c[i] != c[j] {
      if j < |a| {
      } else if i >= |a| {
        assert c[i] == b[i - |a|] && c[j] == b[j - |a|];
      } else {
        assert c[i] in a && c[j] == b[j - |a|];
      }
    }
  }

  /**
   * `list(set(s))`: Python leaves the order of a set unspecified; the model
   * keeps every element once, in the order of its first appearance.
   */
  function Unique<T(==)>(s: seq<T>): seq<T>
  {
    if |s| == 0 then []
    else
      var u := Unique(s[..|s| - 1]);
      if s[|s| - 1] in u then u else u + [s[|s| - 1]]
  }

  lemma {:induction false} UniqueProperties<T>(s: seq<T>)
    ensures forall x :: x in Unique(s) <==> x in s
    ensures Distinct(Unique(s))
  {
    if |s| > 0 {
      var init := s[..|s| - 1];
      UniqueProperties(init);
      assert s == init + [s[|s| - 1]];
      if s[|s| - 1] !in Unique(init) {
        DistinctConcat(Unique(init), [s[|s| - 1]]);
      }
    }
  }

  /** The elements of `s` whose membership in `t` is `dentro`. */
  function Filter(s: seq<nat>, t: seq<nat>, dentro: bool): seq<nat>
  {
    if |s| == 0 then []
    else Filter(s[..|s| - 1], t, dentro) + (if (s[|s| - 1] in t) == dentro then [s[|s| - 1]] else [])
  }

  lemma {:induction false} FilterProperties(s: seq<nat>, t: seq<nat>, dentro: bool)
    ensures forall x :: x in Filter(s, t, dentro) <==> x in s && (x in t) == dentro
    ensures Distinct(s) ==> Distinct(Filter(s, t, dentro))
  {
    if |s| > 0 {
      var init := s[..|s| - 1];
      FilterProperties(init, t, dentro);
      assert s == init + [s[|s| - 1]];
      if Distinct(s) {
        assert Distinct(init);
        if (s[|s| - 1] in t) == dentro {
          DistinctConcat(Filter(init, t, dentro), [s[|s| - 1]]);
        }
      }
    }
  }

  /** The unshared actions in `xs` whose coin came up `lado`; the coin of `xs[k]` is `moeda(k)`. */
  function Deal(xs: seq<nat>, moeda: nat -> bool, lado: bool): seq<nat>
  {
    if |xs| == 0 then []
    else Deal(xs[..|xs| - 1], moeda, lado) + (if moeda(|xs| - 1) == lado then [xs[|xs| - 1]] else [])
  }

  lemma {:induction false} DealProperties(xs: seq<nat>, moeda: nat -> bool, lado: bool)
    requires Distinct(xs)
    ensures Distinct(Deal(xs, moeda, lado))
    ensures forall x :: x in Deal(xs, moeda, lado) ==> x in xs
    ensures forall k :: 0 <= k < |xs| ==> (xs[k] in Deal(xs, moeda, lado) <==> moeda(k) == lado)
  {
    if |xs| > 0 {
      var init := xs[..|xs| - 1];
      var last := xs[|xs| - 1];
      assert Distinct(init);
      DealProperties(init, moeda, lado);
      assert last !in init;
      if moeda(|xs| - 1) == lado {
        DistinctConcat(Deal(init, moeda, lado), [last]);
      }
      forall k | 0 <= k < |xs| ensures xs[k] in Deal(xs, moeda, lado) <==> moeda(k) == lado {
        if k < |xs| - 1 {
          assert xs[k] == init[k] && xs[k] != last;
        }
      }
    }
  }

  /** Dealing one more action appends it to the side its coin chose. */
  lemma DealSnoc(xs: seq<nat>, y: nat, moeda: nat -> bool, lado: bool)
    ensures Deal(xs + [y], moeda, lado) == Deal(xs, moeda, lado) + (if moeda(|xs|) == lado then [y] else [])
  {
    assert (xs + [y])[..|xs|] == xs;
  }

  /** `comuns`: the actions of both parents. */
  function Common(pai1: seq<nat>, pai2: seq<nat>): seq<nat>
  {
    Filter(Unique(pai1), pai2, true)
  }

  /** `so_pai1`: the actions only `pai1` has (the same call with the parents swapped gives `so_pai2`). */
  function Only(pai1: seq<nat>, pai2: seq<nat>): seq<nat>
  {
    Filter(Unique(pai1), pai2, false)
  }

  /** `_cruzar`: both children start from the shared actions; each unshared one goes to one child. */
  function Crossover(pai1: seq<nat>, pai2: seq<nat>, moeda: nat -> bool): (seq<nat>, seq<nat>)
  {
    var exclusivos := Only(pai1, pai2) + Only(pai2, pai1);
    (Common(pai1, pai2) + Deal(exclusivos, moeda, true), Common(pai1, pai2) + Deal(exclusivos, moeda, false))
  }

  lemma ExclusiveParts(pai1: seq<nat>, pai2: seq<nat>)
    ensures forall x :: x in Common(pai1, pai2) <==> x in pai1 && x in pai2
    ensures forall x :: x in Only(pai1, pai2) + Only(pai2, pai1) <==> (x in pai1) != (x in pai2)
    ensures Distinct(Common(pai1, pai2))
    ensures Distinct(Only(pai1, pai2) + Only(pai2, pai1))
  {
    UniqueProperties(pai1);
    UniqueProperties(pai2);
    FilterProperties(Unique(pai1), pai2, true);
    FilterProperties(Unique(pai1), pai2, false);
    FilterProperties(Unique(pai2), pai1, false);
    DistinctConcat(Only(pai1, pai2), Only(pai2, pai1));
  }

  /**
   * Crossover keeps the shared actions in both children, hands every
   * action only one parent has to exactly one child, adds nothing else,
   * and never repeats an action.
   */
  lemma CrossoverProperties(pai1: seq<nat>, pai2: seq<nat>, moeda: nat -> bool)
    ensures var (f1, f2) := Crossover(pai1, pai2, moeda);
      (forall x :: x in pai1 && x in pai2 ==> x in f1 && x in f2) &&
      (forall x :: (x in pai1) != (x in pai2) ==> (x in f1) != (x in f2)) &&
      (forall x :: x in f1 || x in f2 ==> x in pai1 || x in pai2) &&
      Distinct(f1) && Distinct(f2)
  {
    var comuns := Common(pai1, pai2);
    var exclusivos := Only(pai1, pai2) + Only(pai2, pai1);
    ExclusiveParts(pai1, pai2);
    DealProperties(exclusivos, moeda, true);
    DealProperties(exclusivos, moeda, false);
    DistinctConcat(comuns, Deal(exclusivos, moeda, true));
    DistinctConcat(comuns, Deal(exclusivos, moeda, false));
    forall x | (x in pai1) != (x in pai2)
      ensures (x in comuns + Deal(exclusivos, moeda, true)) != (x in comuns + Deal(exclusivos, moeda, false))
    {
      var k :| 0 <= k < |exclusivos| && exclusivos[k] == x;
    }
  }

  /** Python's `s.remove(x)`: the first occurrence of `x` removed. */
  function RemoveFirst(s: seq<nat>, x: nat): seq<nat>
  {
    if |s| == 0 then []
    else if s[0] == x then s[1..]
    else [s[0]] + RemoveFirst(s[1..], x)
  }

  lemma {:induction false} RemoveFirstProperties(s: seq<nat>, x: nat)
    requires Distinct(s)
    ensures Distinct(RemoveFirst(s, x))
    ensures forall y :: y in RemoveFirst(s, x) <==> y in s && y != x
  {
    if |s| > 0 {
      assert s == [s[0]] + s[1..];
      assert Distinct(s[1..]);
      if s[0] == x {
        assert forall y :: y in s[1..] ==> y != x;
      } else {
        RemoveFirstProperties(s[1..], x);
        DistinctConcat([s[0]], RemoveFirst(s[1..], x));
      }
    }
  }

  /** One step of the mutation loop: flip the presence of action `i` when `flip`. */
  function Toggle(s: seq<nat>, i: nat, flip: bool): seq<nat>
  {
    if !flip then s
    else if i in s then RemoveFirst(s, i)
    else s + [i]
  }

  /** The mutation loop over actions `0 .. n - 1`, in order. */
  function Toggles(s: seq<nat>, n: nat, muta: nat -> bool): seq<nat>
  {
    if n == 0 then s else Toggle(Toggles(s, n - 1, muta), n - 1, muta(n - 1))
  }

  /** Whether action `x` is in the plan after the flips: flipped ones below `n` change, the rest stay. */
  predicate Flipped(s: seq<nat>, n: nat, muta: nat -> bool, x: nat)
  {
    if x < n then (x in s) != muta(x) else x in s
  }

  lemma {:induction false} TogglesProperties(s: seq<nat>, n: nat, muta: nat -> bool)
    requires Distinct(s)
    ensures Distinct(Toggles(s, n, muta))
    ensures forall x :: x in Toggles(s, n, muta) <==> Flipped(s, n, muta, x)
  {
    if n > 0 {
      var prev := Toggles(s, n - 1, muta);
      TogglesProperties(s, n - 1, muta);
      if muta(n - 1) {
        if n - 1 in prev {
          RemoveFirstProperties(prev, n - 1);
        } else {
          DistinctConcat(prev, [n - 1]);
        }
      }
      forall x ensures x in Toggles(s, n, muta) <==> Flipped(s, n, muta, x) {
        assert x in prev <==> Flipped(s, n - 1, muta, x);
      }
    }
  }

  /** `_mutar`: the flips, then one drawn action when the plan came out empty. */
  function Mutation(s: seq<nat>, num: nat, muta: nat -> bool, sorteio: nat): seq<nat>
  {
    var m := Toggles(s, num, muta);
    if |m| == 0 && num > 0 then [sorteio % num] else m
  }

  /**
   * Mutation flips exactly the drawn actions below `num`, leaves the rest,
   * never repeats an action, and returns a non-empty plan whenever there
   * is an action to choose: only a plan the flips emptied gets the drawn
   * fallback action.
   */
  lemma MutationProperties(s: seq<nat>, num: nat, muta: nat -> bool, sorteio: nat)
    requires Distinct(s)
    ensures var r := Mutation(s, num, muta, sorteio);
      Distinct(r) && (num > 0 ==> |r| > 0) &&
      ((forall x :: x in r <==> Flipped(s, num, muta, x)) ||
       (r == [sorteio % num] && forall x :: !Flipped(s, num, muta, x)))
  {
    TogglesProperties(s, num, muta);
    var m := Toggles(s, num, muta);
    if |m| == 0 && num > 0 {
      forall x ensures !Flipped(s, num, muta, x) {
        assert x !in m;
      }
    }
  }

  /** Mutation only produces actions that exist when the plan already did. */
  lemma MutationInRange(s: seq<nat>, num: nat, muta: nat -> bool, sorteio: nat)
    requires Distinct(s)
    requires forall k :: 0 <= k < |s| ==> s[k] < num
    ensures forall x :: x in Mutation(s, num, muta, sorteio) ==> x < num
  {
    TogglesProperties(s, num, muta);
  }

  /**
   * One of `_cruzar`'s two distribution loops: every action of `xs` goes to
   * the first or the second child by its coin; `vistos` are the unshared
   * actions already dealt, so the coins continue where they stopped.
   */
  method Repartir(comuns: seq<nat>, vistos: seq<nat>, xs: seq<nat>, moeda: nat -> bool, f1: seq<nat>, f2: seq<nat>)
    returns (filho1: seq<nat>, filho2: seq<nat>)
    requires f1 == comuns + Deal(vistos, moeda, true) && f2 == comuns + Deal(vistos, moeda, false)
    ensures filho1 == comuns + Deal(vistos + xs, moeda, true)
    ensures filho2 == comuns + Deal(vistos + xs, moeda, false)
  {
    filho1, filho2 := f1, f2;
    var k := 0;
    var dados := vistos;
    while k < |xs|
      invariant 0 <= k <= |xs|
      invariant dados == vistos + xs[..k]
      invariant filho1 == comuns + Deal(dados, moeda, true)
      invariant filho2 == comuns + Deal(dados, moeda, false)
    {
      DealSnoc(dados, xs[k], moeda, true);
      DealSnoc(dados, xs[k], moeda, false);
      if moeda(|vistos| + k) {
        filho1 := filho1 + [xs[k]];
      } else {
        filho2 := filho2 + [xs[k]];
      }
      assert xs[..k + 1] == xs[..k] + [xs[k]];
      dados := dados + [xs[k]];
      k := k + 1;
    }
    assert xs[..k] == xs;
  }

  /** `_cruzar`: the shared actions, then the two distribution loops. */
  method Cruzar(pai1: seq<nat>, pai2: seq<nat>, moeda: nat -> bool) returns (filho1: seq<nat>, filho2: seq<nat>)
    ensures (filho1, filho2) == Crossover(pai1, pai2, moeda)
  {
    var comuns := Common(pai1, pai2);
    var soPai1 := Only(pai1, pai2);
    var soPai2 := Only(pai2, pai1);
    assert [] + soPai1 == soPai1;
    filho1, filho2 := Repartir(comuns, [], soPai1, moeda, comuns, comuns);
    filho1, filho2 := Repartir(comuns, soPai1, soPai2, moeda, filho1, filho2);
  }

  /** `_mutar`, loop by loop. */
  method Mutar(plano: seq<nat>, num: nat, muta: nat -> bool, sorteio: nat) returns (r: seq<nat>)
    ensures r == Mutation(plano, num, muta, sorteio)
  {
    r := plano;
    var i := 0;
    while i < num
      invariant 0 <= i <= num
      invariant r == Toggles(plano, i, muta)
    {
      if muta(i) {
        if i in r {
          r := RemoveFirst(r, i);
        } else {
          r := r + [i];
        }
      }
      i := i + 1;
    }
    if |r| == 0 && num > 0 {
      r := r + [sorteio % num];
    }
  }
}
