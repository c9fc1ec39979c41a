/**
 * The multi-objective score the plan optimiser gives a candidate plan: a
 * plan is a list of indices into the available actions, and is scored on
 * efficacy (combined estimated impact), risk, total time and the number of
 * distinct resources it needs, each normalised to [0, 1] with 1 best.
 */
module Fitness {
  import opened Dicts
  import opened Seqs
  import opened Actions

  const PesoEficacia: real := 0.4
  const PesoRisco: real := 0.3
  const PesoTempo: real := 0.2
  const PesoRecursos: real := 0.1
  /** One hour, the reference duration. */
  const TempoMax: real := 3600.0
  /** The reference number of distinct resources. */
  const RecursosMax: real := 10.0

  datatype Scores = Scores(eficacia: real, risco: real, tempo: real, recursos: real, total: real)

  /** The score of the empty plan. */
  const Zero := Scores(0.0, 0.0, 0.0, 0.0, 0.0)

  /** A plan only names actions that exist. */
  predicate InRange(plano: seq<nat>, n: nat)
  {
    forall k :: 0 <= k < |plano| ==> plano[k] < n
  }

  /** `[acoes[i] for i in plano]`. */
  function Pick(plano: seq<nat>, acoes: seq<Acao>): (r: seq<Acao>)
    requires InRange(plano, |acoes|)
    ensures |r| == |plano|
    ensures forall k :: 0 <= k < |plano| ==> r[k] == acoes[plano[k]]
  {
    seq(|plano|, k requires 0 <= k < |plano| => acoes[plano[k]])
  }

  /**
   * Adding an impact to the one already combined on a dimension: the part
   * still missing shrinks by the factor `1 - impacto`, so impacts combine
   * like independent probabilities and never pass 1.
   */
  function Combine(atual: real, impacto: real): real
  {
    atual + impacto * (1.0 - atual)
  }

  /** Combining shrinks the missing part by the factor one minus the impact. */
  lemma CombineMissing(atual: real, impacto: real)
    ensures 1.0 - Combine(atual, impacto) == (1.0 - atual) * (1.0 - impacto)
  {
  }

  /** Combining two values of [0, 1] stays in [0, 1] and never lowers the current one. */
  lemma CombineBounds(atual: real, impacto: real)
    requires 0.0 <= atual <= 1.0 && 0.0 <= impacto <= 1.0
    ensures atual <= Combine(atual, impacto) <= 1.0
  {
    ProductBounds(impacto, 1.0 - atual);
    assert impacto * (1.0 - atual) <= 1.0 - atual;
  }

  lemma ProductBounds(x: real, y: real)
    requires 0.0 <= x <= 1.0 && 0.0 <= y
    ensures 0.0 <= x * y <= y
  {
  }

  /** The inner loop: every dimension of one action's impact folded into `d`, in order. */
  function AddImpacts(d: Dict<string, real>, impacto: Dict<string, real>): Dict<string, real>
    decreases |impacto|
  {
    if |impacto| == 0 then d
    else
      var dim := impacto[0].0;
      AddImpacts(Put(d, dim, Combine(GetOr(d, dim, 0.0), impacto[0].1)), impacto[1..])
  }

  /** The outer loop: the impacts of every action folded into `d`, in order. */
  function Accumulate(d: Dict<string, real>, acoes: seq<Acao>): Dict<string, real>
    decreases |acoes|
  {
    if |acoes| == 0 then d else Accumulate(AddImpacts(d, acoes[0].impacto), acoes[1..])
  }

  /** `impacto_combinado` of a plan's actions. */
  function CombinedImpacts(acoes: seq<Acao>): Dict<string, real>
  {
    Accumulate([], acoes)
  }

  /** The impacts that `impacto` lists for `dim`, in order. */
  function DimImpacts(impacto: Dict<string, real>, dim: string): seq<real>
  {
    if |impacto| == 0 then []
    else (if impacto[0].0 == dim then [impacto[0].1] else []) + DimImpacts(impacto[1..], dim)
  }

  /** The product of `1 - i` over the impacts `i`. */
  function Complements(impactos: seq<real>): real
  {
    if |impactos| == 0 then 1.0 else (1.0 - impactos[0]) * Complements(impactos[1..])
  }

  /** The value `c` after combining each impact into it, in order. */
  function CombineAll(c: real, impactos: seq<real>): real
    decreases |impactos|
  {
    if |impactos| == 0 then c else CombineAll(Combine(c, impactos[0]), impactos[1..])
  }

  /** The product of `1 - i` over the impacts `i` that `impacto` lists for `dim`. */
  function ImpactResidual(impacto: Dict<string, real>, dim: string): real
  {
    Complements(DimImpacts(impacto, dim))
  }

  /** The impacts every action lists for `dim`, action by action. */
  function AllDimImpacts(acoes: seq<Acao>, dim: string): seq<real>
  {
    if |acoes| == 0 then [] else DimImpacts(acoes[0].impacto, dim) + AllDimImpacts(acoes[1..], dim)
  }

  /** The product of `1 - i` over every impact `i` on `dim` of every action. */
  function Residual(acoes: seq<Acao>, dim: string): real
  {
    Complements(AllDimImpacts(acoes, dim))
  }

  /** Combining two runs of impacts is combining the first, then the second. */
  lemma {:induction false} CombineAllConcat(c: real, a: seq<real>, b: seq<real>)
    ensures CombineAll(c, a + b) == CombineAll(CombineAll(c, a), b)
    decreases |a|
  {
    if |a| > 0 {
      CombineAllConcat(Combine(c, a[0]), a[1..], b);
      assert (a + b)[1..] == a[1..] + b;
    } else {
      assert a + b == b;
    }
  }

  /** Folding every action's impacts into `d` combines, on `dim`, exactly the impacts listed for `dim`. */
  lemma {:induction false} AccumulateOnDim(d: Dict<string, real>, acoes: seq<Acao>, dim: string)
    ensures GetOr(Accumulate(d, acoes), dim, 0.0) == CombineAll(GetOr(d, dim, 0.0), AllDimImpacts(acoes, dim))
    decreases |acoes|
  {
    if |acoes| > 0 {
      var d1 := AddImpacts(d, acoes[0].impacto);
      AccumulateOnDim(d1, acoes[1..], dim);
      AddImpactsOnDim(d, acoes[0].impacto, dim);
      CombineAllConcat(GetOr(d, dim, 0.0), DimImpacts(acoes[0].impacto, dim), AllDimImpacts(acoes[1..], dim));
    }
  }

  /** Folding one action's impacts into `d` combines, on `dim`, exactly the impacts listed for `dim`. */
  lemma {:induction false} AddImpactsOnDim(d: Dict<string, real>, impacto: Dict<string, real>, dim: string)
    ensures GetOr(AddImpacts(d, impacto), dim, 0.0) == CombineAll(GetOr(d, dim, 0.0), DimImpacts(impacto, dim))
    decreases |impacto|
  {
    if |impacto| > 0 {
      var k := impacto[0].0;
      var d1 := Put(d, k, Combine(GetOr(d, k, 0.0), impacto[0].1));
      AddImpactsOnDim(d1, impacto[1..], dim);
      var rest := DimImpacts(impacto[1..], dim);
      if k == dim {
        assert DimImpacts(impacto, dim) == [impacto[0].1] + rest;
        assert ([impacto[0].1] + rest)[1..] == rest;
      } else {
        assert DimImpacts(impacto, dim) == rest;
      }
    }
  }

  /** Combining impacts one after the other leaves missing the product of their complements. */
  lemma {:induction false} CombineAllClosedForm(c: real, impactos: seq<real>)
    ensures CombineAll(c, impactos) == 1.0 - (1.0 - c) * Complements(impactos)
    decreases |impactos|
  {
    if |impactos| > 0 {
      var c1 := Combine(c, impactos[0]);
      CombineAllClosedForm(c1, impactos[1..]);
      CombineMissing(c, impactos[0]);
      ResidualStep(c, c1, 1.0 - impactos[0], Complements(impactos[1..]), Complements(impactos), CombineAll(c, impactos));
    }
  }

  lemma AddImpactsClosedForm(d: Dict<string, real>, impacto: Dict<string, real>, dim: string)
    ensures GetOr(AddImpacts(d, impacto), dim, 0.0) == 1.0 - (1.0 - GetOr(d, dim, 0.0)) * ImpactResidual(impacto, dim)
  {
    AddImpactsOnDim(d, impacto, dim);
    CombineAllClosedForm(GetOr(d, dim, 0.0), DimImpacts(impacto, dim));
  }

  /** One step of the closed forms, on plain reals. */
  lemma ResidualStep(c: real, c1: real, factor: real, rest: real, r: real, x: real)
    requires 1.0 - c1 == (1.0 - c) * factor
    requires r == factor * rest
    requires x == 1.0 - (1.0 - c1) * rest
    ensures x == 1.0 - (1.0 - c) * r
  {
    Associate(1.0 - c, factor, rest);
  }

  lemma Associate(a: real, b: real, c: real)
    ensures (a * b) * c == a * (b * c)
  {
  }

  lemma AccumulateClosedForm(d: Dict<string, real>, acoes: seq<Acao>, dim: string)
    ensures GetOr(Accumulate(d, acoes), dim, 0.0) == 1.0 - (1.0 - GetOr(d, dim, 0.0)) * Residual(acoes, dim)
  {
    AccumulateOnDim(d, acoes, dim);
    CombineAllClosedForm(GetOr(d, dim, 0.0), AllDimImpacts(acoes, dim));
  }

  /**
   * The combined impact on a dimension is one minus the product of the
   * complements of every impact on it: the order of the actions and of
   * their dimensions does not matter.
   */
  lemma CombinedClosedForm(acoes: seq<Acao>, dim: string)
    ensures GetOr(CombinedImpacts(acoes), dim, 0.0) == 1.0 - Residual(acoes, dim)
  {
    AccumulateClosedForm([], acoes, dim);
  }

  /** Every estimated impact lies in [0, 1]. */
  predicate UnitImpacts(acoes: seq<Acao>)
  {
    forall a, k :: a in acoes && 0 <= k < |a.impacto| ==> 0.0 <= a.impacto[k].1 <= 1.0
  }

  predicate UnitValues(d: Dict<string, real>)
  {
    forall i :: 0 <= i < |d| ==> 0.0 <= d[i].1 <= 1.0
  }

  lemma {:induction false} AddImpactsBounded(d: Dict<string, real>, impacto: Dict<string, real>)
    requires UnitValues(d)
    requires forall k :: 0 <= k < |impacto| ==> 0.0 <= impacto[k].1 <= 1.0
    ensures UnitValues(AddImpacts(d, impacto))
    decreases |impacto|
  {
    if |impacto| > 0 {
      var dim := impacto[0].0;
      var atual := GetOr(d, dim, 0.0);
      GetFinds(d, dim);
      CombineBounds(atual, impacto[0].1);
      PutEntries(d, dim, Combine(atual, impacto[0].1));
      AddImpactsBounded(Put(d, dim, Combine(atual, impacto[0].1)), impacto[1..]);
    }
  }

  lemma {:induction false} AccumulateBounded(d: Dict<string, real>, acoes: seq<Acao>)
    requires UnitValues(d) && UnitImpacts(acoes)
    ensures UnitValues(Accumulate(d, acoes))
    decreases |acoes|
  {
    if |acoes| > 0 {
      AddImpactsBounded(d, acoes[0].impacto);
      assert UnitImpacts(acoes[1..]) by {
        forall a | a in acoes[1..] ensures a in acoes {
        }
      }
      AccumulateBounded(AddImpacts(d, acoes[0].impacto), acoes[1..]);
    }
  }

  /** `sum(impacto_combinado.values()) / max(1, len(impacto_combinado))`. */
  function Efficacy(d: Dict<string, real>): real
  {
    Sum(ValuesOf(d)) / (if |d| > 0 then |d| as real else 1.0)
  }

  lemma EfficacyBounds(d: Dict<string, real>)
    requires UnitValues(d)
    ensures 0.0 <= Efficacy(d) <= 1.0
  {
    SumBounds(ValuesOf(d), 0.0, 1.0);
    if |d| > 0 {
      DivBetween(Sum(ValuesOf(d)), |d| as real, 0.0, 1.0);
    }
  }

  function Prioridades(acoes: seq<Acao>): (r: seq<real>)
    ensures |r| == |acoes|
  {
    seq(|acoes|, i requires 0 <= i < |acoes| => acoes[i].prioridade)
  }

  function Riscos(acoes: seq<Acao>): (r: seq<real>)
    ensures |r| == |acoes|
  {
    seq(|acoes|, i requires 0 <= i < |acoes| => acoes[i].risco)
  }

  function RiscosPonderados(acoes: seq<Acao>): (r: seq<real>)
    ensures |r| == |acoes|
  {
    seq(|acoes|, i requires 0 <= i < |acoes| => Weight(acoes[i]))
  }

  function Tempos(acoes: seq<Acao>): (r: seq<real>)
    ensures |r| == |acoes|
  {
    seq(|acoes|, i requires 0 <= i < |acoes| => acoes[i].tempo)
  }

  /** The plan's risk: weighted by priority when the priorities add up to more than 0, else the plain mean. */
  function PlanRisk(acoes: seq<Acao>): real
    requires |acoes| > 0
  {
    var somaPrioridades := Sum(Prioridades(acoes));
    if somaPrioridades > 0.0 then Sum(RiscosPonderados(acoes)) / somaPrioridades
    else Sum(Riscos(acoes)) / |acoes| as real
  }

  /** Every risk in [0, 1], every priority and duration non-negative. */
  predicate WellFormed(acoes: seq<Acao>)
  {
    UnitImpacts(acoes) &&
    forall a :: a in acoes ==> 0.0 <= a.risco <= 1.0 && 0.0 <= a.prioridade && 0.0 <= a.tempo
  }

  lemma {:induction false} WeightedSumBounds(acoes: seq<Acao>)
    requires forall a :: a in acoes ==> 0.0 <= a.risco <= 1.0 && 0.0 <= a.prioridade
    ensures 0.0 <= Sum(RiscosPonderados(acoes)) <= Sum(Prioridades(acoes))
  {
    if |acoes| > 0 {
      var init := acoes[..|acoes| - 1];
      var last := acoes[|acoes| - 1];
      assert forall a :: a in init ==> a in acoes;
      WeightedSumBounds(init);
      assert last in acoes;
      WeightBounds(last);
      SumsSnoc(acoes);
    }
  }

  lemma SumsSnoc(acoes: seq<Acao>)
    requires |acoes| > 0
    ensures Sum(RiscosPonderados(acoes)) == Sum(RiscosPonderados(acoes[..|acoes| - 1])) + Weight(acoes[|acoes| - 1])
    ensures Sum(Prioridades(acoes)) == Sum(Prioridades(acoes[..|acoes| - 1])) + acoes[|acoes| - 1].prioridade
  {
    var init := acoes[..|acoes| - 1];
    var rp, p := RiscosPonderados(acoes), Prioridades(acoes);
    assert rp[..|acoes| - 1] == RiscosPonderados(init) by {
      assert forall i :: 0 <= i < |init| ==> rp[i] == RiscosPonderados(init)[i];
    }
    assert p[..|acoes| - 1] == Prioridades(init) by {
      assert forall i :: 0 <= i < |init| ==> p[i] == Prioridades(init)[i];
    }
  }

  /** An action's risk weighted by its priority. */
  function Weight(a: Acao): real
  {
    a.risco * a.prioridade
  }

  lemma WeightBounds(a: Acao)
    requires 0.0 <= a.risco <= 1.0 && 0.0 <= a.prioridade
    ensures 0.0 <= Weight(a) <= a.prioridade
  {
    ProductBounds(a.risco, a.prioridade);
    assert Weight(a) == a.risco * a.prioridade;
  }

  lemma PlanRiskBounds(acoes: seq<Acao>)
    requires |acoes| > 0
    requires forall a :: a in acoes ==> 0.0 <= a.risco <= 1.0 && 0.0 <= a.prioridade
    ensures 0.0 <= PlanRisk(acoes) <= 1.0
  {
    var somaPrioridades := Sum(Prioridades(acoes));
    if somaPrioridades > 0.0 {
      WeightedSumBounds(acoes);
      DivBetween(Sum(RiscosPonderados(acoes)), somaPrioridades, 0.0, 1.0);
    } else {
      assert forall i :: 0 <= i < |acoes| ==> Riscos(acoes)[i] == acoes[i].risco && acoes[i] in acoes;
      SumBounds(Riscos(acoes), 0.0, 1.0);
      DivBetween(Sum(Riscos(acoes)), |acoes| as real, 0.0, 1.0);
    }
  }

  /** Python's `max(0, x)`. */
  function AtLeastZero(x: real): (r: real)
    ensures r >= 0.0 && r >= x && (r == 0.0 || r == x)
  {
    if x > 0.0 then x else 0.0
  }

  /** The names of the resources one action needs. */
  function KeySet<V>(d: Dict<string, V>): set<string>
  {
    set k | k in Keys(d)
  }

  /** `recursos_totais`: every resource some action of the plan needs. */
  function ResourceKeys(acoes: seq<Acao>): set<string>
  {
    if |acoes| == 0 then {} else KeySet(acoes[0].recursos) + ResourceKeys(acoes[1..])
  }

  /** The weighted sum of the four objectives. */
  function Weighted(eficacia: real, risco: real, tempo: real, recursos: real): real
  {
    PesoEficacia * eficacia + PesoRisco * risco + PesoTempo * tempo + PesoRecursos * recursos
  }

  /** The scores from the combined impacts, the distinct resources and the plan's actions. */
  function ScoresOf(impacto: Dict<string, real>, recursos: set<string>, acoes: seq<Acao>): Scores
    requires |acoes| > 0
  {
    var eficacia := Efficacy(impacto);
    var risco := 1.0 - PlanRisk(acoes);
    var tempo := AtLeastZero(1.0 - Sum(Tempos(acoes)) / TempoMax);
    var recursosNorm := AtLeastZero(1.0 - |recursos| as real / RecursosMax);
    Scores(eficacia, risco, tempo, recursosNorm, Weighted(eficacia, risco, tempo, recursosNorm))
  }

  /** `_avaliar_plano`: all five scores 0 for the empty plan. */
  function Evaluate(plano: seq<nat>, acoes: seq<Acao>): Scores
    requires InRange(plano, |acoes|)
  {
    if |plano| == 0 then Zero
    else
      var ap := Pick(plano, acoes);
      ScoresOf(CombinedImpacts(ap), ResourceKeys(ap), ap)
  }

  /** A plan's scores never leave [0, 1] when its actions are well formed. */
  lemma EvaluateBounds(plano: seq<nat>, acoes: seq<Acao>)
    requires InRange(plano, |acoes|) && WellFormed(acoes)
    ensures var s := Evaluate(plano, acoes);
      0.0 <= s.eficacia <= 1.0 && 0.0 <= s.risco <= 1.0 && 0.0 <= s.tempo <= 1.0 &&
      0.0 <= s.recursos <= 1.0 && 0.0 <= s.total <= 1.0
  {
    if |plano| > 0 {
      var ap := Pick(plano, acoes);
      assert forall a :: a in ap ==> a in acoes;
      AccumulateBounded([], ap);
      ScoresOfBounds(CombinedImpacts(ap), ResourceKeys(ap), ap);
    }
  }

  lemma ScoresOfBounds(impacto: Dict<string, real>, recursos: set<string>, acoes: seq<Acao>)
    requires |acoes| > 0 && UnitValues(impacto)
    requires forall a :: a in acoes ==> 0.0 <= a.risco <= 1.0 && 0.0 <= a.prioridade && 0.0 <= a.tempo
    ensures var s := ScoresOf(impacto, recursos, acoes);
      0.0 <= s.eficacia <= 1.0 && 0.0 <= s.risco <= 1.0 && 0.0 <= s.tempo <= 1.0 &&
      0.0 <= s.recursos <= 1.0 && 0.0 <= s.total <= 1.0
  {
    EfficacyBounds(impacto);
    PlanRiskBounds(acoes);
    assert forall i :: 0 <= i < |acoes| ==> Tempos(acoes)[i] == acoes[i].tempo && acoes[i] in acoes;
    SumNonNegative(Tempos(acoes));
    var s := ScoresOf(impacto, recursos, acoes);
    WeightedBounds(s.eficacia, s.risco, s.tempo, s.recursos);
  }

  lemma WeightedBounds(e: real, r: real, t: real, c: real)
    requires 0.0 <= e <= 1.0 && 0.0 <= r <= 1.0 && 0.0 <= t <= 1.0 && 0.0 <= c <= 1.0
    ensures 0.0 <= Weighted(e, r, t, c) <= 1.0
  {
  }

  /** The inner loop over one action's impact dictionary. */
  method Acumular(d0: Dict<string, real>, impacto: Dict<string, real>) returns (d: Dict<string, real>)
    ensures d == AddImpacts(d0, impacto)
  {
    d := d0;
    var j := 0;
    while j < |impacto|
      invariant 0 <= j <= |impacto|
      invariant AddImpacts(d, impacto[j..]) == AddImpacts(d0, impacto)
    {
      var dim := impacto[j].0;
      var before := d;
      if !HasKey(d, dim) {
        GetFinds(d, dim);
        d := Put(d, dim, 0.0);
      }
      var atual := GetOr(d, dim, 0.0);
      assert atual == GetOr(before, dim, 0.0);
      assert impacto[j..][1..] == impacto[j + 1..];
      PutTwice(before, dim, 0.0, Combine(atual, impacto[j].1));
      d := Put(d, dim, Combine(atual, impacto[j].1));
      j := j + 1;
    }
  }

  /** `_avaliar_plano`, loop by loop. */
  method AvaliarPlano(plano: seq<nat>, acoes: seq<Acao>) returns (s: Scores)
    requires InRange(plano, |acoes|)
    ensures s == Evaluate(plano, acoes)
  {
    if |plano| == 0 {
      return Zero;
    }
    var acoesPlano := Pick(plano, acoes);
    var impactoCombinado: Dict<string, real> := [];
    var k := 0;
    while k < |acoesPlano|
      invariant 0 <= k <= |acoesPlano|
      invariant Accumulate(impactoCombinado, acoesPlano[k..]) == CombinedImpacts(acoesPlano)
    {
      assert acoesPlano[k..][1..] == acoesPlano[k + 1..];
      impactoCombinado := Acumular(impactoCombinado, acoesPlano[k].impacto);
      k := k + 1;
    }
    var recursosTotais: set<string> := {};
    k := 0;
    while k < |acoesPlano|
      invariant 0 <= k <= |acoesPlano|
      invariant recursosTotais + ResourceKeys(acoesPlano[k..]) == ResourceKeys(acoesPlano)
    {
      assert acoesPlano[k..][1..] == acoesPlano[k + 1..];
      recursosTotais := recursosTotais + KeySet(acoesPlano[k].recursos);
      k := k + 1;
    }
    assert acoesPlano[k..] == [];
    s := ScoresOf(impactoCombinado, recursosTotais, acoesPlano);
  }
}
