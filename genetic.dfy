/**
 * The plan optimiser (`OrquestradorPrioridades`): a genetic search over
 * plans, each a list of indices into the available actions. A random
 * initial population evolves for a number of generations; each generation
 * keeps its best plan (elitism), picks parents by tournament, and fills
 * the rest with mutated crossover children, truncated to the population
 * size. Every random draw is an oracle in `Acaso`, indexed by where the
 * draw happens.
 */
module Genetic {
  import opened Wrappers
  import opened Seqs
  import opened Actions
  import opened Fitness
  import opened Variation

  /** The optimiser's defaults: 50 plans, 20 generations. */
  const TamanhoPadrao: int := 50
  const GeracoesPadrao: int := 20

  const EmptyMax: string := "max() arg is an empty sequence"

  datatype Acaso = Acaso(
    /** `inclui(p)(i)`: the initial plan `p` takes action `i`. */
    inclui: nat -> nat -> bool,
    /** The fallback action of initial plan `p`, when it took none. */
    escolha: nat -> nat,
    /** The tournament sample of generation `g`, pair `k`, for the first parent or the second. */
    amostra: (nat, nat, bool) -> seq<nat>,
    /** The crossover coins of generation `g`, pair `k`. */
    moeda: (nat, nat) -> nat -> bool,
    /** The mutation flips of generation `g`, pair `k`, for the first child or the second. */
    muta: (nat, nat, bool) -> nat -> bool,
    /** The mutation fallback draw of generation `g`, pair `k`, for the first child or the second. */
    sorteio: (nat, nat, bool) -> nat)

  /** A plan the optimiser holds: existing actions, none twice, at least one. */
  predicate ValidPlan(plano: seq<nat>, n: nat)
  {
    InRange(plano, n) && Distinct(plano) && |plano| > 0
  }

  /** A population of valid plans, never empty and never above its size limit. */
  predicate ValidPopulation(pop: seq<seq<nat>>, n: nat, tamanho: nat)
  {
    0 < |pop| <= tamanho && forall k :: 0 <= k < |pop| ==> ValidPlan(pop[k], n)
  }

  /** `range(n)`. */
  function Range(n: nat): (r: seq<nat>)
    ensures |r| == n
    ensures forall i :: 0 <= i < n ==> r[i] == i
  {
    seq(n, i requires 0 <= i < n => i)
  }

  /** The actions `i < n` the draws took, in order. */
  function Included(n: nat, incluir: nat -> bool): seq<nat>
  {
    if n == 0 then [] else Included(n - 1, incluir) + (if incluir(n - 1) then [n - 1] else [])
  }

  lemma {:induction false} IncludedProperties(n: nat, incluir: nat -> bool)
    ensures forall x: nat :: x in Included(n, incluir) <==> x < n && incluir(x)
    ensures Distinct(Included(n, incluir))
  {
    if n > 0 {
      IncludedProperties(n - 1, incluir);
      if incluir(n - 1) {
        DistinctConcat(Included(n - 1, incluir), [n - 1]);
      }
    }
  }

  /** One plan of `_gerar_populacao_inicial`: the drawn actions, or one drawn action when none was. */
  function InitialPlan(n: nat, incluir: nat -> bool, escolha: nat): (r: seq<nat>)
    ensures n > 0 ==> ValidPlan(r, n)
  {
    IncludedProperties(n, incluir);
    var s := Included(n, incluir);
    assert forall k :: 0 <= k < |s| ==> s[k] in s;
    if |s| == 0 && n > 0 then [escolha % n] else s
  }

  /**
   * An initial plan holds exactly the actions its draws took, or the
   * fallback action alone when the draws took none; it is always valid.
   */
  lemma InitialPlanProperties(n: nat, incluir: nat -> bool, escolha: nat)
    requires n > 0
    ensures (exists i: nat :: i < n && incluir(i)) ==> forall x: nat :: x in InitialPlan(n, incluir, escolha) <==> x < n && incluir(x)
    ensures (forall i: nat :: i < n ==> !incluir(i)) ==> InitialPlan(n, incluir, escolha) == [escolha % n]
  {
    IncludedProperties(n, incluir);
    var s := Included(n, incluir);
    if |s| > 0 {
      assert s[0] in s;
      assert InitialPlan(n, incluir, escolha) == s;
    } else {
      assert InitialPlan(n, incluir, escolha) == [escolha % n];
    }
  }

  /** `_gerar_populacao_inicial`: `tamanho` plans (none when it is not positive). */
  function InitialPopulation(tamanho: int, n: nat, acaso: Acaso): (pop: seq<seq<nat>>)
    ensures |pop| == if tamanho > 0 then tamanho else 0
    ensures forall k :: 0 <= k < |pop| ==> pop[k] == InitialPlan(n, acaso.inclui(k), acaso.escolha(k))
    ensures tamanho > 0 && n > 0 ==> ValidPopulation(pop, n, tamanho)
  {
    var pop := seq(if tamanho > 0 then tamanho else 0, p requires 0 <= p => InitialPlan(n, acaso.inclui(p), acaso.escolha(p)));
    assert forall k :: 0 <= k < |pop| ==> pop[k] == InitialPlan(n, acaso.inclui(k), acaso.escolha(k));
    pop
  }

  /**
   * Python's `max(cands, key=lambda i: xs[i])`: the first candidate whose
   * score is the largest.
   */
  function ArgMax(cands: seq<nat>, xs: seq<real>): (r: nat)
    requires |cands| > 0
    requires forall i :: 0 <= i < |cands| ==> cands[i] < |xs|
    ensures r in cands
  {
    if |cands| == 1 then cands[0]
    else
      var m := ArgMax(cands[..|cands| - 1], xs);
      if xs[cands[|cands| - 1]] > xs[m] then cands[|cands| - 1] else m
  }

  /** The chosen candidate scores at least as much as every candidate, and more than every one before it. */
  lemma {:induction false} ArgMaxProperties(cands: seq<nat>, xs: seq<real>)
    requires |cands| > 0
    requires forall i :: 0 <= i < |cands| ==> cands[i] < |xs|
    ensures ArgMax(cands, xs) in cands
    ensures forall c :: c in cands ==> xs[c] <= xs[ArgMax(cands, xs)]
    ensures exists k ::
      0 <= k < |cands| && cands[k] == ArgMax(cands, xs) && (forall j :: 0 <= j < k ==> xs[cands[j]] < xs[ArgMax(cands, xs)])
  {
    ArgMaxIsMax(cands, xs);
    ArgMaxFirst(cands, xs);
  }

  lemma {:induction false} ArgMaxIsMax(cands: seq<nat>, xs: seq<real>)
    requires |cands| > 0
    requires forall i :: 0 <= i < |cands| ==> cands[i] < |xs|
    ensures forall c :: c in cands ==> xs[c] <= xs[ArgMax(cands, xs)]
  {
    if |cands| > 1 {
      var init := cands[..|cands| - 1];
      var last := cands[|cands| - 1];
      ArgMaxIsMax(init, xs);
      var m := ArgMax(init, xs);
      assert ArgMax(cands, xs) == if xs[last] > xs[m] then last else m;
      forall c | c in cands ensures xs[c] <= xs[ArgMax(cands, xs)] {
        if c != last {
          var i :| 0 <= i < |cands| && cands[i] == c;
          assert c == init[i];
        }
      }
    }
  }

  lemma {:induction false} ArgMaxFirst(cands: seq<nat>, xs: seq<real>)
    requires |cands| > 0
    requires forall i :: 0 <= i < |cands| ==> cands[i] < |xs|
    ensures exists k ::
      0 <= k < |cands| && cands[k] == ArgMax(cands, xs) && (forall j :: 0 <= j < k ==> xs[cands[j]] < xs[ArgMax(cands, xs)])
  {
    if |cands| > 1 {
      var init := cands[..|cands| - 1];
      var last := cands[|cands| - 1];
      ArgMaxFirst(init, xs);
      ArgMaxIsMax(init, xs);
      var m := ArgMax(init, xs);
      var k :| 0 <= k < |init| && init[k] == m && forall j :: 0 <= j < k ==> xs[init[j]] < xs[m];
      if xs[last] > xs[m] {
        forall j | 0 <= j < |cands| - 1 ensures xs[cands[j]] < xs[last] {
          assert cands[j] == init[j];
          assert init[j] in init;
        }
        assert cands[|cands| - 1] == ArgMax(cands, xs);
        assert forall j :: 0 <= j < |cands| - 1 ==> xs[cands[j]] < xs[ArgMax(cands, xs)];
      } else {
        assert cands[k] == m == ArgMax(cands, xs);
        assert forall j :: 0 <= j < k ==> cands[j] == init[j];
        assert forall j :: 0 <= j < k ==> xs[cands[j]] < xs[ArgMax(cands, xs)];
      }
    } else {
      assert cands[0] == ArgMax(cands, xs);
    }
  }

  /**
   * The tournament's candidates: the sampled positions of `pool`. The
   * source samples up to three distinct positions; any sample is allowed
   * here, and an empty one stands for the first position.
   */
  function Candidates(raw: seq<nat>, pool: seq<nat>): (r: seq<nat>)
    requires |pool| > 0
    ensures |r| > 0
    ensures forall i :: 0 <= i < |r| ==> r[i] in pool
  {
    if |raw| == 0 then [pool[0]]
    else seq(|raw|, j requires 0 <= j < |raw| => pool[raw[j] % |pool|])
  }

  /** `[i for i in range(n) if i != x]`. */
  function Others(n: nat, x: nat): (r: seq<nat>)
    ensures forall i: nat :: i in r <==> i < n && i != x
  {
    FilterProperties(Range(n), [x], false);
    RangeMembers(n);
    Filter(Range(n), [x], false)
  }

  lemma RangeMembers(n: nat)
    ensures forall i: nat :: i in Range(n) <==> i < n
  {
    forall i: nat | i < n ensures i in Range(n) {
      assert Range(n)[i] == i;
    }
    forall i: nat | i in Range(n) ensures i < n {
      var j :| 0 <= j < n && Range(n)[j] == i;
    }
  }

  /** The candidate lists of one tournament of `_selecionar_pais`, as population positions. */
  function Tournament(totais: seq<real>, raw1: seq<nat>, raw2: seq<nat>): (r: (seq<nat>, seq<nat>))
    requires |totais| > 0
    ensures |r.0| > 0 && |r.1| > 0
    ensures forall i :: 0 <= i < |r.0| ==> r.0[i] < |totais|
    ensures forall i :: 0 <= i < |r.1| ==> r.1[i] < |totais|
  {
    RangeMembers(|totais|);
    var c1 := Candidates(raw1, Range(|totais|));
    assert forall i :: 0 <= i < |c1| ==> c1[i] in Range(|totais|);
    var pool := Others(|totais|, ArgMax(c1, totais));
    assert forall i :: 0 <= i < |pool| ==> pool[i] in pool;
    (c1, if |pool| == 0 then [ArgMax(c1, totais)] else Candidates(raw2, pool))
  }

  /** The first parent, then the second: the best candidate of each list. */
  function Parents(totais: seq<real>, raw1: seq<nat>, raw2: seq<nat>): (r: (nat, nat))
    requires |totais| > 0
    ensures r.0 < |totais| && r.1 < |totais|
  {
    var cs := Tournament(totais, raw1, raw2);
    var pai1 := ArgMax(cs.0, totais);
    var pai2 := ArgMax(cs.1, totais);
    assert exists i :: 0 <= i < |cs.0| && cs.0[i] == pai1;
    assert exists i :: 0 <= i < |cs.1| && cs.1[i] == pai2;
    (pai1, pai2)
  }

  /**
   * Each parent is the best of its candidates, and the two parents differ
   * whenever the population has two plans.
   */
  lemma TournamentProperties(totais: seq<real>, raw1: seq<nat>, raw2: seq<nat>)
    requires |totais| > 0
    ensures var cs := Tournament(totais, raw1, raw2);
      var ps := Parents(totais, raw1, raw2);
      ps.0 in cs.0 && ps.1 in cs.1 &&
      (forall c :: c in cs.0 ==> totais[c] <= totais[ps.0]) &&
      (forall c :: c in cs.1 ==> totais[c] <= totais[ps.1]) &&
      (|totais| >= 2 ==> ps.0 != ps.1)
  {
    var cs := Tournament(totais, raw1, raw2);
    ArgMaxProperties(cs.0, totais);
    ArgMaxProperties(cs.1, totais);
    var pai1 := ArgMax(cs.0, totais);
    var pool := Others(|totais|, pai1);
    if |totais| >= 2 {
      var other: nat := if pai1 == 0 then 1 else 0;
      assert other in pool;
      assert forall i :: 0 <= i < |pool| ==> pool[i] in pool;
      RangeMembers(|totais|);
      assert pool[0] in pool;
      assert forall c :: c in cs.1 ==> c in pool;
    }
  }

  /**
   * The total score `_avaliar_plano` gives a plan. Plans naming an action
   * that does not exist never occur (see `ValidPopulation`); the guard only
   * makes the score a total function.
   */
  function PlanTotal(acoes: seq<Acao>): seq<nat> -> real
  {
    plano => if InRange(plano, |acoes|) then Evaluate(plano, acoes).total else 0.0
  }

  /** The total score of every plan of a population. */
  function Totals(pop: seq<seq<nat>>, fitness: seq<nat> -> real): (r: seq<real>)
    ensures |r| == |pop|
    ensures forall k :: 0 <= k < |pop| ==> r[k] == fitness(pop[k])
  {
    seq(|pop|, k requires 0 <= k < |pop| => fitness(pop[k]))
  }

  /** `_selecionar_pais` in generation `g`: `len(pop) // 2` tournaments. */
  function ParentPairs(pop: seq<seq<nat>>, totais: seq<real>, g: nat, acaso: Acaso): (r: seq<(seq<nat>, seq<nat>)>)
    requires 0 < |pop| == |totais|
    ensures |r| == |pop| / 2
  {
    Tabulate(|pop| / 2, Pairing(pop, totais, g, acaso))
  }

  /** Tournament `k` of generation `g`, as a function of `k`. */
  function Pairing(pop: seq<seq<nat>>, totais: seq<real>, g: nat, acaso: Acaso): nat -> (seq<nat>, seq<nat>)
  {
    k => ParentPair(pop, totais, g, k, acaso)
  }

  /** The parents chosen by tournament `k` of generation `g`. */
  function ParentPair(pop: seq<seq<nat>>, totais: seq<real>, g: nat, k: nat, acaso: Acaso): (seq<nat>, seq<nat>)
  {
    if 0 < |pop| == |totais| then
      var ps := Parents(totais, acaso.amostra(g, k, true), acaso.amostra(g, k, false));
      (pop[ps.0], pop[ps.1])
    else
      // A population always has one score per plan; the guard only makes the function total.
      ([], [])
  }

  /** The two mutated crossover children of pair `k` of generation `g`. */
  function Children(pais: (seq<nat>, seq<nat>), n: nat, g: nat, k: nat, acaso: Acaso): (seq<nat>, seq<nat>)
  {
    var (f1, f2) := Crossover(pais.0, pais.1, acaso.moeda(g, k));
    (Mutation(f1, n, acaso.muta(g, k, true), acaso.sorteio(g, k, true)),
     Mutation(f2, n, acaso.muta(g, k, false), acaso.sorteio(g, k, false)))
  }

  /** Every pair's two children, pair by pair. */
  function Offspring(pares: seq<(seq<nat>, seq<nat>)>, n: nat, g: nat, acaso: Acaso): (r: seq<seq<nat>>)
    ensures |r| == 2 * |pares|
  {
    if |pares| == 0 then []
    else
      var c := Children(pares[|pares| - 1], n, g, |pares| - 1, acaso);
      Offspring(pares[..|pares| - 1], n, g, acaso) + [c.0, c.1]
  }

  /** Children of valid parents are valid plans. */
  lemma ChildrenValid(pais: (seq<nat>, seq<nat>), n: nat, g: nat, k: nat, acaso: Acaso)
    requires n > 0 && ValidPlan(pais.0, n) && ValidPlan(pais.1, n)
    ensures ValidPlan(Children(pais, n, g, k, acaso).0, n)
    ensures ValidPlan(Children(pais, n, g, k, acaso).1, n)
  {
    var (f1, f2) := Crossover(pais.0, pais.1, acaso.moeda(g, k));
    CrossoverProperties(pais.0, pais.1, acaso.moeda(g, k));
    forall x | x in f1 || x in f2 ensures x < n {
      if x in pais.0 {
        var i :| 0 <= i < |pais.0| && pais.0[i] == x;
      } else {
        var i :| 0 <= i < |pais.1| && pais.1[i] == x;
      }
    }
    assert forall i :: 0 <= i < |f1| ==> f1[i] in f1;
    assert forall i :: 0 <= i < |f2| ==> f2[i] in f2;
    MutationProperties(f1, n, acaso.muta(g, k, true), acaso.sorteio(g, k, true));
    MutationProperties(f2, n, acaso.muta(g, k, false), acaso.sorteio(g, k, false));
    MutationInRange(f1, n, acaso.muta(g, k, true), acaso.sorteio(g, k, true));
    MutationInRange(f2, n, acaso.muta(g, k, false), acaso.sorteio(g, k, false));
    var m1 := Mutation(f1, n, acaso.muta(g, k, true), acaso.sorteio(g, k, true));
    var m2 := Mutation(f2, n, acaso.muta(g, k, false), acaso.sorteio(g, k, false));
    assert forall i :: 0 <= i < |m1| ==> m1[i] in m1;
    assert forall i :: 0 <= i < |m2| ==> m2[i] in m2;
  }

  lemma {:induction false} OffspringValid(pares: seq<(seq<nat>, seq<nat>)>, n: nat, g: nat, acaso: Acaso)
    requires n > 0
    requires forall k :: 0 <= k < |pares| ==> ValidPlan(pares[k].0, n) && ValidPlan(pares[k].1, n)
    ensures forall k :: 0 <= k < 2 * |pares| ==> ValidPlan(Offspring(pares, n, g, acaso)[k], n)
  {
    if |pares| > 0 {
      var init := pares[..|pares| - 1];
      OffspringValid(init, n, g, acaso);
      ChildrenValid(pares[|pares| - 1], n, g, |pares| - 1, acaso);
    }
  }

  /** The elite plan: the first plan with the best total. */
  function Best(pop: seq<seq<nat>>, totais: seq<real>): nat
    requires 0 < |pop| == |totais|
  {
    ArgMax(Range(|pop|), totais)
  }

  lemma BestProperties(pop: seq<seq<nat>>, totais: seq<real>)
    requires 0 < |pop| == |totais|
    ensures Best(pop, totais) < |pop|
    ensures forall k :: 0 <= k < |pop| ==> totais[k] <= totais[Best(pop, totais)]
  {
    ArgMaxProperties(Range(|pop|), totais);
    RangeMembers(|pop|);
    assert forall k :: 0 <= k < |pop| ==> k == Range(|pop|)[k];
  }

  /** Python's `nova[:tamanho]` for a non-negative size. */
  function Truncate(nova: seq<seq<nat>>, tamanho: nat): (r: seq<seq<nat>>)
    ensures |r| == if |nova| <= tamanho then |nova| else tamanho
    ensures r == nova[..|r|]
  {
    if |nova| <= tamanho then nova else nova[..tamanho]
  }

  /**
   * The population a generation breeds from scored plans: the elite plan,
   * then the children of every tournament pair, truncated to `tamanho`.
   */
  function Breed(pop: seq<seq<nat>>, totais: seq<real>, n: nat, tamanho: nat, g: nat, acaso: Acaso): seq<seq<nat>>
    requires 0 < |pop| == |totais|
  {
    var pares := ParentPairs(pop, totais, g, acaso);
    Truncate([pop[Best(pop, totais)]] + Offspring(pares, n, g, acaso), tamanho)
  }

  lemma BreedValid(pop: seq<seq<nat>>, totais: seq<real>, n: nat, tamanho: nat, g: nat, acaso: Acaso)
    requires n > 0 && ValidPopulation(pop, n, tamanho) && |totais| == |pop|
    ensures ValidPopulation(Breed(pop, totais, n, tamanho, g, acaso), n, tamanho)
    ensures Breed(pop, totais, n, tamanho, g, acaso)[0] == pop[Best(pop, totais)]
  {
    var pares := ParentPairs(pop, totais, g, acaso);
    BestProperties(pop, totais);
    ParentPairsValid(pop, totais, n, tamanho, g, acaso);
    OffspringValid(pares, n, g, acaso);
    var nova := [pop[Best(pop, totais)]] + Offspring(pares, n, g, acaso);
    assert forall k :: 0 <= k < |nova| ==> ValidPlan(nova[k], n);
  }

  lemma ParentPairsValid(pop: seq<seq<nat>>, totais: seq<real>, n: nat, tamanho: nat, g: nat, acaso: Acaso)
    requires ValidPopulation(pop, n, tamanho) && |totais| == |pop|
    ensures var pares := ParentPairs(pop, totais, g, acaso);
      forall k :: 0 <= k < |pares| ==> ValidPlan(pares[k].0, n) && ValidPlan(pares[k].1, n)
  {
    var pares := ParentPairs(pop, totais, g, acaso);
    TabulateAt(|pop| / 2, Pairing(pop, totais, g, acaso));
    forall k | 0 <= k < |pares| ensures ValidPlan(pares[k].0, n) && ValidPlan(pares[k].1, n) {
      var ps := Parents(totais, acaso.amostra(g, k, true), acaso.amostra(g, k, false));
      assert pares[k] == (pop[ps.0], pop[ps.1]);
    }
  }

  /** One generation of `otimizar_plano`: breeding from the plans' total scores. */
  function Generation(pop: seq<seq<nat>>, fitness: seq<nat> -> real, n: nat, tamanho: nat, g: nat, acaso: Acaso): (r: seq<seq<nat>>)
    requires 0 < |pop|
    ensures tamanho > 0 ==> 0 < |r|
  {
    Breed(pop, Totals(pop, fitness), n, tamanho, g, acaso)
  }

  /** The best total of a population. */
  function BestTotal(pop: seq<seq<nat>>, fitness: seq<nat> -> real): real
    requires 0 < |pop|
  {
    Max(Totals(pop, fitness))
  }

  /** Elitism: a generation keeps a valid population and never loses the best plan's total. */
  lemma GenerationElitist(pop: seq<seq<nat>>, fitness: seq<nat> -> real, n: nat, tamanho: nat, g: nat, acaso: Acaso)
    requires n > 0 && ValidPopulation(pop, n, tamanho)
    ensures ValidPopulation(Generation(pop, fitness, n, tamanho, g, acaso), n, tamanho)
    ensures BestTotal(pop, fitness) <= BestTotal(Generation(pop, fitness, n, tamanho, g, acaso), fitness)
  {
    var totais := Totals(pop, fitness);
    BreedValid(pop, totais, n, tamanho, g, acaso);
    BestProperties(pop, totais);
    var next := Generation(pop, fitness, n, tamanho, g, acaso);
    var m := Best(pop, totais);
    MaxIs(totais, m);
    assert Totals(next, fitness)[0] == totais[m];
  }

  /** A score no other exceeds is the maximum. */
  lemma MaxIs(xs: seq<real>, m: nat)
    requires m < |xs|
    requires forall k :: 0 <= k < |xs| ==> xs[k] <= xs[m]
    ensures Max(xs) == xs[m]
  {
  }

  /** The population that generations `g` to `gens - 1` breed from `pop`; generation `g` is step `g`. */
  function Evolve(pop: seq<seq<nat>>, step: (seq<seq<nat>>, nat) -> seq<seq<nat>>, g: nat, gens: nat): seq<seq<nat>>
    decreases gens - g
  {
    if g >= gens then pop else Evolve(step(pop, g), step, g + 1, gens)
  }

  /**
   * A step that keeps a population valid and never lowers its best total
   * keeps both over any number of generations.
   */
  lemma {:induction false} EvolveElitist(pop: seq<seq<nat>>, step: (seq<seq<nat>>, nat) -> seq<seq<nat>>, fitness: seq<nat> -> real,
      n: nat, tamanho: nat, g: nat, gens: nat)
    requires ValidPopulation(pop, n, tamanho)
    requires forall p, h :: ValidPopulation(p, n, tamanho) ==>
      ValidPopulation(step(p, h), n, tamanho) && BestTotal(p, fitness) <= BestTotal(step(p, h), fitness)
    ensures ValidPopulation(Evolve(pop, step, g, gens), n, tamanho)
    ensures BestTotal(pop, fitness) <= BestTotal(Evolve(pop, step, g, gens), fitness)
    decreases gens - g
  {
    if g < gens {
      EvolveElitist(step(pop, g), step, fitness, n, tamanho, g + 1, gens);
    }
  }

  /** The generation step of `otimizar_plano`; an empty population, which never occurs, is left as it is. */
  function Step(fitness: seq<nat> -> real, n: nat, tamanho: nat, acaso: Acaso): (seq<seq<nat>>, nat) -> seq<seq<nat>>
  {
    (pop, g) => if |pop| == 0 then pop else Generation(pop, fitness, n, tamanho, g, acaso)
  }

  /** The optimiser's generation step is elitist. */
  lemma StepElitist(fitness: seq<nat> -> real, n: nat, tamanho: nat, acaso: Acaso)
    requires n > 0
    ensures forall pop, g :: ValidPopulation(pop, n, tamanho) ==>
      ValidPopulation(Step(fitness, n, tamanho, acaso)(pop, g), n, tamanho) &&
      BestTotal(pop, fitness) <= BestTotal(Step(fitness, n, tamanho, acaso)(pop, g), fitness)
  {
    forall pop, g | ValidPopulation(pop, n, tamanho)
      ensures ValidPopulation(Step(fitness, n, tamanho, acaso)(pop, g), n, tamanho)
      ensures BestTotal(pop, fitness) <= BestTotal(Step(fitness, n, tamanho, acaso)(pop, g), fitness)
    {
      GenerationElitist(pop, fitness, n, tamanho, g, acaso);
    }
  }

  /** The final population of `otimizar_plano` for a positive size. */
  function FinalPopulation(acoes: seq<Acao>, tamanho: nat, gens: nat, acaso: Acaso): seq<seq<nat>>
  {
    Evolve(InitialPopulation(tamanho, |acoes|, acaso), Step(PlanTotal(acoes), |acoes|, tamanho, acaso), 0, gens)
  }

  /** The final population is valid and its best total is at least the initial population's. */
  lemma FinalPopulationElitist(acoes: seq<Acao>, tamanho: nat, gens: nat, acaso: Acaso)
    requires |acoes| > 0 && tamanho > 0
    ensures ValidPopulation(FinalPopulation(acoes, tamanho, gens, acaso), |acoes|, tamanho)
    ensures BestTotal(InitialPopulation(tamanho, |acoes|, acaso), PlanTotal(acoes)) <=
      BestTotal(FinalPopulation(acoes, tamanho, gens, acaso), PlanTotal(acoes))
  {
    StepElitist(PlanTotal(acoes), |acoes|, tamanho, acaso);
    EvolveElitist(InitialPopulation(tamanho, |acoes|, acaso), Step(PlanTotal(acoes), |acoes|, tamanho, acaso),
      PlanTotal(acoes), |acoes|, tamanho, 0, gens);
  }

  /** The actions of the first plan with the best total, and that total. */
  function Chosen(pop: seq<seq<nat>>, acoes: seq<Acao>, tamanho: nat): (seq<Acao>, real)
    requires ValidPopulation(pop, |acoes|, tamanho)
  {
    var totais := Totals(pop, PlanTotal(acoes));
    BestProperties(pop, totais);
    var melhor := Best(pop, totais);
    (Pick(pop[melhor], acoes), totais[melhor])
  }

  /**
   * The chosen actions are those of a valid plan of the population, the
   * chosen score is that plan's own total and the best total of the
   * population, and with well-formed actions it lies in [0, 1].
   */
  lemma ChosenProperties(pop: seq<seq<nat>>, acoes: seq<Acao>, tamanho: nat)
    requires ValidPopulation(pop, |acoes|, tamanho)
    ensures exists plano ::
      ValidPlan(plano, |acoes|) && Chosen(pop, acoes, tamanho) == (Pick(plano, acoes), Evaluate(plano, acoes).total)
    ensures Chosen(pop, acoes, tamanho).1 == BestTotal(pop, PlanTotal(acoes))
    ensures WellFormed(acoes) ==> 0.0 <= Chosen(pop, acoes, tamanho).1 <= 1.0
  {
    var totais := Totals(pop, PlanTotal(acoes));
    BestProperties(pop, totais);
    var m := Best(pop, totais);
    MaxIs(totais, m);
    assert ValidPlan(pop[m], |acoes|);
    assert totais[m] == Evaluate(pop[m], acoes).total;
    if WellFormed(acoes) {
      EvaluateBounds(pop[m], acoes);
    }
  }

  /** `otimizar_plano`: the best plan's actions and its total score. */
  function Optimize(acoes: seq<Acao>, tamanho: int, geracoes: int, acaso: Acaso): Result<(seq<Acao>, real)>
  {
    if |acoes| == 0 then Ok(([], 0.0))
    else if tamanho <= 0 then Err(EmptyMax)
    else
      var gens := if geracoes > 0 then geracoes else 0;
      FinalPopulationElitist(acoes, tamanho, gens, acaso);
      Ok(Chosen(FinalPopulation(acoes, tamanho, gens, acaso), acoes, tamanho))
  }

  /**
   * The optimiser returns nothing for no actions, fails on an empty
   * population, and otherwise returns the actions of a valid plan with
   * that plan's own total, which is at least the best total of the initial
   * population and, with well-formed actions, lies in [0, 1].
   */
  lemma OptimizeProperties(acoes: seq<Acao>, tamanho: int, geracoes: int, acaso: Acaso)
    ensures |acoes| == 0 ==> Optimize(acoes, tamanho, geracoes, acaso) == Ok(([], 0.0))
    ensures |acoes| > 0 && tamanho <= 0 ==> Optimize(acoes, tamanho, geracoes, acaso).Err?
    ensures |acoes| > 0 && tamanho > 0 ==>
      var r := Optimize(acoes, tamanho, geracoes, acaso);
      r.Ok? &&
      (exists plano :: ValidPlan(plano, |acoes|) && r.value.0 == Pick(plano, acoes) &&
        r.value.1 == Evaluate(plano, acoes).total) &&
      BestTotal(InitialPopulation(tamanho, |acoes|, acaso), PlanTotal(acoes)) <= r.value.1 &&
      (WellFormed(acoes) ==> 0.0 <= r.value.1 <= 1.0)
  {
    if |acoes| > 0 && tamanho > 0 {
      var gens := if geracoes > 0 then geracoes else 0;
      FinalPopulationElitist(acoes, tamanho, gens, acaso);
      ChosenProperties(FinalPopulation(acoes, tamanho, gens, acaso), acoes, tamanho);
    }
  }

  /** `_gerar_populacao_inicial`, loop by loop. */
  method GerarPopulacaoInicial(tamanho: int, n: nat, acaso: Acaso) returns (populacao: seq<seq<nat>>)
    ensures populacao == InitialPopulation(tamanho, n, acaso)
  {
    populacao := [];
    var p := 0;
    while p < tamanho
      invariant 0 <= p <= if tamanho > 0 then tamanho else 0
      invariant |populacao| == p
      invariant forall q :: 0 <= q < p ==> populacao[q] == InitialPlan(n, acaso.inclui(q), acaso.escolha(q))
    {
      var plano := [];
      var i := 0;
      while i < n
        invariant 0 <= i <= n
        invariant plano == Included(i, acaso.inclui(p))
      {
        if acaso.inclui(p)(i) {
          plano := plano + [i];
        }
        i := i + 1;
      }
      if |plano| == 0 && n > 0 {
        plano := plano + [acaso.escolha(p) % n];
      }
      populacao := populacao + [plano];
      p := p + 1;
    }
  }

  /** One pass of `_selecionar_pais`'s loop: two tournaments, and the plans of their winners. */
  method Torneio(populacao: seq<seq<nat>>, totais: seq<real>, g: nat, k: nat, acaso: Acaso) returns (par: (seq<nat>, seq<nat>))
    requires 0 < |populacao| == |totais|
    ensures par == ParentPair(populacao, totais, g, k, acaso)
  {
    var pais := Parents(totais, acaso.amostra(g, k, true), acaso.amostra(g, k, false));
    par := (populacao[pais.0], populacao[pais.1]);
  }

  /** `_selecionar_pais`, loop by loop. */
  method SelecionarPais(populacao: seq<seq<nat>>, totais: seq<real>, g: nat, acaso: Acaso)
    returns (pares: seq<(seq<nat>, seq<nat>)>)
    requires 0 < |populacao| == |totais|
    ensures pares == ParentPairs(populacao, totais, g, acaso)
  {
    pares := [];
    var k := 0;
    while k < |populacao| / 2
      invariant 0 <= k <= |populacao| / 2
      invariant pares == Tabulate(k, Pairing(populacao, totais, g, acaso))
    {
      var par := Torneio(populacao, totais, g, k, acaso);
      pares := pares + [par];
      k := k + 1;
    }
  }

  /** The loop over the parent pairs: crossover, then mutation of both children. */
  method Reproduzir(pares: seq<(seq<nat>, seq<nat>)>, n: nat, g: nat, acaso: Acaso) returns (filhos: seq<seq<nat>>)
    ensures filhos == Offspring(pares, n, g, acaso)
  {
    filhos := [];
    var k := 0;
    while k < |pares|
      invariant 0 <= k <= |pares|
      invariant filhos == Offspring(pares[..k], n, g, acaso)
    {
      var filho1, filho2 := Cruzar(pares[k].0, pares[k].1, acaso.moeda(g, k));
      filho1 := Mutar(filho1, n, acaso.muta(g, k, true), acaso.sorteio(g, k, true));
      filho2 := Mutar(filho2, n, acaso.muta(g, k, false), acaso.sorteio(g, k, false));
      assert pares[..k + 1][..k] == pares[..k];
      filhos := filhos + [filho1, filho2];
      k := k + 1;
    }
    assert pares[..k] == pares;
  }

  /** One pass of the generation loop. */
  method Geracao(populacao: seq<seq<nat>>, fitness: seq<nat> -> real, n: nat, tamanho: nat, g: nat, acaso: Acaso)
    returns (nova: seq<seq<nat>>)
    ensures nova == Step(fitness, n, tamanho, acaso)(populacao, g)
  {
    if |populacao| == 0 {
      return populacao;
    }
    var totais := Totals(populacao, fitness);
    var pares := SelecionarPais(populacao, totais, g, acaso);
    var filhos := Reproduzir(pares, n, g, acaso);
    nova := Truncate([populacao[Best(populacao, totais)]] + filhos, tamanho);
  }

  /** The generation loop of `otimizar_plano`, for `range(geracoes)` with `geracoes` not negative. */
  method Evoluir(pop0: seq<seq<nat>>, fitness: seq<nat> -> real, n: nat, tamanho: nat, geracoes: nat, acaso: Acaso)
    returns (populacao: seq<seq<nat>>)
    ensures populacao == Evolve(pop0, Step(fitness, n, tamanho, acaso), 0, geracoes)
  {
    populacao := pop0;
    var g := 0;
    while g < geracoes
      invariant 0 <= g <= geracoes
      invariant Evolve(populacao, Step(fitness, n, tamanho, acaso), g, geracoes) ==
        Evolve(pop0, Step(fitness, n, tamanho, acaso), 0, geracoes)
    {
      populacao := Geracao(populacao, fitness, n, tamanho, g, acaso);
      g := g + 1;
    }
  }

  /** The final scoring of `otimizar_plano`: the first plan with the best total, as actions. */
  method MelhorPlano(populacao: seq<seq<nat>>, acoes: seq<Acao>, tamanho: nat) returns (r: (seq<Acao>, real))
    requires ValidPopulation(populacao, |acoes|, tamanho)
    ensures r == Chosen(populacao, acoes, tamanho)
  {
    var totais := Totals(populacao, PlanTotal(acoes));
    BestProperties(populacao, totais);
    var melhor := Best(populacao, totais);
    r := (Pick(populacao[melhor], acoes), totais[melhor]);
  }

  /** `otimizar_plano`, loop by loop. */
  method OtimizarPlano(acoes: seq<Acao>, tamanho: int, geracoes: int, acaso: Acaso)
    returns (r: Result<(seq<Acao>, real)>)
    ensures r == Optimize(acoes, tamanho, geracoes, acaso)
  {
    if |acoes| == 0 {
      return Ok(([], 0.0));
    }
    var populacao := GerarPopulacaoInicial(tamanho, |acoes|, acaso);
    if tamanho <= 0 {
      return Err(EmptyMax);
    }
    var gens := if geracoes > 0 then geracoes else 0;
    populacao := Evoluir(populacao, PlanTotal(acoes), |acoes|, tamanho, gens, acaso);
    assert populacao == FinalPopulation(acoes, tamanho, gens, acaso);
    FinalPopulationElitist(acoes, tamanho, gens, acaso);
    var melhor := MelhorPlano(populacao, acoes, tamanho);
    r := Ok(melhor);
  }
}
