/**
 * `MotorRegrasEspecialistas` of src/diagnostico/diagnostico.py: a list of
 * rules kept sorted by priority, highest first, run one after the other on
 * a batch of metrics, with per-rule counters and a bounded execution
 * history. Conditions and actions are Python callables; a rule names each
 * by a handle, and their behaviour is given to `Executar` as the functions
 * `cond` and `act`, where `Err` stands for an exception and `VNone` for a
 * `None` result.
 */
module Rules {
  import opened Wrappers
  import opened Values
  import opened Seqs
  import opened Sorting
  import opened Metric
  import Text

  datatype Rule = Rule(
    nome: string,
    descricao: Option<string>,
    condicao: nat,
    acao: nat,
    prioridade: real,
    execucoes: nat,
    sucessos: nat,
    ultimaExecucao: Option<real>)

  /** One entry of `historico_execucoes`. */
  datatype Execution = Execution(regra: string, timestamp: real, resultado: bool, contexto: Ctx)

  /** The behaviour of the callable with a given handle on (metricas, contexto). */
  type Callable = (nat, seq<Metric>, Ctx) -> Result<Value>

  /** `deque(maxlen=1000)`. */
  const HistoryCap: nat := 1000

  /** The sort key: `sort(key=prioridade, reverse=True)` is the stable ascending sort on the negated priority. */
  function NegPriority(r: Rule): real
  {
    -r.prioridade
  }

  /** Highest priority first. */
  ghost predicate ByPriority(rs: seq<Rule>)
  {
    forall i, j :: 0 <= i < j < |rs| ==> rs[i].prioridade >= rs[j].prioridade
  }

  ghost predicate Counted(rs: seq<Rule>)
  {
    forall i :: 0 <= i < |rs| ==> rs[i].sucessos <= rs[i].execucoes
  }

  ghost predicate ScalarContext(c: Ctx)
  {
    forall j :: 0 <= j < |c| ==> IsScalar(c[j].1)
  }

  ghost predicate ScalarHistory(h: seq<Execution>)
  {
    forall i :: 0 <= i < |h| ==> ScalarContext(h[i].contexto)
  }

  /**
   * Re-sorting puts the rules in priority order, highest first, keeps every
   * rule, keeps rules of equal priority in their previous order, and changes
   * nothing on a list already in priority order.
   */
  lemma Resorted(rs: seq<Rule>)
    ensures ByPriority(SortBy(rs, NegPriority))
    ensures multiset(SortBy(rs, NegPriority)) == multiset(rs)
    ensures SameOrderPerKey(rs, SortBy(rs, NegPriority), NegPriority)
    ensures ByPriority(rs) ==> SortBy(rs, NegPriority) == rs
  {
    SortByAscending(rs, NegPriority);
    SortByPermutes(rs, NegPriority);
    SortByStable(rs, NegPriority);
    var t := SortBy(rs, NegPriority);
    assert ByPriority(t) by {
      forall i, j | 0 <= i < j < |t| ensures t[i].prioridade >= t[j].prioridade {
        assert NegPriority(t[i]) <= NegPriority(t[j]);
      }
    }
    if ByPriority(rs) {
      assert Ascending(rs, NegPriority) by {
        forall i, j | 0 <= i < j < |rs| ensures NegPriority(rs[i]) <= NegPriority(rs[j]) {
          assert rs[i].prioridade >= rs[j].prioridade;
        }
      }
      SortBySorted(rs, NegPriority);
    }
  }

  /** Every rule of a permutation is a rule of the original list. */
  lemma SameRules(rs: seq<Rule>, t: seq<Rule>)
    requires multiset(t) == multiset(rs)
    ensures forall i :: 0 <= i < |t| ==> t[i] in rs
  {
    forall i | 0 <= i < |t| ensures t[i] in rs {
      assert t[i] in multiset(t);
    }
  }

  /** `nome or f"regra_{len(self.regras)}"`: a missing or empty name becomes the rule's position. */
  function RuleName(nome: Option<string>, n: nat): string
  {
    if nome.Some? && |nome.value| > 0 then nome.value else "regra_" + Text.IntText(n)
  }

  /** The effect of one rule in `executar`: the rule with its counters, its history entries and its result list. */
  datatype Outcome = Outcome(regra: Rule, entradas: seq<Execution>, resultados: seq<Value>)

  /**
   * One iteration of the loop in `executar`. An exception from the condition
   * or the action ends the iteration before anything is recorded.
   */
  function Fire(r: Rule, ms: seq<Metric>, ctx: Ctx, now: real, cond: Callable, act: Callable): Outcome
  {
    match cond(r.condicao, ms, ctx)
    case Err(_) => Outcome(r, [], [])
    case Ok(c) =>
      if !Truthy(c) then Outcome(r, [], [])
      else
        match act(r.acao, ms, ctx)
        case Err(_) => Outcome(r, [], [])
        case Ok(v) =>
          var ok := v != VNone;
          Outcome(
            r.(execucoes := r.execucoes + 1,
               ultimaExecucao := Some(now),
               sucessos := if ok then r.sucessos + 1 else r.sucessos),
            [Execution(r.nome, now, ok, ScalarsOnly(ctx))],
            if ok then [v] else [])
  }

  /** Condition held and the action returned (with any value). */
  predicate Ran(r: Rule, ms: seq<Metric>, ctx: Ctx, cond: Callable, act: Callable)
  {
    && cond(r.condicao, ms, ctx).Ok?
    && Truthy(cond(r.condicao, ms, ctx).value)
    && act(r.acao, ms, ctx).Ok?
  }

  /** The rule, its counters and its record after one iteration, in terms of what its callables did. */
  lemma FireEffect(r: Rule, ms: seq<Metric>, ctx: Ctx, now: real, cond: Callable, act: Callable)
    ensures var o := Fire(r, ms, ctx, now, cond, act);
      && o.regra.nome == r.nome && o.regra.descricao == r.descricao
      && o.regra.condicao == r.condicao && o.regra.acao == r.acao
      && o.regra.prioridade == r.prioridade
      && (!Ran(r, ms, ctx, cond, act) ==> o == Outcome(r, [], []))
      && (Ran(r, ms, ctx, cond, act) ==>
            var v := act(r.acao, ms, ctx).value;
            && o.regra.execucoes == r.execucoes + 1
            && o.regra.ultimaExecucao == Some(now)
            && o.regra.sucessos == (if v != VNone then r.sucessos + 1 else r.sucessos)
            && o.entradas == [Execution(r.nome, now, v != VNone, ScalarsOnly(ctx))]
            && o.resultados == (if v != VNone then [v] else []))
  {
  }

  /** The whole batch: every rule's outcome, in rule order. */
  datatype Batch = Batch(regras: seq<Rule>, entradas: seq<Execution>, resultados: seq<Value>)

  function Run(rs: seq<Rule>, ms: seq<Metric>, ctx: Ctx, now: real, cond: Callable, act: Callable): (b: Batch)
    ensures |b.regras| == |rs|
  {
    if |rs| == 0 then Batch([], [], [])
    else
      var b := Run(rs[..|rs| - 1], ms, ctx, now, cond, act);
      var o := Fire(rs[|rs| - 1], ms, ctx, now, cond, act);
      Batch(b.regras + [o.regra], b.entradas + o.entradas, b.resultados + o.resultados)
  }

  lemma RunStep(rs: seq<Rule>, i: nat, ms: seq<Metric>, ctx: Ctx, now: real, cond: Callable, act: Callable)
    requires i < |rs|
    ensures var b := Run(rs[..i], ms, ctx, now, cond, act);
      var o := Fire(rs[i], ms, ctx, now, cond, act);
      Run(rs[..i + 1], ms, ctx, now, cond, act) == Batch(b.regras + [o.regra], b.entradas + o.entradas, b.resultados + o.resultados)
  {
    assert rs[..i + 1][..i] == rs[..i];
  }

  /**
   * Each rule's outcome depends on that rule alone: one that raises changes
   * nothing, and the rules after it run as if it were absent.
   */
  lemma {:induction false} RunEach(rs: seq<Rule>, ms: seq<Metric>, ctx: Ctx, now: real, cond: Callable, act: Callable)
    ensures forall i :: 0 <= i < |rs| ==> Run(rs, ms, ctx, now, cond, act).regras[i] == Fire(rs[i], ms, ctx, now, cond, act).regra
  {
    if |rs| > 0 {
      RunEach(rs[..|rs| - 1], ms, ctx, now, cond, act);
    }
  }

  function SuccessTotal(rs: seq<Rule>): nat
  {
    if |rs| == 0 then 0 else SuccessTotal(rs[..|rs| - 1]) + rs[|rs| - 1].sucessos
  }

  function RunTotal(rs: seq<Rule>): nat
  {
    if |rs| == 0 then 0 else RunTotal(rs[..|rs| - 1]) + rs[|rs| - 1].execucoes
  }

  /**
   * The results are exactly the non-None action results: none is None, and
   * there are as many as the successes counted; there is one history entry
   * per execution counted, and each keeps only the scalar context values.
   */
  lemma {:induction false} RunRecords(rs: seq<Rule>, ms: seq<Metric>, ctx: Ctx, now: real, cond: Callable, act: Callable)
    ensures var b := Run(rs, ms, ctx, now, cond, act);
      && (forall j :: 0 <= j < |b.resultados| ==> b.resultados[j] != VNone)
      && |b.resultados| == SuccessTotal(b.regras) - SuccessTotal(rs)
      && |b.entradas| == RunTotal(b.regras) - RunTotal(rs)
      && (forall j :: 0 <= j < |b.entradas| ==> b.entradas[j].contexto == ScalarsOnly(ctx) && b.entradas[j].timestamp == now)
  {
    if |rs| > 0 {
      var init := rs[..|rs| - 1];
      RunRecords(init, ms, ctx, now, cond, act);
      var b := Run(init, ms, ctx, now, cond, act);
      assert Run(rs, ms, ctx, now, cond, act).regras[..|rs| - 1] == b.regras;
    }
  }

  /** Running the rules keeps their order, hence their priority order, and keeps sucessos <= execucoes. */
  lemma RunKeeps(rs: seq<Rule>, ms: seq<Metric>, ctx: Ctx, now: real, cond: Callable, act: Callable)
    ensures ByPriority(rs) ==> ByPriority(Run(rs, ms, ctx, now, cond, act).regras)
    ensures Counted(rs) ==> Counted(Run(rs, ms, ctx, now, cond, act).regras)
    ensures forall i :: 0 <= i < |rs| ==> Run(rs, ms, ctx, now, cond, act).regras[i].nome == rs[i].nome
  {
    RunEach(rs, ms, ctx, now, cond, act);
    forall i | 0 <= i < |rs| {
      FireEffect(rs[i], ms, ctx, now, cond, act);
    }
  }

  /** The factor `otimizar_prioridades` applies: 0.8 plus 0.4 times the success rate. */
  function Factor(r: Rule): real
    requires r.execucoes > 0
  {
    0.8 + 0.4 * (r.sucessos as real / r.execucoes as real)
  }

  /** The new priority `otimizar_prioridades` gives one rule. */
  function Adjust(r: Rule): Rule
  {
    if r.execucoes > 10 then r.(prioridade := r.prioridade * Factor(r)) else r
  }

  function Reprioritised(rs: seq<Rule>): (t: seq<Rule>)
    ensures |t| == |rs|
  {
    seq(|rs|, i requires 0 <= i < |rs| => Adjust(rs[i]))
  }

  /**
   * Only rules with more than 10 executions change, and only in priority,
   * by a factor between 0.8 (no success) and 1.2 (all successes).
   */
  lemma AdjustBounds(r: Rule)
    requires r.sucessos <= r.execucoes
    ensures Adjust(r).(prioridade := r.prioridade) == r
    ensures r.execucoes <= 10 ==> Adjust(r) == r
    ensures r.execucoes > 10 ==> Adjust(r).prioridade == r.prioridade * Factor(r) && 0.8 <= Factor(r) <= 1.2
  {
    if r.execucoes > 10 {
      DivBetween(r.sucessos as real, r.execucoes as real, 0.0, 1.0);
    }
  }

  /** After the optimisation the rules are again in priority order and keep sucessos <= execucoes. */
  lemma OptimisedValid(rs: seq<Rule>)
    requires Counted(rs)
    ensures ByPriority(SortBy(Reprioritised(rs), NegPriority))
    ensures Counted(SortBy(Reprioritised(rs), NegPriority))
  {
    var a := Reprioritised(rs);
    Resorted(a);
    var t := SortBy(a, NegPriority);
    SameRules(a, t);
    forall k | 0 <= k < |t| ensures t[k].sucessos <= t[k].execucoes {
      var j :| 0 <= j < |a| && a[j] == t[k];
      assert rs[j].sucessos <= rs[j].execucoes;
    }
  }

  /** Adding a fresh rule keeps the list in priority order and keeps sucessos <= execucoes. */
  lemma AddedValid(rs: seq<Rule>, r: Rule)
    requires Counted(rs) && r.sucessos <= r.execucoes
    ensures ByPriority(SortBy(rs + [r], NegPriority))
    ensures Counted(SortBy(rs + [r], NegPriority))
  {
    var a := rs + [r];
    Resorted(a);
    var t := SortBy(a, NegPriority);
    SameRules(a, t);
    forall k | 0 <= k < |t| ensures t[k].sucessos <= t[k].execucoes {
      var j :| 0 <= j < |a| && a[j] == t[k];
      if j < |rs| { assert a[j] == rs[j]; }
    }
  }

  /** A list in which no rule has run more than 10 times is left exactly as it was by the optimisation. */
  lemma OptimiseIdle(rs: seq<Rule>)
    requires ByPriority(rs)
    requires forall i :: 0 <= i < |rs| ==> rs[i].execucoes <= 10
    ensures SortBy(Reprioritised(rs), NegPriority) == rs
  {
    assert Reprioritised(rs) == rs;
    Resorted(rs);
  }

  /** The summary `avaliar_desempenho` gives of one rule. */
  datatype RuleStats = RuleStats(
    nome: string,
    execucoes: nat,
    sucessos: nat,
    taxaSucesso: real,
    ultimaExecucao: Option<real>,
    prioridade: real)

  datatype Performance = Performance(
    estatisticasRegras: seq<RuleStats>,
    totalExecucoes: nat,
    regrasAtivas: nat,
    taxaSucessoGlobal: real,
    totalRegras: nat)

  function StatsOf(r: Rule): RuleStats
  {
    RuleStats(r.nome, r.execucoes, r.sucessos,
      if r.execucoes > 0 then r.sucessos as real / r.execucoes as real else 0.0,
      r.ultimaExecucao, r.prioridade)
  }

  /** The distinct rule names of some history entries. */
  function Names(h: seq<Execution>): set<string>
  {
    if |h| == 0 then {} else Names(h[..|h| - 1]) + {h[|h| - 1].regra}
  }

  /** The number of entries whose action returned a value. */
  function Hits(h: seq<Execution>): nat
  {
    if |h| == 0 then 0 else Hits(h[..|h| - 1]) + (if h[|h| - 1].resultado then 1 else 0)
  }

  /** `avaliar_desempenho` on the rules and the history. */
  function Evaluate(rs: seq<Rule>, h: seq<Execution>): Performance
  {
    var recentes := PyLast(h, 100);
    Performance(
      seq(|rs|, i requires 0 <= i < |rs| => StatsOf(rs[i])),
      |recentes|,
      |Names(recentes)|,
      if |recentes| > 0 then Hits(recentes) as real / |recentes| as real else 0.0,
      |rs|)
  }

  lemma {:induction false} NamesBound(h: seq<Execution>)
    ensures |Names(h)| <= |h|
  {
    if |h| > 0 {
      NamesBound(h[..|h| - 1]);
    }
  }

  /** The names are exactly those of the entries. */
  lemma {:induction false} NamesExactly(h: seq<Execution>)
    ensures forall n :: n in Names(h) <==> exists i :: 0 <= i < |h| && h[i].regra == n
  {
    if |h| > 0 {
      var init := h[..|h| - 1];
      NamesExactly(init);
      assert Names(h) == Names(init) + {h[|h| - 1].regra};
      forall n ensures n in Names(h) <==> exists i :: 0 <= i < |h| && h[i].regra == n {
        if n in Names(h) && n != h[|h| - 1].regra {
          var i :| 0 <= i < |init| && init[i].regra == n;
          assert h[i] == init[i];
        }
        if n !in Names(h) {
          forall i | 0 <= i < |h| ensures h[i].regra != n {
            if i < |init| { assert h[i] == init[i]; }
          }
        }
      }
    }
  }

  lemma {:induction false} HitsBound(h: seq<Execution>)
    ensures Hits(h) <= |h|
  {
    if |h| > 0 {
      HitsBound(h[..|h| - 1]);
    }
  }

  /** The success rate of one rule lies in [0, 1]. */
  lemma RateBounds(r: Rule)
    requires r.sucessos <= r.execucoes
    ensures 0.0 <= StatsOf(r).taxaSucesso <= 1.0
  {
    if r.execucoes > 0 {
      DivBetween(r.sucessos as real, r.execucoes as real, 0.0, 1.0);
    }
  }

  /**
   * The recent analysis looks at the last min(100, n) entries, counts at
   * least one and at most that many distinct rules among them, and has a
   * global success rate in [0, 1].
   */
  lemma RecentBounds(h: seq<Execution>)
    ensures var p := Evaluate([], h);
      && p.totalExecucoes == (if |h| < 100 then |h| else 100)
      && p.regrasAtivas <= p.totalExecucoes
      && (p.totalExecucoes > 0 ==> p.regrasAtivas > 0)
      && 0.0 <= p.taxaSucessoGlobal <= 1.0
  {
    var recentes := PyLast(h, 100);
    assert |recentes| == (if |h| < 100 then |h| else 100);
    NamesBound(recentes);
    NamesExactly(recentes);
    if |recentes| > 0 {
      assert recentes[0].regra in Names(recentes);
      HitRate(recentes);
    }
  }

  /** The share of entries whose action returned a value lies in [0, 1]. */
  lemma HitRate(h: seq<Execution>)
    requires |h| > 0
    ensures 0.0 <= Hits(h) as real / |h| as real <= 1.0
  {
    HitsBound(h);
    DivBetween(Hits(h) as real, |h| as real, 0.0, 1.0);
  }

  /** The evaluation covers every rule, in order, each with a success rate in [0, 1]. */
  lemma EvaluateBounds(rs: seq<Rule>, h: seq<Execution>)
    requires Counted(rs)
    ensures var p := Evaluate(rs, h);
      && |p.estatisticasRegras| == p.totalRegras == |rs|
      && (forall i :: 0 <= i < |rs| ==>
            p.estatisticasRegras[i].nome == rs[i].nome
            && 0.0 <= p.estatisticasRegras[i].taxaSucesso <= 1.0)
      && p.totalExecucoes == Evaluate([], h).totalExecucoes
      && p.regrasAtivas == Evaluate([], h).regrasAtivas
      && p.taxaSucessoGlobal == Evaluate([], h).taxaSucessoGlobal
  {
    forall i | 0 <= i < |rs| ensures 0.0 <= StatsOf(rs[i]).taxaSucesso <= 1.0 {
      RateBounds(rs[i]);
    }
  }

  /** A run keeps the rules in priority order and counted, and the kept history bounded and scalar. */
  lemma RunValid(regras: seq<Rule>, historico: seq<Execution>, ms: seq<Metric>, ctx: Ctx, now: real, cond: Callable, act: Callable)
    requires ByPriority(regras) && Counted(regras) && |historico| <= HistoryCap && ScalarHistory(historico)
    ensures var b := Run(regras, ms, ctx, now, cond, act);
      && ByPriority(b.regras) && Counted(b.regras)
      && |Newest(historico + b.entradas, HistoryCap)| <= HistoryCap
      && ScalarHistory(Newest(historico + b.entradas, HistoryCap))
  {
    RunKeeps(regras, ms, ctx, now, cond, act);
    RunRecords(regras, ms, ctx, now, cond, act);
    var b := Run(regras, ms, ctx, now, cond, act);
    assert ScalarHistory(b.entradas) by {
      forall i | 0 <= i < |b.entradas| ensures ScalarContext(b.entradas[i].contexto) {
        assert b.entradas[i].contexto == ScalarsOnly(ctx);
      }
    }
    ScalarHistoryNewest(historico, b.entradas);
  }

  /** The kept history of two scalar histories is scalar. */
  lemma ScalarHistoryNewest(h: seq<Execution>, novas: seq<Execution>)
    requires ScalarHistory(h) && ScalarHistory(novas)
    ensures ScalarHistory(Newest(h + novas, HistoryCap))
  {
    var all := h + novas;
    forall i | 0 <= i < |all| ensures ScalarContext(all[i].contexto) {
      if i >= |h| {
        assert all[i] == novas[i - |h|];
      }
    }
    var r := Newest(all, HistoryCap);
    forall i | 0 <= i < |r| ensures ScalarContext(r[i].contexto) {
      assert r[i] == all[|all| - |r| + i];
    }
  }

  /** The loop of `executar` over the rules, the history kept as a deque of the newest entries. */
  method Disparar(regras: seq<Rule>, historico: seq<Execution>, metricas: seq<Metric>, contexto: Ctx, now: real,
                  cond: Callable, act: Callable) returns (rs: seq<Rule>, h: seq<Execution>, resultados: seq<Value>)
    requires |historico| <= HistoryCap
    ensures rs == Run(regras, metricas, contexto, now, cond, act).regras
    ensures h == Newest(historico + Run(regras, metricas, contexto, now, cond, act).entradas, HistoryCap)
    ensures resultados == Run(regras, metricas, contexto, now, cond, act).resultados
  {
    rs := regras;
    h := historico;
    ghost var b := Run([], metricas, contexto, now, cond, act);
    resultados := [];
    var i := 0;
    while i < |rs|
      invariant 0 <= i <= |rs| == |regras|
      invariant b == Run(regras[..i], metricas, contexto, now, cond, act)
      invariant rs == b.regras + regras[i..]
      invariant resultados == b.resultados
      invariant h == Newest(historico + b.entradas, HistoryCap)
    {
      assert rs[i] == regras[i];
      var o := Fire(rs[i], metricas, contexto, now, cond, act);
      RunStep(regras, i, metricas, contexto, now, cond, act);
      NewestAppend(historico + b.entradas, o.entradas, HistoryCap);
      assert historico + b.entradas + o.entradas == historico + (b.entradas + o.entradas);
      ReplaceNext(b.regras, regras[i..], o.regra);
      assert regras[i..][1..] == regras[i + 1..];
      h := Newest(h + o.entradas, HistoryCap);
      resultados := resultados + o.resultados;
      rs := rs[i := o.regra];
      b := Batch(b.regras + [o.regra], b.entradas + o.entradas, b.resultados + o.resultados);
      i := i + 1;
    }
    assert regras[..|regras|] == regras;
  }

  /** Overwriting the first element after a prefix: the prefix, the new element, then the rest. */
  lemma ReplaceNext<T>(done: seq<T>, rest: seq<T>, x: T)
    requires |rest| > 0
    ensures (done + rest)[|done| := x] == done + [x] + rest[1..]
  {
  }

  class RuleEngine {
    var regras: seq<Rule>
    var historico: seq<Execution>

    ghost predicate Valid()
      reads this
    {
      && ByPriority(regras)
      && Counted(regras)
      && |historico| <= HistoryCap
      && ScalarHistory(historico)
    }

    constructor ()
      ensures Valid()
      ensures regras == [] && historico == []
    {
      regras := [];
      historico := [];
    }

    /** `adicionar_regra`: append a fresh rule, then re-sort by priority, highest first. */
    method AdicionarRegra(condicao: nat, acao: nat, prioridade: real, nome: Option<string>, descricao: Option<string>)
      requires Valid()
      modifies this
      ensures Valid()
      ensures regras == SortBy(old(regras) + [Rule(RuleName(nome, |old(regras)|), descricao, condicao, acao, prioridade, 0, 0, None)], NegPriority)
      ensures historico == old(historico)
    {
      var r := Rule(RuleName(nome, |regras|), descricao, condicao, acao, prioridade, 0, 0, None);
      AddedValid(regras, r);
      regras := SortBy(regras + [r], NegPriority);
    }

    /** `executar`: every rule in turn; the results of the actions that returned a value. */
    method Executar(metricas: seq<Metric>, contexto: Ctx, now: real, cond: Callable, act: Callable)
      returns (resultados: seq<Value>)
      requires Valid()
      modifies this
      ensures Valid()
      ensures regras == Run(old(regras), metricas, contexto, now, cond, act).regras
      ensures historico == Newest(old(historico) + Run(old(regras), metricas, contexto, now, cond, act).entradas, HistoryCap)
      ensures resultados == Run(old(regras), metricas, contexto, now, cond, act).resultados
    {
      var rs, h, rr := Disparar(regras, historico, metricas, contexto, now, cond, act);
      RunValid(regras, historico, metricas, contexto, now, cond, act);
      regras, historico, resultados := rs, h, rr;
    }

    /** `avaliar_desempenho`. */
    function AvaliarDesempenho(): (p: Performance)
      requires Valid()
      reads this
      ensures p.totalRegras == |regras|
      ensures 0.0 <= p.taxaSucessoGlobal <= 1.0
      ensures forall i :: 0 <= i < |p.estatisticasRegras| ==> 0.0 <= p.estatisticasRegras[i].taxaSucesso <= 1.0
    {
      EvaluateBounds(regras, historico);
      RecentBounds(historico);
      Evaluate(regras, historico)
    }

    /** `otimizar_prioridades`: reweigh the rules with history, then re-sort. */
    method OtimizarPrioridades()
      requires Valid()
      modifies this
      ensures Valid()
      ensures regras == SortBy(Reprioritised(old(regras)), NegPriority)
      ensures historico == old(historico)
    {
      var rs := regras;
      var i := 0;
      while i < |rs|
        invariant 0 <= i <= |rs| == |regras|
        invariant regras == old(regras) && historico == old(historico)
        invariant forall j :: 0 <= j < i ==> rs[j] == Adjust(regras[j])
        invariant forall j :: i <= j < |rs| ==> rs[j] == regras[j]
      {
        if rs[i].execucoes > 10 {
          var taxa := rs[i].sucessos as real / rs[i].execucoes as real;
          rs := rs[i := rs[i].(prioridade := rs[i].prioridade * (0.8 + 0.4 * taxa))];
        }
        i := i + 1;
      }
      assert rs == Reprioritised(regras);
      OptimisedValid(regras);
      regras := SortBy(rs, NegPriority);
    }
  }
}
