/**
 * `GeradorAcoes` of src/gerador_acoes/gerador_acoes.py: the plan store
 * that asks the three generators for candidate actions, lets the optimiser
 * choose among them, keeps the newest hundred plans, and routes the
 * observed efficacy of a plan's actions back to the generator of each
 * action's horizon. The clock, the random draws and float formatting are
 * parameters.
 */
module Store {
  import opened Wrappers
  import opened Dicts
  import opened Values
  import opened Seqs
  import opened Metric
  import opened Patterns
  import opened Actions
  import opened Variation
  import opened Genetic
  import Hotfix
  import Refactor
  import Redesign

  /** `planos_recentes` is a `deque(maxlen=100)`. */
  const PlanCap: nat := 100

  const Criado: string := "criado"

  /** What the environment supplies to one `gerar_plano`. */
  datatype Entradas = Entradas(
    /** `time.time()`. */
    now: real,
    /** The random suffix of the plan id. */
    sorteio: int,
    /** The random suffixes of the hotfix, refactoring and redesign action ids, by position. */
    sorteiosHotfix: nat -> int,
    escolhas: nat -> nat,
    sorteiosRefatoracao: nat -> int,
    sorteiosRedesign: nat -> int,
    /** The draws of the optimiser. */
    acaso: Acaso,
    /** Float formatting in f-strings. */
    fmt: real -> string)

  /** The names of the metrics of dimension `dim`, in order. */
  function NamesOfDim(dim: string, ms: seq<Metric>): seq<string>
  {
    if |ms| == 0 then []
    else NamesOfDim(dim, ms[..|ms| - 1]) + (if ms[|ms| - 1].dimensao == dim then [ms[|ms| - 1].nome] else [])
  }

  /** The names of the metrics of any of the dimensions `dims`, dimension by dimension. */
  function NamesOfDims(dims: seq<string>, ms: seq<Metric>): seq<string>
  {
    if |dims| == 0 then [] else NamesOfDims(dims[..|dims| - 1], ms) + NamesOfDim(dims[|dims| - 1], ms)
  }

  /** The metric names the nested loops of `gerar_plano` visit, action by action. */
  function ImpactedRaw(acoes: seq<Acao>, ms: seq<Metric>): seq<string>
  {
    if |acoes| == 0 then [] else ImpactedRaw(acoes[..|acoes| - 1], ms) + NamesOfDims(Keys(acoes[|acoes| - 1].impacto), ms)
  }

  /** `list(metricas_impactadas)`, the set in the order its names were first added. */
  function ImpactedNames(acoes: seq<Acao>, ms: seq<Metric>): seq<string>
  {
    Unique(ImpactedRaw(acoes, ms))
  }

  /** The metric `ms[j]` is of a dimension some action of `acoes` estimates an impact on. */
  predicate Impacted(acoes: seq<Acao>, ms: seq<Metric>, j: int)
  {
    0 <= j < |ms| && exists i :: 0 <= i < |acoes| && ms[j].dimensao in Keys(acoes[i].impacto)
  }

  lemma {:induction false} NamesOfDimMembers(dim: string, ms: seq<Metric>)
    ensures forall x :: x in NamesOfDim(dim, ms) <==> exists j :: 0 <= j < |ms| && ms[j].dimensao == dim && ms[j].nome == x
  {
    if |ms| > 0 {
      NamesOfDimMembers(dim, ms[..|ms| - 1]);
      forall x | (exists j :: 0 <= j < |ms| && ms[j].dimensao == dim && ms[j].nome == x)
        ensures x in NamesOfDim(dim, ms)
      {
        var j :| 0 <= j < |ms| && ms[j].dimensao == dim && ms[j].nome == x;
        if j < |ms| - 1 {
          assert ms[..|ms| - 1][j] == ms[j];
        }
      }
    }
  }

  lemma {:induction false} NamesOfDimsMembers(dims: seq<string>, ms: seq<Metric>)
    ensures forall x :: x in NamesOfDims(dims, ms) <==>
      exists j :: 0 <= j < |ms| && ms[j].dimensao in dims && ms[j].nome == x
  {
    if |dims| > 0 {
      var init := dims[..|dims| - 1];
      var d := dims[|dims| - 1];
      NamesOfDimsMembers(init, ms);
      NamesOfDimMembers(d, ms);
      assert dims == init + [d];
    }
  }

  lemma {:induction false} ImpactedRawMembers(acoes: seq<Acao>, ms: seq<Metric>)
    ensures forall x :: x in ImpactedRaw(acoes, ms) <==> exists j :: Impacted(acoes, ms, j) && ms[j].nome == x
  {
    ImpactedRawSound(acoes, ms);
    ImpactedRawComplete(acoes, ms);
  }

  lemma {:induction false} ImpactedRawSound(acoes: seq<Acao>, ms: seq<Metric>)
    ensures forall x :: x in ImpactedRaw(acoes, ms) ==> exists j :: Impacted(acoes, ms, j) && ms[j].nome == x
  {
    if |acoes| > 0 {
      var init := acoes[..|acoes| - 1];
      var a := acoes[|acoes| - 1];
      ImpactedRawSound(init, ms);
      NamesOfDimsMembers(Keys(a.impacto), ms);
      assert ImpactedRaw(acoes, ms) == ImpactedRaw(init, ms) + NamesOfDims(Keys(a.impacto), ms);
      forall x | x in ImpactedRaw(acoes, ms) ensures exists j :: Impacted(acoes, ms, j) && ms[j].nome == x {
        if x in ImpactedRaw(init, ms) {
          var j :| Impacted(init, ms, j) && ms[j].nome == x;
          var i :| 0 <= i < |init| && ms[j].dimensao in Keys(init[i].impacto);
          assert init[i] == acoes[i];
          assert Impacted(acoes, ms, j);
        } else {
          var j :| 0 <= j < |ms| && ms[j].dimensao in Keys(a.impacto) && ms[j].nome == x;
          assert acoes[|acoes| - 1] == a;
          assert Impacted(acoes, ms, j);
        }
      }
    }
  }

  lemma {:induction false} ImpactedRawComplete(acoes: seq<Acao>, ms: seq<Metric>)
    ensures forall j :: Impacted(acoes, ms, j) ==> ms[j].nome in ImpactedRaw(acoes, ms)
  {
    if |acoes| > 0 {
      var init := acoes[..|acoes| - 1];
      var a := acoes[|acoes| - 1];
      ImpactedRawComplete(init, ms);
      NamesOfDimsMembers(Keys(a.impacto), ms);
      assert ImpactedRaw(acoes, ms) == ImpactedRaw(init, ms) + NamesOfDims(Keys(a.impacto), ms);
      forall j | Impacted(acoes, ms, j) ensures ms[j].nome in ImpactedRaw(acoes, ms) {
        var i :| 0 <= i < |acoes| && ms[j].dimensao in Keys(acoes[i].impacto);
        if i < |acoes| - 1 {
          assert init[i] == acoes[i];
          assert Impacted(init, ms, j);
        } else {
          assert ms[j].nome in NamesOfDims(Keys(a.impacto), ms);
        }
      }
    }
  }

  /**
   * The impacted metrics are the names, each once, of exactly the analysed
   * metrics whose dimension is a key of some chosen action's impact estimate.
   */
  lemma ImpactedNamesProperties(acoes: seq<Acao>, ms: seq<Metric>)
    ensures forall x :: x in ImpactedNames(acoes, ms) <==> exists j :: Impacted(acoes, ms, j) && ms[j].nome == x
    ensures Distinct(ImpactedNames(acoes, ms))
  {
    UniqueProperties(ImpactedRaw(acoes, ms));
    ImpactedRawMembers(acoes, ms);
  }

  /** The id `plano_<int(now)>_<sorteio>`. */
  function PlanId(e: Entradas): string
  {
    Hotfix.ActionId("plano", e.now, e.sorteio)
  }

  /** The plan `gerar_plano` makes from the candidate actions `todas`. */
  function PlanFor(diag: Diagnosis, todas: seq<Acao>, e: Entradas): Plano
  {
    if |todas| == 0 then Plano(PlanId(e), diag.id, [], e.now, 0.0, Criado, None, [])
    else
      OptimizeProperties(todas, TamanhoPadrao, GeracoesPadrao, e.acaso);
      var (acoes, score) := Optimize(todas, TamanhoPadrao, GeracoesPadrao, e.acaso).value;
      Plano(PlanId(e), diag.id, acoes, e.now, score, Criado, None, ImpactedNames(acoes, diag.metricas))
  }

  /** A new plan has the drawn id, belongs to the diagnosis, is "criado", has no result yet and is stamped now; with no candidates it is empty with score 0. */
  lemma PlanForHeader(diag: Diagnosis, todas: seq<Acao>, e: Entradas)
    ensures PlanFor(diag, todas, e).id == PlanId(e) && PlanFor(diag, todas, e).diagnosticoId == diag.id
    ensures PlanFor(diag, todas, e).status == Criado && PlanFor(diag, todas, e).resultado.None?
    ensures PlanFor(diag, todas, e).timestamp == e.now
    ensures |todas| == 0 ==> PlanFor(diag, todas, e).acoes == [] && PlanFor(diag, todas, e).score == 0.0
    ensures |todas| == 0 ==> PlanFor(diag, todas, e).metricasImpactadas == []
  {
  }

  /**
   * With candidates, a new plan holds the actions of one valid optimiser
   * plan over them, scored with that plan's total, and lists the metrics
   * `ImpactedNamesProperties` describes for those actions.
   */
  lemma PlanForChosen(diag: Diagnosis, todas: seq<Acao>, e: Entradas)
    requires |todas| > 0
    ensures exists plano ::
      ValidPlan(plano, |todas|) && PlanFor(diag, todas, e).acoes == Fitness.Pick(plano, todas) &&
      PlanFor(diag, todas, e).score == Fitness.Evaluate(plano, todas).total
    ensures PlanFor(diag, todas, e).metricasImpactadas == ImpactedNames(PlanFor(diag, todas, e).acoes, diag.metricas)
  {
    OptimizeProperties(todas, TamanhoPadrao, GeracoesPadrao, e.acaso);
  }

  /** The candidate actions: hotfixes, then refactorings, then redesigns; an error scoring a redesign propagates. */
  function CandidateActions(hotfix: Hotfix.GeradorHotfix, refatoracao: Refactor.MotorRefatoracao,
                            evolutivo: Redesign.ProjetistaEvolutivo, diag: Diagnosis, e: Entradas): Result<seq<Acao>>
    reads hotfix, refatoracao, evolutivo
  {
    var hs := MapIndexed(diag.anomalias,
      Hotfix.Planner(hotfix.templates, hotfix.historico, diag, e.now, e.sorteiosHotfix, e.escolhas, e.fmt));
    var rs := MapIndexed(Refactor.ApplicableNames(refatoracao.padroes, diag),
      Refactor.Planner(refatoracao.padroes, diag, e.now, e.sorteiosRefatoracao, e.fmt));
    var scores := Redesign.Scores(evolutivo.estrategias, diag, evolutivo.historico, e.now);
    if scores.Err? then Err(scores.error)
    else
      Ok(hs + rs + MapIndexed(Redesign.Selected(scores.value, Redesign.DefaultThreshold),
        Redesign.Planner(evolutivo.estrategias, diag, e.now, e.sorteiosRedesign, e.fmt)))
  }

  /** The first position of a plan with the id. */
  function IndexOf(planos: seq<Plano>, id: string): (r: Option<nat>)
    ensures r.Some? ==> r.value < |planos| && planos[r.value].id == id
  {
    if |planos| == 0 then None
    else
      var r := IndexOf(planos[..|planos| - 1], id);
      if r.Some? then r else if planos[|planos| - 1].id == id then Some(|planos| - 1) else None
  }

  /** `IndexOf` finds the first plan with the id, and finds none exactly when no plan has it. */
  lemma {:induction false} IndexOfProperties(planos: seq<Plano>, id: string)
    ensures IndexOf(planos, id).Some? ==>
      var i := IndexOf(planos, id).value;
      i < |planos| && planos[i].id == id && forall k :: 0 <= k < i ==> planos[k].id != id
    ensures IndexOf(planos, id).None? <==> forall k :: 0 <= k < |planos| ==> planos[k].id != id
  {
    if |planos| > 0 {
      var init := planos[..|planos| - 1];
      IndexOfProperties(init, id);
      assert forall k :: 0 <= k < |init| ==> init[k] == planos[k];
    }
  }

  /** `obter_plano`. */
  function Find(planos: seq<Plano>, id: string): Option<Plano>
  {
    var i := IndexOf(planos, id);
    if i.None? then None else Some(planos[i.value])
  }

  /** Python's truth value of an optional dictionary: present and non-empty. */
  predicate HasResult(resultado: Option<Ctx>)
  {
    resultado.Some? && |resultado.value| > 0
  }

  /** `atualizar_status_plano` on the stored plans: the first plan with the id gets the status, and the result when one is given. */
  function UpdateStatus(planos: seq<Plano>, id: string, status: string, resultado: Option<Ctx>): seq<Plano>
  {
    var i := IndexOf(planos, id);
    if i.None? then planos
    else
      var p := planos[i.value];
      planos[i.value := p.(status := status, resultado := if HasResult(resultado) then resultado else p.resultado)]
  }

  /**
   * An update changes nothing for an unknown id; otherwise it changes only
   * the status, and the result when one was given, of the first plan with
   * the id, which `obter_plano` then returns.
   */
  lemma UpdateStatusProperties(planos: seq<Plano>, id: string, status: string, resultado: Option<Ctx>)
    ensures Find(planos, id).None? ==> UpdateStatus(planos, id, status, resultado) == planos
    ensures var r := UpdateStatus(planos, id, status, resultado);
      && |r| == |planos|
      && (Find(planos, id).Some? ==>
          var i := IndexOf(planos, id).value;
          && (forall k :: 0 <= k < |r| && k != i ==> r[k] == planos[k])
          && Find(r, id) == Some(r[i])
          && r[i].status == status
          && r[i].resultado == (if HasResult(resultado) then resultado else planos[i].resultado)
          && r[i] == planos[i].(status := r[i].status, resultado := r[i].resultado))
  {
    IndexOfProperties(planos, id);
    var r := UpdateStatus(planos, id, status, resultado);
    IndexOfProperties(r, id);
    if IndexOf(planos, id).Some? {
      var i := IndexOf(planos, id).value;
      assert r[i].id == id;
      assert forall k :: 0 <= k < i ==> r[k].id != id;
    }
  }

  /** The name a refactoring or redesign action records its efficacy under, or the default. */
  function NameIn(contexto: Ctx, chave: string, padrao: string): string
  {
    var v := Get(contexto, chave);
    if v.Some? && v.value.VStr? then v.value.s else padrao
  }

  /** The result `registrar_eficacia_acoes` records for a refactoring or a redesign. */
  function Outcome(a: Acao, eficacia: real): Ctx
  {
    [("acao_id", VStr(a.id)), ("eficacia", VReal(eficacia))]
  }

  /** The hotfix generator's efficacy record after one action of the plan is registered. */
  function HotfixRecord(h: Dict<string, (real, real)>, a: Acao, eficacias: Dict<string, real>, now: real)
    : Dict<string, (real, real)>
  {
    if a.tipo == Hotfix && HasKey(eficacias, a.id) then Put(h, a.id, (GetOr(eficacias, a.id, 0.0), now)) else h
  }

  /** The application the refactoring engine records for one action, if any. */
  function RefactorRecord(a: Acao, eficacias: Dict<string, real>, now: real): seq<Refactor.Aplicacao>
  {
    if a.tipo == Refatoracao && HasKey(eficacias, a.id)
    then [Refactor.Aplicacao(NameIn(a.contexto, "padrao", "desconhecido"), Outcome(a, GetOr(eficacias, a.id, 0.0)), now)]
    else []
  }

  /** The evolution the redesign designer records for one action, if any. */
  function RedesignRecord(a: Acao, eficacias: Dict<string, real>, now: real): seq<Redesign.Evolucao>
  {
    if a.tipo == Redesign && HasKey(eficacias, a.id)
    then [Redesign.Evolucao(NameIn(a.contexto, "estrategia", "desconhecida"), Outcome(a, GetOr(eficacias, a.id, 0.0)), now)]
    else []
  }

  /** The efficacy record of the hotfix generator after the plan's actions are registered. */
  function HotfixRecords(h: Dict<string, (real, real)>, acoes: seq<Acao>, eficacias: Dict<string, real>, now: real)
    : Dict<string, (real, real)>
  {
    if |acoes| == 0 then h
    else HotfixRecord(HotfixRecords(h, acoes[..|acoes| - 1], eficacias, now), acoes[|acoes| - 1], eficacias, now)
  }

  /** The applications the refactoring engine records, in the plan's order. */
  function RefactorRecords(acoes: seq<Acao>, eficacias: Dict<string, real>, now: real): seq<Refactor.Aplicacao>
  {
    if |acoes| == 0 then []
    else RefactorRecords(acoes[..|acoes| - 1], eficacias, now) + RefactorRecord(acoes[|acoes| - 1], eficacias, now)
  }

  /** The evolutions the redesign designer records, in the plan's order. */
  function RedesignRecords(acoes: seq<Acao>, eficacias: Dict<string, real>, now: real): seq<Redesign.Evolucao>
  {
    if |acoes| == 0 then []
    else RedesignRecords(acoes[..|acoes| - 1], eficacias, now) + RedesignRecord(acoes[|acoes| - 1], eficacias, now)
  }

  /**
   * After registration every hotfix of the plan with a reported efficacy
   * has that efficacy on record (the last such action wins for a repeated
   * id), and every other action id keeps its old record.
   */
  lemma {:induction false} HotfixRecordsProperties(h: Dict<string, (real, real)>, acoes: seq<Acao>,
                                                   eficacias: Dict<string, real>, now: real)
    ensures forall id ::
      ((forall i :: 0 <= i < |acoes| && acoes[i].tipo == Hotfix ==> acoes[i].id != id) || !HasKey(eficacias, id)) ==>
        Get(HotfixRecords(h, acoes, eficacias, now), id) == Get(h, id)
    ensures forall id :: HasKey(eficacias, id) && (exists i :: 0 <= i < |acoes| && acoes[i].tipo == Hotfix && acoes[i].id == id) ==>
      Get(HotfixRecords(h, acoes, eficacias, now), id) == Some((GetOr(eficacias, id, 0.0), now))
  {
    if |acoes| > 0 {
      var init := acoes[..|acoes| - 1];
      HotfixRecordsProperties(h, init, eficacias, now);
      assert forall i :: 0 <= i < |init| ==> init[i] == acoes[i];
    }
  }

  /** One application per refactoring of the plan with a reported efficacy, and one evolution per redesign. */
  lemma {:induction false} RecordCounts(acoes: seq<Acao>, eficacias: Dict<string, real>, now: real)
    ensures |RefactorRecords(acoes, eficacias, now)| == Count(acoes, Refatoracao, eficacias)
    ensures |RedesignRecords(acoes, eficacias, now)| == Count(acoes, Redesign, eficacias)
  {
    if |acoes| > 0 {
      RecordCounts(acoes[..|acoes| - 1], eficacias, now);
    }
  }

  /** Registering one more action of the plan extends the three records by that action's own record. */
  lemma RecordsStep(h0: Dict<string, (real, real)>, r0: seq<Refactor.Aplicacao>, e0: seq<Redesign.Evolucao>,
                    acoes: seq<Acao>, k: nat, eficacias: Dict<string, real>, now: real)
    requires k < |acoes|
    ensures HotfixRecords(h0, acoes[..k + 1], eficacias, now) ==
      HotfixRecord(HotfixRecords(h0, acoes[..k], eficacias, now), acoes[k], eficacias, now)
    ensures Newest(r0 + RefactorRecords(acoes[..k + 1], eficacias, now), Refactor.HistoryCap) ==
      Newest(Newest(r0 + RefactorRecords(acoes[..k], eficacias, now), Refactor.HistoryCap) +
        RefactorRecord(acoes[k], eficacias, now), Refactor.HistoryCap)
    ensures e0 + RedesignRecords(acoes[..k + 1], eficacias, now) ==
      e0 + RedesignRecords(acoes[..k], eficacias, now) + RedesignRecord(acoes[k], eficacias, now)
  {
    var feitas, a := acoes[..k], acoes[k];
    assert acoes[..k + 1][..k] == feitas && acoes[..k + 1][k] == a;
    var rr, r1 := RefactorRecords(feitas, eficacias, now), RefactorRecord(a, eficacias, now);
    var dr, d1 := RedesignRecords(feitas, eficacias, now), RedesignRecord(a, eficacias, now);
    assert RefactorRecords(acoes[..k + 1], eficacias, now) == rr + r1;
    assert RedesignRecords(acoes[..k + 1], eficacias, now) == dr + d1;
    assert r0 + (rr + r1) == r0 + rr + r1;
    assert e0 + (dr + d1) == e0 + dr + d1;
    NewestAppend(r0 + rr, r1, Refactor.HistoryCap);
  }

  /** The number of actions of a horizon with a reported efficacy. */
  function Count(acoes: seq<Acao>, tipo: TipoAcao, eficacias: Dict<string, real>): nat
  {
    if |acoes| == 0 then 0
    else
      var a := acoes[|acoes| - 1];
      Count(acoes[..|acoes| - 1], tipo, eficacias) + if a.tipo == tipo && HasKey(eficacias, a.id) then 1 else 0
  }

  /** The position scan of `obter_plano`. */
  method Posicao(planos: seq<Plano>, id: string) returns (r: Option<nat>)
    ensures r == IndexOf(planos, id)
  {
    IndexOfProperties(planos, id);
    var k := 0;
    while k < |planos|
      invariant 0 <= k <= |planos|
      invariant forall j :: 0 <= j < k ==> planos[j].id != id
    {
      if planos[k].id == id {
        return Some(k);
      }
      k := k + 1;
    }
    return None;
  }

  /** The three nested loops of `gerar_plano` that collect the impacted metric names. */
  method MetricasImpactadas(acoes: seq<Acao>, ms: seq<Metric>) returns (nomes: seq<string>)
    ensures nomes == ImpactedNames(acoes, ms)
  {
    nomes := [];
    var i := 0;
    while i < |acoes|
      invariant 0 <= i <= |acoes|
      invariant nomes == Unique(ImpactedRaw(acoes[..i], ms))
    {
      assert acoes[..i + 1][..i] == acoes[..i];
      ghost var antes := ImpactedRaw(acoes[..i], ms);
      var dims := Keys(acoes[i].impacto);
      nomes := AdicionarDimensoes(nomes, antes, dims, ms);
      assert ImpactedRaw(acoes[..i + 1], ms) == antes + NamesOfDims(dims, ms);
      i := i + 1;
    }
    assert acoes[..i] == acoes;
  }

  /** The middle loop: the metrics of each dimension an action estimates an impact on join the set. */
  method AdicionarDimensoes(nomes: seq<string>, ghost antes: seq<string>, dims: seq<string>, ms: seq<Metric>)
    returns (r: seq<string>)
    requires nomes == Unique(antes)
    ensures r == Unique(antes + NamesOfDims(dims, ms))
  {
    r := nomes;
    var j := 0;
    assert antes + NamesOfDims(dims[..0], ms) == antes;
    while j < |dims|
      invariant 0 <= j <= |dims|
      invariant r == Unique(antes + NamesOfDims(dims[..j], ms))
    {
      assert dims[..j + 1][..j] == dims[..j];
      ghost var vistos := NamesOfDims(dims[..j], ms);
      ghost var novos := NamesOfDim(dims[j], ms);
      assert NamesOfDims(dims[..j + 1], ms) == vistos + novos;
      assert antes + (vistos + novos) == antes + vistos + novos;
      r := AdicionarNomes(r, antes + vistos, dims[j], ms);
      j := j + 1;
    }
    assert dims[..j] == dims;
  }

  /** The innermost loop: the names of the metrics of one dimension join the set. */
  method AdicionarNomes(nomes: seq<string>, ghost vistos: seq<string>, dim: string, ms: seq<Metric>)
    returns (r: seq<string>)
    requires nomes == Unique(vistos)
    ensures r == Unique(vistos + NamesOfDim(dim, ms))
  {
    r := nomes;
    var k := 0;
    assert vistos + NamesOfDim(dim, ms[..0]) == vistos;
    while k < |ms|
      invariant 0 <= k <= |ms|
      invariant r == Unique(vistos + NamesOfDim(dim, ms[..k]))
    {
      assert ms[..k + 1][..k] == ms[..k];
      if ms[k].dimensao == dim {
        var s := vistos + NamesOfDim(dim, ms[..k]);
        assert vistos + NamesOfDim(dim, ms[..k + 1]) == s + [ms[k].nome];
        assert (s + [ms[k].nome])[..|s|] == s;
        if ms[k].nome !in r {
          r := r + [ms[k].nome];
        }
      } else {
        assert NamesOfDim(dim, ms[..k + 1]) == NamesOfDim(dim, ms[..k]);
      }
      k := k + 1;
    }
    assert ms[..k] == ms;
  }

  class GeradorAcoes {
    const hotfix: Hotfix.GeradorHotfix
    const refatoracao: Refactor.MotorRefatoracao
    const evolutivo: Redesign.ProjetistaEvolutivo
    /** `planos_recentes`, oldest first. */
    var planos: seq<Plano>

    ghost predicate Valid()
      reads this, refatoracao
    {
      |planos| <= PlanCap && refatoracao.Valid()
    }

    constructor ()
      ensures Valid() && planos == []
      ensures fresh(hotfix) && fresh(refatoracao) && fresh(evolutivo)
      ensures hotfix.templates == [] && hotfix.historico == []
      ensures refatoracao.padroes == [] && refatoracao.historico == []
      ensures evolutivo.estrategias == [] && evolutivo.historico == []
    {
      hotfix := new Hotfix.GeradorHotfix();
      refatoracao := new Refactor.MotorRefatoracao();
      evolutivo := new Redesign.ProjetistaEvolutivo();
      planos := [];
    }

    /** The hotfixes of `gerar_plano`, one per anomaly. */
    method Imediatas(diag: Diagnosis, e: Entradas) returns (hs: seq<Acao>)
      ensures hs == MapIndexed(diag.anomalias,
        Hotfix.Planner(hotfix.templates, hotfix.historico, diag, e.now, e.sorteiosHotfix, e.escolhas, e.fmt))
    {
      hs := hotfix.GerarAcoes(diag, e.now, e.sorteiosHotfix, e.escolhas, e.fmt);
      MapIndexedAt(diag.anomalias,
        Hotfix.Planner(hotfix.templates, hotfix.historico, diag, e.now, e.sorteiosHotfix, e.escolhas, e.fmt));
    }

    /** The refactorings of `gerar_plano`, one per applicable pattern. */
    method Refatoracoes(diag: Diagnosis, e: Entradas) returns (rs: seq<Acao>)
      ensures rs == MapIndexed(Refactor.ApplicableNames(refatoracao.padroes, diag),
        Refactor.Planner(refatoracao.padroes, diag, e.now, e.sorteiosRefatoracao, e.fmt))
    {
      rs := refatoracao.GerarAcoes(diag, e.now, e.sorteiosRefatoracao, e.fmt);
      MapIndexedAt(Refactor.ApplicableNames(refatoracao.padroes, diag),
        Refactor.Planner(refatoracao.padroes, diag, e.now, e.sorteiosRefatoracao, e.fmt));
    }

    /** The redesigns of `gerar_plano`, one per strategy scored over the default threshold. */
    method Evolutivas(diag: Diagnosis, e: Entradas) returns (es: Result<seq<Acao>>)
      ensures var scores := Redesign.Scores(evolutivo.estrategias, diag, evolutivo.historico, e.now);
        && (es.Ok? <==> scores.Ok?)
        && (es.Err? ==> es.error == scores.error)
        && (es.Ok? ==> es.value == MapIndexed(Redesign.Selected(scores.value, Redesign.DefaultThreshold),
              Redesign.Planner(evolutivo.estrategias, diag, e.now, e.sorteiosRedesign, e.fmt)))
    {
      es := evolutivo.GerarAcoes(diag, e.now, Redesign.DefaultThreshold, e.sorteiosRedesign, e.fmt);
      var scores := Redesign.Scores(evolutivo.estrategias, diag, evolutivo.historico, e.now);
      if es.Ok? {
        MapIndexedAt(Redesign.Selected(scores.value, Redesign.DefaultThreshold),
          Redesign.Planner(evolutivo.estrategias, diag, e.now, e.sorteiosRedesign, e.fmt));
      }
    }

    /**
     * `gerar_plano`: the plan of the optimised candidates joins the bounded
     * store; an error scoring a redesign strategy propagates and stores nothing.
     */
    method GerarPlano(diag: Diagnosis, e: Entradas) returns (r: Result<Plano>)
      requires Valid()
      modifies this
      ensures Valid()
      ensures var c := CandidateActions(hotfix, refatoracao, evolutivo, diag, e);
        && r.Ok? == c.Ok?
        && (r.Ok? ==> r.value == PlanFor(diag, c.value, e) && planos == Newest(old(planos) + [r.value], PlanCap))
        && (r.Err? ==> planos == old(planos))
    {
      var todas := Candidatas(diag, e);
      if todas.Err? {
        return Err(todas.error);
      }
      var plano := NovoPlano(diag, todas.value, e);
      planos := Newest(planos + [plano], PlanCap);
      r := Ok(plano);
    }

    /** The three generators' actions of `gerar_plano`, hotfixes first and redesigns last. */
    method Candidatas(diag: Diagnosis, e: Entradas) returns (r: Result<seq<Acao>>)
      ensures r == CandidateActions(hotfix, refatoracao, evolutivo, diag, e)
    {
      var hs := Imediatas(diag, e);
      var rs := Refatoracoes(diag, e);
      var es := Evolutivas(diag, e);
      if es.Err? {
        return Err(es.error);
      }
      r := Ok(hs + rs + es.value);
    }

    /** `obter_plano`: the first stored plan with the id. */
    method ObterPlano(id: string) returns (r: Option<Plano>)
      ensures r == Find(planos, id)
    {
      var i := Posicao(planos, id);
      if i.None? {
        return None;
      }
      IndexOfProperties(planos, id);
      r := Some(planos[i.value]);
    }

    /** `atualizar_status_plano`: false for an unknown id; no check of the status value or its order. */
    method AtualizarStatusPlano(id: string, status: string, resultado: Option<Ctx>) returns (ok: bool)
      requires Valid()
      modifies this
      ensures Valid()
      ensures ok == Find(old(planos), id).Some?
      ensures planos == UpdateStatus(old(planos), id, status, resultado)
    {
      var i := Posicao(planos, id);
      if i.None? {
        return false;
      }
      IndexOfProperties(planos, id);
      var p := planos[i.value];
      planos := planos[i.value := p.(status := status, resultado := if HasResult(resultado) then resultado else p.resultado)];
      ok := true;
    }

    /** The body of the loop of `registrar_eficacia_acoes`: one action's efficacy goes to the generator of its horizon. */
    method RegistrarAcao(a: Acao, eficacias: Dict<string, real>, now: real)
      requires refatoracao.Valid()
      modifies hotfix, refatoracao, evolutivo
      ensures refatoracao.Valid()
      ensures hotfix.templates == old(hotfix.templates) && refatoracao.padroes == old(refatoracao.padroes)
      ensures evolutivo.estrategias == old(evolutivo.estrategias)
      ensures hotfix.historico == HotfixRecord(old(hotfix.historico), a, eficacias, now)
      ensures refatoracao.historico == Newest(old(refatoracao.historico) + RefactorRecord(a, eficacias, now), Refactor.HistoryCap)
      ensures evolutivo.historico == old(evolutivo.historico) + RedesignRecord(a, eficacias, now)
    {
      if !HasKey(eficacias, a.id) {
        assert refatoracao.historico + [] == refatoracao.historico;
        return;
      }
      match a.tipo
      case Hotfix => RegistrarHotfix(a, eficacias, now);
      case Refatoracao => RegistrarRefatoracao(a, eficacias, now);
      case Redesign => RegistrarRedesign(a, eficacias, now);
    }

    /** A hotfix's efficacy goes to the hotfix generator. */
    method RegistrarHotfix(a: Acao, eficacias: Dict<string, real>, now: real)
      requires refatoracao.Valid() && a.tipo == Hotfix && HasKey(eficacias, a.id)
      modifies hotfix
      ensures refatoracao.Valid()
      ensures hotfix.templates == old(hotfix.templates) && refatoracao.padroes == old(refatoracao.padroes)
      ensures evolutivo.estrategias == old(evolutivo.estrategias)
      ensures hotfix.historico == HotfixRecord(old(hotfix.historico), a, eficacias, now)
      ensures refatoracao.historico == Newest(old(refatoracao.historico) + RefactorRecord(a, eficacias, now), Refactor.HistoryCap)
      ensures evolutivo.historico == old(evolutivo.historico) + RedesignRecord(a, eficacias, now)
    {
      hotfix.RegistrarEficacia(a.id, GetOr(eficacias, a.id, 0.0), now);
      assert refatoracao.historico + [] == refatoracao.historico;
    }

    /** A refactoring's efficacy goes to the refactoring engine, under the pattern's name. */
    method RegistrarRefatoracao(a: Acao, eficacias: Dict<string, real>, now: real)
      requires refatoracao.Valid() && a.tipo == Refatoracao && HasKey(eficacias, a.id)
      modifies refatoracao
      ensures refatoracao.Valid()
      ensures hotfix.templates == old(hotfix.templates) && refatoracao.padroes == old(refatoracao.padroes)
      ensures evolutivo.estrategias == old(evolutivo.estrategias)
      ensures hotfix.historico == HotfixRecord(old(hotfix.historico), a, eficacias, now)
      ensures refatoracao.historico == Newest(old(refatoracao.historico) + RefactorRecord(a, eficacias, now), Refactor.HistoryCap)
      ensures evolutivo.historico == old(evolutivo.historico) + RedesignRecord(a, eficacias, now)
    {
      refatoracao.RegistrarAplicacao(NameIn(a.contexto, "padrao", "desconhecido"), Outcome(a, GetOr(eficacias, a.id, 0.0)), now);
    }

    /** A redesign's efficacy goes to the evolutionary designer, under the strategy's name. */
    method RegistrarRedesign(a: Acao, eficacias: Dict<string, real>, now: real)
      requires refatoracao.Valid() && a.tipo == Redesign && HasKey(eficacias, a.id)
      modifies evolutivo
      ensures refatoracao.Valid()
      ensures hotfix.templates == old(hotfix.templates) && refatoracao.padroes == old(refatoracao.padroes)
      ensures evolutivo.estrategias == old(evolutivo.estrategias)
      ensures hotfix.historico == HotfixRecord(old(hotfix.historico), a, eficacias, now)
      ensures refatoracao.historico == Newest(old(refatoracao.historico) + RefactorRecord(a, eficacias, now), Refactor.HistoryCap)
      ensures evolutivo.historico == old(evolutivo.historico) + RedesignRecord(a, eficacias, now)
    {
      evolutivo.RegistrarEvolucao(NameIn(a.contexto, "estrategia", "desconhecida"), Outcome(a, GetOr(eficacias, a.id, 0.0)), now);
      assert refatoracao.historico + [] == refatoracao.historico;
    }

    /**
     * `registrar_eficacia_acoes`: false for an unknown plan; otherwise every
     * action of the plan with a reported efficacy is recorded by the
     * generator of its horizon, in the plan's order.
     */
    method RegistrarEficaciaAcoes(id: string, eficacias: Dict<string, real>, now: real) returns (ok: bool)
      requires Valid()
      modifies hotfix, refatoracao, evolutivo
      ensures Valid()
      ensures ok == Find(planos, id).Some?
      ensures hotfix.templates == old(hotfix.templates) && refatoracao.padroes == old(refatoracao.padroes)
      ensures evolutivo.estrategias == old(evolutivo.estrategias)
      ensures !ok ==>
        hotfix.historico == old(hotfix.historico) && refatoracao.historico == old(refatoracao.historico) &&
        evolutivo.historico == old(evolutivo.historico)
      ensures ok ==> var acoes := Find(planos, id).value.acoes;
        && hotfix.historico == HotfixRecords(old(hotfix.historico), acoes, eficacias, now)
        && refatoracao.historico == Newest(old(refatoracao.historico) + RefactorRecords(acoes, eficacias, now), Refactor.HistoryCap)
        && evolutivo.historico == old(evolutivo.historico) + RedesignRecords(acoes, eficacias, now)
    {
      var plano := ObterPlano(id);
      if plano.None? {
        return false;
      }
      var acoes := plano.value.acoes;
      ghost var h0, r0, e0 := hotfix.historico, refatoracao.historico, evolutivo.historico;
      var k := 0;
      while k < |acoes|
        invariant 0 <= k <= |acoes|
        invariant refatoracao.Valid()
        invariant hotfix.templates == old(hotfix.templates) && refatoracao.padroes == old(refatoracao.padroes)
        invariant evolutivo.estrategias == old(evolutivo.estrategias)
        invariant hotfix.historico == HotfixRecords(h0, acoes[..k], eficacias, now)
        invariant refatoracao.historico == Newest(r0 + RefactorRecords(acoes[..k], eficacias, now), Refactor.HistoryCap)
        invariant evolutivo.historico == e0 + RedesignRecords(acoes[..k], eficacias, now)
      {
        RecordsStep(h0, r0, e0, acoes, k, eficacias, now);
        RegistrarAcao(acoes[k], eficacias, now);
        k := k + 1;
      }
      assert acoes[..k] == acoes;
      ok := true;
    }
  }

  /** The plan of the optimised candidates, built as `gerar_plano` builds it. */
  method NovoPlano(diag: Diagnosis, todas: seq<Acao>, e: Entradas) returns (p: Plano)
    ensures p == PlanFor(diag, todas, e)
  {
    if |todas| == 0 {
      return Plano(PlanId(e), diag.id, [], e.now, 0.0, Criado, None, []);
    }
    var r := OtimizarPlano(todas, TamanhoPadrao, GeracoesPadrao, e.acaso);
    OptimizeProperties(todas, TamanhoPadrao, GeracoesPadrao, e.acaso);
    var (acoes, score) := r.value;
    var nomes := MetricasImpactadas(acoes, diag.metricas);
    p := Plano(PlanId(e), diag.id, acoes, e.now, score, Criado, None, nomes);
  }
}
