/**
 * `GeradorHotfix` of src/gerador_acoes/gerador_acoes.py: templates of
 * immediate fixes registered per anomaly-pattern id, the recorded efficacy
 * of applied actions, the choice of the best template for a diagnosis, and
 * one HOTFIX action per detected anomaly, from its template or, failing
 * that, from a fixed per-dimension table. The clock reading, the random
 * suffixes of action ids, the random tie-break and float formatting are
 * parameters.
 */
module Hotfix {
  import opened Wrappers
  import opened Dicts
  import opened Values
  import opened Seqs
  import opened Text
  import opened Patterns
  import opened Actions
  import opened Fill

  /** A hotfix template: every key of the Python dictionary is optional. */
  datatype Template = Template(
    id: Option<string>,
    descricao: Option<string>,
    comandos: Option<seq<string>>,
    impacto: Option<Dict<string, real>>,
    tempo: Option<real>,
    recursos: Option<Ctx>,
    prioridade: Option<real>,
    dependencias: Option<seq<string>>,
    risco: Option<real>,
    reversivel: Option<bool>,
    /** Context values the template requires. */
    condicoes: Option<Ctx>,
    /** Ids of earlier actions whose efficacy rates the template. */
    acoesRelacionadas: Option<seq<string>>,
    /** The dictionary also holds keys the generator never reads (a name, a note). */
    outrasChaves: bool)

  /** The empty dictionary, which Python treats as false. */
  const EmptyTemplate := Template(None, None, None, None, None, None, None, None, None, None, None, None, false)

  /** `if template:`: a template dictionary is true exactly when it holds some key, read by the generator or not. */
  predicate Truthy(t: Template)
  {
    t != EmptyTemplate
  }

  function OrElse<T>(o: Option<T>, d: T): T
  {
    if o.Some? then o.value else d
  }

  /** Every condition names a context key holding an equal value. */
  predicate Applicable(condicoes: Ctx, contexto: Ctx)
  {
    forall i :: 0 <= i < |condicoes| ==>
      Get(contexto, condicoes[i].0).Some? && PyEq(Get(contexto, condicoes[i].0).value, condicoes[i].1)
  }

  /** The recorded efficacies of the related actions, in the order they are listed. */
  function Eficacias(relacionadas: seq<string>, historico: Dict<string, (real, real)>): (r: seq<real>)
    ensures |r| <= |relacionadas|
  {
    if |relacionadas| == 0 then []
    else
      var resto := Eficacias(relacionadas[..|relacionadas| - 1], historico);
      match Get(historico, relacionadas[|relacionadas| - 1])
      case Some(e) => resto + [e.0]
      case None => resto
  }

  /**
   * A template's score: -1 when its conditions fail, otherwise the mean
   * recorded efficacy of its related actions, 0.5 without any record.
   */
  function TemplateScore(t: Template, contexto: Ctx, historico: Dict<string, (real, real)>): real
  {
    if t.condicoes.Some? && !Applicable(t.condicoes.value, contexto) then -1.0
    else if t.acoesRelacionadas.Some? then
      var efs := Eficacias(t.acoesRelacionadas.value, historico);
      if |efs| > 0 then Mean(efs) else 0.5
    else 0.5
  }

  function Scores(ts: seq<Template>, contexto: Ctx, historico: Dict<string, (real, real)>): (r: seq<real>)
    ensures |r| == |ts|
    ensures forall i :: 0 <= i < |ts| ==> r[i] == TemplateScore(ts[i], contexto, historico)
  {
    seq(|ts|, i requires 0 <= i < |ts| => TemplateScore(ts[i], contexto, historico))
  }

  /** The positions whose score equals `m`, in order. */
  function Positions(scores: seq<real>, m: real): (r: seq<nat>)
    ensures forall k :: 0 <= k < |r| ==> r[k] < |scores| && scores[r[k]] == m
    ensures forall i :: 0 <= i < |scores| && scores[i] == m ==> i in r
  {
    if |scores| == 0 then []
    else
      var resto := Positions(scores[..|scores| - 1], m);
      if scores[|scores| - 1] == m then resto + [|scores| - 1] else resto
  }

  /**
   * `_selecionar_template`: nothing without templates, the sole template
   * unconditionally, otherwise a best-scoring template (ties broken by the
   * draw `escolha`), or nothing when every template fails its conditions.
   */
  function Select(ts: seq<Template>, contexto: Ctx, historico: Dict<string, (real, real)>, escolha: nat): Option<Template>
  {
    if |ts| == 0 then None
    else if |ts| == 1 then Some(ts[0])
    else
      var scores := Scores(ts, contexto, historico);
      var m := Max(scores);
      if m < 0.0 then None
      else
        var melhores := Positions(scores, m);
        Some(ts[melhores[escolha % |melhores|]])
  }

  /** Efficacies recorded in [0, 1] keep every score at -1 or in [0, 1]. */
  predicate EfficacyBounded(historico: Dict<string, (real, real)>)
  {
    forall i :: 0 <= i < |historico| ==> 0.0 <= historico[i].1.0 <= 1.0
  }

  lemma {:induction false} EficaciasBounded(relacionadas: seq<string>, historico: Dict<string, (real, real)>)
    requires EfficacyBounded(historico)
    ensures forall i :: 0 <= i < |Eficacias(relacionadas, historico)| ==> 0.0 <= Eficacias(relacionadas, historico)[i] <= 1.0
  {
    if |relacionadas| > 0 {
      EficaciasBounded(relacionadas[..|relacionadas| - 1], historico);
      GetFinds(historico, relacionadas[|relacionadas| - 1]);
      var e := Get(historico, relacionadas[|relacionadas| - 1]);
      if e.Some? {
        var j :| 0 <= j < |historico| && historico[j] == (relacionadas[|relacionadas| - 1], e.value);
      }
    }
  }

  /** A score is -1 exactly when the template's conditions fail; otherwise it lies in [0, 1]. */
  lemma ScoreRange(t: Template, contexto: Ctx, historico: Dict<string, (real, real)>)
    requires EfficacyBounded(historico)
    ensures TemplateScore(t, contexto, historico) == -1.0 <==> t.condicoes.Some? && !Applicable(t.condicoes.value, contexto)
    ensures TemplateScore(t, contexto, historico) != -1.0 ==> 0.0 <= TemplateScore(t, contexto, historico) <= 1.0
  {
    if t.acoesRelacionadas.Some? {
      var efs := Eficacias(t.acoesRelacionadas.value, historico);
      if |efs| > 0 {
        EficaciasBounded(t.acoesRelacionadas.value, historico);
        SumBounds(efs, 0.0, 1.0);
        MeanBetween(efs, 0.0, 1.0);
      }
    }
  }

  /**
   * The choice: none only without templates or when several all fail their
   * conditions; a sole template is taken as it is; otherwise the choice is
   * one of the templates and no template scores higher.
   */
  lemma SelectChoice(ts: seq<Template>, contexto: Ctx, historico: Dict<string, (real, real)>, escolha: nat)
    requires EfficacyBounded(historico)
    ensures Select(ts, contexto, historico, escolha).None? <==>
      |ts| == 0 || (|ts| > 1 && forall i :: 0 <= i < |ts| ==> ts[i].condicoes.Some? && !Applicable(ts[i].condicoes.value, contexto))
    ensures |ts| == 1 ==> Select(ts, contexto, historico, escolha) == Some(ts[0])
    ensures |ts| > 1 && Select(ts, contexto, historico, escolha).Some? ==>
      exists k :: 0 <= k < |ts| && Select(ts, contexto, historico, escolha) == Some(ts[k])
        && TemplateScore(ts[k], contexto, historico) >= 0.0
        && forall j :: 0 <= j < |ts| ==> TemplateScore(ts[j], contexto, historico) <= TemplateScore(ts[k], contexto, historico)
  {
    if |ts| > 1 {
      var scores := Scores(ts, contexto, historico);
      forall i | 0 <= i < |ts| {
        ScoreRange(ts[i], contexto, historico);
      }
      var m := Max(scores);
      if m >= 0.0 {
        var melhores := Positions(scores, m);
        var w :| 0 <= w < |scores| && m == scores[w];
        assert w in melhores;
        var k := melhores[escolha % |melhores|];
        assert scores[k] == m;
      }
    }
  }

  /** `f"{prefixo}_{int(time.time())}_{random.randint(1000, 9999)}"`. */
  function ActionId(prefixo: string, now: real, sorteio: int): string
  {
    prefixo + "_" + IntText(Trunc(now)) + "_" + IntText(sorteio)
  }

  /**
   * `_preencher_template`: a HOTFIX action from the template, its commands
   * filled with the diagnosis (confidence included), and the template's
   * values where given, else description "Ação de estabilização imediata",
   * 60 s, priority 0.8, risk 0.3, reversible.
   */
  function FromTemplate(t: Template, diag: Diagnosis, id: string, now: real, fmt: real -> string): Acao
  {
    Acao(
      id, Hotfix,
      OrElse(t.descricao, "Ação de estabilização imediata"),
      FillCommands(OrElse(t.comandos, []), diag.anomalias, diag.contexto, true, fmt),
      OrElse(t.impacto, []),
      OrElse(t.tempo, 60.0),
      OrElse(t.recursos, []),
      OrElse(t.prioridade, 0.8),
      OrElse(t.dependencias, []),
      OrElse(t.risco, 0.3),
      OrElse(t.reversivel, true),
      [("diagnostico_id", VStr(diag.id)), ("template_id", VStr(OrElse(t.id, "desconhecido"))), ("timestamp", VReal(now))])
  }

  /**
   * A filled template is a HOTFIX with one command per template command;
   * each value the template gives is kept, each it omits takes its default,
   * and the context records the diagnosis and the template.
   */
  lemma TemplateAction(t: Template, diag: Diagnosis, id: string, now: real, fmt: real -> string)
    ensures var a := FromTemplate(t, diag, id, now, fmt);
      && a.id == id && a.tipo == Hotfix
      && |a.comandos| == (if t.comandos.Some? then |t.comandos.value| else 0)
      && (t.prioridade.Some? ==> a.prioridade == t.prioridade.value) && (t.prioridade.None? ==> a.prioridade == 0.8)
      && (t.risco.Some? ==> a.risco == t.risco.value) && (t.risco.None? ==> a.risco == 0.3)
      && (t.tempo.Some? ==> a.tempo == t.tempo.value) && (t.tempo.None? ==> a.tempo == 60.0)
      && (t.reversivel.None? ==> a.reversivel)
      && Keys(a.contexto) == ["diagnostico_id", "template_id", "timestamp"]
      && Get(a.contexto, "diagnostico_id") == Some(VStr(diag.id))
  {
  }

  const ScaleCommand :="kubectl scale deployment app-service --replicas=3"
  const RestartCommand := "kubectl rollout restart deployment error-handler"
  const EvictionCommand := "redis-cli CONFIG SET maxmemory-policy allkeys-lru"
  const LimitsCommand := "kubectl set resources deployment resource-intensive-app --limits=cpu=2,memory=4Gi"

  /** The generic command and impact of a dimension, if the table knows it. */
  function DimAction(dim: string): Option<(string, real)>
  {
    if dim == "throughput" then Some((ScaleCommand, 0.3))
    else if dim == "erros" then Some((RestartCommand, 0.4))
    else if dim == "latencia" then Some((EvictionCommand, 0.3))
    else if dim == "recursos" then Some((LimitsCommand, 0.5))
    else None
  }

  const MonitorCommand := "echo 'Ação genérica: monitorar sistema'"

  /** One command per known dimension, in order. */
  function DimCommands(dims: seq<string>): seq<string>
  {
    if |dims| == 0 then []
    else
      var resto := DimCommands(dims[..|dims| - 1]);
      match DimAction(dims[|dims| - 1])
      case Some(a) => resto + [a.0]
      case None => resto
  }

  /** The impact of every known dimension. */
  function DimImpacts(dims: seq<string>): Dict<string, real>
  {
    if |dims| == 0 then []
    else
      var resto := DimImpacts(dims[..|dims| - 1]);
      match DimAction(dims[|dims| - 1])
      case Some(a) => Put(resto, dims[|dims| - 1], a.1)
      case None => resto
  }

  /** The generic action for an anomaly without a usable template. */
  function Generic(anomalia: (Pattern, real), diag: Diagnosis, id: string, now: real): Acao
  {
    var cmds := DimCommands(anomalia.0.dimensoes);
    Acao(
      id, Hotfix,
      "Estabilização imediata para " + anomalia.0.nome,
      if |cmds| == 0 then [MonitorCommand] else cmds,
      DimImpacts(anomalia.0.dimensoes),
      30.0, [], 0.7, [], 0.4, true,
      [("diagnostico_id", VStr(diag.id)), ("anomalia_id", VStr(anomalia.0.id)), ("confianca", VReal(anomalia.1)),
       ("timestamp", VReal(now)), ("generica", VBool(true))])
  }

  /** The monitoring command is not in the dimension table. */
  lemma NotMonitor(dim: string)
    requires DimAction(dim).Some?
    ensures DimAction(dim).value.0 != MonitorCommand
  {
    assert |DimAction(dim).value.0| != |MonitorCommand|;
  }

  /** The command list of the generic action: empty exactly when no dimension is known, and never the monitoring command. */
  lemma {:induction false} DimCommandsShape(dims: seq<string>)
    ensures DimCommands(dims) == [] <==> forall i :: 0 <= i < |dims| ==> DimAction(dims[i]).None?
    ensures MonitorCommand !in DimCommands(dims)
  {
    if |dims| > 0 {
      var init := dims[..|dims| - 1];
      DimCommandsShape(init);
      var last := dims[|dims| - 1];
      if DimAction(last).None? {
        forall i | 0 <= i < |init| ensures DimAction(init[i]) == DimAction(dims[i]) {}
      } else {
        NotMonitor(last);
      }
    }
  }

  /** The generic impacts: exactly the known dimensions of the anomaly, each with its table value. */
  lemma {:induction false} DimImpactsShape(dims: seq<string>, d: string)
    ensures Get(DimImpacts(dims), d).Some? <==> d in dims && DimAction(d).Some?
    ensures Get(DimImpacts(dims), d).Some? ==> Get(DimImpacts(dims), d).value == DimAction(d).value.1
  {
    if |dims| > 0 {
      var init := dims[..|dims| - 1];
      DimImpactsShape(init, d);
      assert dims == init + [dims[|dims| - 1]];
    }
  }

  /**
   * The fallback: a reversible HOTFIX of priority 0.7, risk 0.4 and 30 s,
   * with the table's commands for the known dimensions, or the single
   * monitoring command when none is known.
   */
  lemma GenericFallback(anomalia: (Pattern, real), diag: Diagnosis, id: string, now: real)
    ensures var a := Generic(anomalia, diag, id, now);
      && a.tipo == Hotfix && a.prioridade == 0.7 && a.risco == 0.4 && a.tempo == 30.0 && a.reversivel
      && |a.comandos| >= 1
      && (a.comandos == [MonitorCommand] <==> forall i :: 0 <= i < |anomalia.0.dimensoes| ==> DimAction(anomalia.0.dimensoes[i]).None?)
  {
    DimCommandsShape(anomalia.0.dimensoes);
  }

  /** The action for one detected anomaly, given the template chosen for it. */
  function HotfixFor(anomalia: (Pattern, real), t: Option<Template>, diag: Diagnosis, now: real, sorteio: int,
                     fmt: real -> string): Acao
  {
    if t.Some? && Truthy(t.value) then FromTemplate(t.value, diag, ActionId("hotfix", now, sorteio), now, fmt)
    else Generic(anomalia, diag, ActionId("hotfix_gen", now, sorteio), now)
  }

  /** Every action of the hotfix generator is a HOTFIX, whichever template was chosen. */
  lemma HotfixKind(anomalia: (Pattern, real), t: Option<Template>, diag: Diagnosis, now: real, sorteio: int,
                   fmt: real -> string)
    ensures HotfixFor(anomalia, t, diag, now, sorteio, fmt).tipo == Hotfix
  {
  }

  /**
   * `if template:` decides between the filled template and the generic
   * action: no template, or the empty dictionary, gives the generic action;
   * a dictionary holding only keys the generator never reads is still true
   * and gives the template's action with every default.
   */
  lemma HotfixForTemplate(anomalia: (Pattern, real), t: Option<Template>, diag: Diagnosis, now: real, sorteio: int,
                          fmt: real -> string)
    ensures var a := HotfixFor(anomalia, t, diag, now, sorteio, fmt);
      && (t.None? || t == Some(EmptyTemplate) ==> a == Generic(anomalia, diag, ActionId("hotfix_gen", now, sorteio), now))
      && (t == Some(EmptyTemplate.(outrasChaves := true)) ==>
            && a.id == ActionId("hotfix", now, sorteio) && a.descricao == "Ação de estabilização imediata" && a.comandos == []
            && a.prioridade == 0.8 && a.risco == 0.3 && a.tempo == 60.0 && a.reversivel
            && Get(a.contexto, "template_id") == Some(VStr("desconhecido")))
  {
    if t == Some(EmptyTemplate.(outrasChaves := true)) {
      assert Truthy(t.value);
      TemplateAction(t.value, diag, ActionId("hotfix", now, sorteio), now, fmt);
    }
  }

  /** The action `gerar_acoes` makes for one anomaly, with the generator's templates and efficacy record. */
  function Planned(templates: Dict<string, seq<Template>>, historico: Dict<string, (real, real)>,
                   anomalia: (Pattern, real), diag: Diagnosis, now: real, sorteio: int, escolha: nat,
                   fmt: real -> string): Acao
  {
    HotfixFor(anomalia, Select(GetOr(templates, anomalia.0.id, []), diag.contexto, historico, escolha),
              diag, now, sorteio, fmt)
  }

  /** The action for the anomaly at position `k`, with the `k`-th draws. */
  function Planner(templates: Dict<string, seq<Template>>, historico: Dict<string, (real, real)>, diag: Diagnosis,
                   now: real, sorteios: nat -> int, escolhas: nat -> nat, fmt: real -> string): ((Pattern, real), nat) -> Acao
  {
    (anomalia: (Pattern, real), k: nat) => Planned(templates, historico, anomalia, diag, now, sorteios(k), escolhas(k), fmt)
  }

  /** The scoring loop of `_selecionar_template` over one pattern's templates. */
  method Selecionar(ts: seq<Template>, contexto: Ctx, historico: Dict<string, (real, real)>, escolha: nat)
    returns (r: Option<Template>)
    ensures r == Select(ts, contexto, historico, escolha)
  {
    if |ts| == 0 {
      return None;
    }
    if |ts| == 1 {
      return Some(ts[0]);
    }
    var scores: seq<real> := [];
    var i := 0;
    while i < |ts|
      invariant 0 <= i <= |ts|
      invariant scores == Scores(ts[..i], contexto, historico)
    {
      var t := ts[i];
      var score: real;
      if t.condicoes.Some? && !Applicable(t.condicoes.value, contexto) {
        score := -1.0;
      } else if t.acoesRelacionadas.Some? {
        var efs := Eficacias(t.acoesRelacionadas.value, historico);
        score := if |efs| > 0 then Mean(efs) else 0.5;
      } else {
        score := 0.5;
      }
      scores := scores + [score];
      i := i + 1;
    }
    assert ts[..i] == ts;
    var m := Max(scores);
    if m < 0.0 {
      return None;
    }
    var melhores := Positions(scores, m);
    return Some(ts[melhores[escolha % |melhores|]]);
  }

  /** The actions for the anomalies of a diagnosis, in order. */
  method AcoesPara(templates: Dict<string, seq<Template>>, historico: Dict<string, (real, real)>, diag: Diagnosis,
                   now: real, sorteios: nat -> int, escolhas: nat -> nat, fmt: real -> string) returns (acoes: seq<Acao>)
    ensures acoes == MapIndexed(diag.anomalias, Planner(templates, historico, diag, now, sorteios, escolhas, fmt))
  {
    var anomalias := diag.anomalias;
    var f := Planner(templates, historico, diag, now, sorteios, escolhas, fmt);
    acoes := [];
    var k := 0;
    while k < |anomalias|
      invariant 0 <= k <= |anomalias|
      invariant acoes == MapIndexed(anomalias[..k], f)
    {
      var acao := AcaoPara(templates, historico, anomalias[k], diag, now, sorteios(k), escolhas(k), fmt);
      assert acao == f(anomalias[k], k);
      MapIndexedStep(anomalias, k, f);
      acoes := acoes + [acao];
      k := k + 1;
    }
    assert anomalias[..k] == anomalias;
  }

  /** The action for one anomaly: from its template, filled in, or else the generic one. */
  method AcaoPara(templates: Dict<string, seq<Template>>, historico: Dict<string, (real, real)>,
                  anomalia: (Pattern, real), diag: Diagnosis, now: real, sorteio: int, escolha: nat,
                  fmt: real -> string) returns (acao: Acao)
    ensures acao == Planned(templates, historico, anomalia, diag, now, sorteio, escolha, fmt)
    ensures acao.tipo == Hotfix
  {
    var t := Selecionar(GetOr(templates, anomalia.0.id, []), diag.contexto, historico, escolha);
    if t.Some? && Truthy(t.value) {
      var cmds := PreencherComandos(OrElse(t.value.comandos, []), diag.anomalias, diag.contexto, true, fmt);
      acao := FromTemplate(t.value, diag, ActionId("hotfix", now, sorteio), now, fmt);
      assert acao.comandos == cmds;
    } else {
      acao := AcaoGenerica(anomalia, diag, ActionId("hotfix_gen", now, sorteio), now);
    }
  }

  /** The commands and impacts of the known dimensions, gathered dimension by dimension. */
  method ComandosGenericos(dims: seq<string>) returns (comandos: seq<string>, impacto: Dict<string, real>)
    ensures comandos == DimCommands(dims) && impacto == DimImpacts(dims)
  {
    comandos := [];
    impacto := [];
    var i := 0;
    while i < |dims|
      invariant 0 <= i <= |dims|
      invariant comandos == DimCommands(dims[..i])
      invariant impacto == DimImpacts(dims[..i])
    {
      assert dims[..i + 1][..i] == dims[..i];
      var dim := dims[i];
      if dim == "throughput" {
        comandos := comandos + [ScaleCommand];
        impacto := Put(impacto, "throughput", 0.3);
      } else if dim == "erros" {
        comandos := comandos + [RestartCommand];
        impacto := Put(impacto, "erros", 0.4);
      } else if dim == "latencia" {
        comandos := comandos + [EvictionCommand];
        impacto := Put(impacto, "latencia", 0.3);
      } else if dim == "recursos" {
        comandos := comandos + [LimitsCommand];
        impacto := Put(impacto, "recursos", 0.5);
      }
      i := i + 1;
    }
    assert dims[..i] == dims;
  }

  /** The generic action of `gerar_acoes` for an anomaly without a usable template. */
  method AcaoGenerica(anomalia: (Pattern, real), diag: Diagnosis, id: string, now: real) returns (a: Acao)
    ensures a == Generic(anomalia, diag, id, now)
  {
    var comandos, impacto := ComandosGenericos(anomalia.0.dimensoes);
    if |comandos| == 0 {
      comandos := [MonitorCommand];
    }
    a := Acao(
      id, Hotfix, "Estabilização imediata para " + anomalia.0.nome, comandos, impacto,
      30.0, [], 0.7, [], 0.4, true,
      [("diagnostico_id", VStr(diag.id)), ("anomalia_id", VStr(anomalia.0.id)), ("confianca", VReal(anomalia.1)),
       ("timestamp", VReal(now)), ("generica", VBool(true))]);
  }

  class GeradorHotfix {
    /** Templates per anomaly-pattern id, in registration order. */
    var templates: Dict<string, seq<Template>>
    /** (eficacia, timestamp) per action id. */
    var historico: Dict<string, (real, real)>

    constructor ()
      ensures templates == [] && historico == []
    {
      templates := [];
      historico := [];
    }

    function TemplatesOf(id: string): seq<Template>
      reads this
    {
      GetOr(templates, id, [])
    }

    /** `registrar_template`: the template joins the end of the pattern's list. */
    method RegistrarTemplate(id: string, t: Template)
      modifies this
      ensures templates == Put(old(templates), id, old(TemplatesOf(id)) + [t])
      ensures historico == old(historico)
    {
      templates := Put(templates, id, TemplatesOf(id) + [t]);
    }

    /** `registrar_eficacia`: the action's efficacy, stamped with the clock reading, replaces any earlier one. */
    method RegistrarEficacia(acaoId: string, eficacia: real, now: real)
      modifies this
      ensures historico == Put(old(historico), acaoId, (eficacia, now))
      ensures templates == old(templates)
    {
      historico := Put(historico, acaoId, (eficacia, now));
    }

    /** `_selecionar_template`: the choice among the templates registered for the pattern. */
    method SelecionarTemplate(id: string, contexto: Ctx, escolha: nat) returns (r: Option<Template>)
      ensures r == Select(TemplatesOf(id), contexto, historico, escolha)
    {
      r := Selecionar(TemplatesOf(id), contexto, historico, escolha);
    }

    /**
     * `gerar_acoes`: one HOTFIX per detected anomaly, in order, from the
     * chosen template when there is a non-empty one, else the generic action.
     */
    method GerarAcoes(diag: Diagnosis, now: real, sorteios: nat -> int, escolhas: nat -> nat, fmt: real -> string)
      returns (acoes: seq<Acao>)
      ensures |acoes| == |diag.anomalias|
      ensures forall k :: 0 <= k < |acoes| ==>
        acoes[k] == HotfixFor(diag.anomalias[k], Select(TemplatesOf(diag.anomalias[k].0.id), diag.contexto, historico, escolhas(k)),
                              diag, now, sorteios(k), fmt)
    {
      acoes := AcoesPara(templates, historico, diag, now, sorteios, escolhas, fmt);
      MapIndexedAt(diag.anomalias, Planner(templates, historico, diag, now, sorteios, escolhas, fmt));
    }
  }
}
