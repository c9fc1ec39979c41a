/**
 * `MotorRefatoracao` of src/gerador_acoes/gerador_acoes.py: refactoring
 * patterns registered by name, each with optional applicability conditions
 * (required anomalies, comparisons on analysed metrics, context equalities),
 * and one REFATORACAO action per applicable pattern. The clock reading, the
 * random suffixes of action ids and float formatting are parameters.
 */
module Refactor {
  import opened Wrappers
  import opened Dicts
  import opened Values
  import opened Seqs
  import opened Metric
  import opened Patterns
  import opened Actions
  import opened Fill
  import Hotfix

  /** One entry of `condicoes["metricas"]`: `{"nome", "operador", "valor"}`. */
  datatype MetricCond = MetricCond(nome: string, operador: string, valor: real)

  /** `padrao["condicoes"]`: each of its three keys is optional. */
  datatype Conditions = Conditions(
    anomalias: Option<seq<string>>,
    metricas: Option<seq<MetricCond>>,
    contexto: Option<Ctx>)

  /** A refactoring pattern: every key of the Python dictionary is optional. */
  datatype Padrao = Padrao(
    condicoes: Option<Conditions>,
    descricao: Option<string>,
    comandos: Option<seq<string>>,
    impacto: Option<Dict<string, real>>,
    tempo: Option<real>,
    recursos: Option<Ctx>,
    prioridade: Option<real>,
    dependencias: Option<seq<string>>,
    risco: Option<real>,
    reversivel: Option<bool>)

  /** An entry of `historico_aplicacoes`. */
  datatype Aplicacao = Aplicacao(padrao: string, resultado: Ctx, timestamp: real)

  const HistoryCap: nat := 100

  /** The ids of the detected anomalies. */
  function PresentIds(diag: Diagnosis): (ids: set<string>)
    ensures forall k :: 0 <= k < |diag.anomalias| ==> diag.anomalias[k].0.id in ids
    ensures forall x :: x in ids ==> exists k :: 0 <= k < |diag.anomalias| && diag.anomalias[k].0.id == x
  {
    set k | 0 <= k < |diag.anomalias| :: diag.anomalias[k].0.id
  }

  /** `set(requeridas).issubset(presentes)`. */
  predicate Subset(req: seq<string>, ids: set<string>)
  {
    forall i :: 0 <= i < |req| ==> req[i] in ids
  }

  /** The first analysed metric with the name, as the `for … break` scan finds it. */
  function FirstNamed(ms: seq<Metric>, nome: string): (r: Option<Metric>)
    ensures r.None? <==> forall i :: 0 <= i < |ms| ==> ms[i].nome != nome
    ensures r.Some? ==> exists i :: 0 <= i < |ms| && ms[i] == r.value && r.value.nome == nome
                                    && forall k :: 0 <= k < i ==> ms[k].nome != nome
  {
    if |ms| == 0 then None
    else if ms[0].nome == nome then Some(ms[0])
    else
      var r := FirstNamed(ms[1..], nome);
      assert forall i :: 0 <= i < |ms| - 1 ==> ms[1..][i] == ms[i + 1];
      r
  }

  /** The comparison an operator names; an unknown operator imposes nothing. */
  predicate OpHolds(op: string, v: real, limiar: real)
  {
    if op == "gt" then v > limiar
    else if op == "lt" then v < limiar
    else if op == "eq" then v == limiar
    else if op == "ne" then v != limiar
    else true
  }

  /** A metric condition holds on the first metric with its name; a missing metric fails it. */
  predicate MetricCondHolds(c: MetricCond, ms: seq<Metric>)
  {
    FirstNamed(ms, c.nome).Some? && OpHolds(c.operador, FirstNamed(ms, c.nome).value.valor, c.valor)
  }

  predicate MetricCondsHold(cs: seq<MetricCond>, ms: seq<Metric>)
  {
    forall i :: 0 <= i < |cs| ==> MetricCondHolds(cs[i], ms)
  }

  /** Every declared condition holds; an absent key imposes nothing. */
  predicate ConditionsHold(c: Conditions, diag: Diagnosis)
  {
    && (c.anomalias.Some? ==> Subset(c.anomalias.value, PresentIds(diag)))
    && (c.metricas.Some? ==> MetricCondsHold(c.metricas.value, diag.metricas))
    && (c.contexto.Some? ==> Hotfix.Applicable(c.contexto.value, diag.contexto))
  }

  /** The intended test: a pattern applies when it declares no conditions or all of them hold. */
  predicate Applicable(p: Padrao, diag: Diagnosis)
  {
    p.condicoes.None? || ConditionsHold(p.condicoes.value, diag)
  }

  /** The names of the applicable patterns, in registration order. */
  function ApplicableNames(pats: Dict<string, Padrao>, diag: Diagnosis): (r: seq<string>)
    ensures |r| <= |pats|
  {
    if |pats| == 0 then []
    else ApplicableNames(pats[..|pats| - 1], diag) + (if Applicable(pats[|pats| - 1].1, diag) then [pats[|pats| - 1].0] else [])
  }

  /** A name is listed exactly when some registered pattern with that name applies. */
  lemma {:induction false} ApplicableNamesSpec(pats: Dict<string, Padrao>, diag: Diagnosis, n: string)
    ensures n in ApplicableNames(pats, diag) <==> exists i :: 0 <= i < |pats| && pats[i].0 == n && Applicable(pats[i].1, diag)
  {
    if |pats| > 0 {
      var init := pats[..|pats| - 1];
      ApplicableNamesSpec(init, diag, n);
      if n in ApplicableNames(pats, diag) && n !in ApplicableNames(init, diag) {
        assert pats[|pats| - 1].0 == n && Applicable(pats[|pats| - 1].1, diag);
      }
      if exists i :: 0 <= i < |pats| && pats[i].0 == n && Applicable(pats[i].1, diag) {
        var i :| 0 <= i < |pats| && pats[i].0 == n && Applicable(pats[i].1, diag);
        if i < |pats| - 1 {
          assert init[i] == pats[i];
        }
      }
    }
  }

  /**
   * `_identificar_padroes_aplicaveis` as written: `aplicavel` is assigned
   * only inside `if "condicoes" in padrao`, so a pattern without conditions
   * reuses the previous pattern's verdict, and raises `UnboundLocalError`
   * when it is the first pattern examined. `prev` is that variable.
   */
  function ApplicableNamesAsWritten(pats: Dict<string, Padrao>, diag: Diagnosis, prev: Option<bool>): Result<seq<string>>
    decreases |pats|
  {
    if |pats| == 0 then Ok([])
    else
      var p := pats[0].1;
      if p.condicoes.None? && prev.None? then Err("UnboundLocalError: aplicavel")
      else
        var aplicavel := if p.condicoes.Some? then ConditionsHold(p.condicoes.value, diag) else prev.value;
        match ApplicableNamesAsWritten(pats[1..], diag, Some(aplicavel))
        case Err(e) => Err(e)
        case Ok(rest) => Ok((if aplicavel then [pats[0].0] else []) + rest)
  }

  /** When every pattern declares conditions, the code as written and the intended test agree. */
  lemma {:induction false} AsWrittenAgrees(pats: Dict<string, Padrao>, diag: Diagnosis, prev: Option<bool>)
    requires forall i :: 0 <= i < |pats| ==> pats[i].1.condicoes.Some?
    ensures ApplicableNamesAsWritten(pats, diag, prev) == Ok(ApplicableNames(pats, diag))
    decreases |pats|
  {
    if |pats| > 0 {
      var p := pats[0];
      var a := ConditionsHold(p.1.condicoes.value, diag);
      AsWrittenAgrees(pats[1..], diag, Some(a));
      PrependNames(p, pats[1..], diag);
      assert [p] + pats[1..] == pats;
    }
  }

  lemma {:induction false} PrependNames(p: (string, Padrao), pats: Dict<string, Padrao>, diag: Diagnosis)
    ensures ApplicableNames([p] + pats, diag) == (if Applicable(p.1, diag) then [p.0] else []) + ApplicableNames(pats, diag)
    decreases |pats|
  {
    if |pats| > 0 {
      var init := pats[..|pats| - 1];
      PrependNames(p, init, diag);
      assert ([p] + pats)[..|pats|] == [p] + init;
    } else {
      assert ([p] + pats)[..0] == [];
    }
  }

  /** A pattern that declares conditions which fail: it needs an anomaly id absent from every diagnosis without anomalies. */
  const Failing := Padrao(Some(Conditions(Some(["x"]), None, None)), None, None, None, None, None, None, None, None, None)
  /** A pattern without conditions. */
  const Unconditioned := Padrao(None, None, None, None, None, None, None, None, None, None)

  /** As written, a pattern without conditions after a failing one is skipped, though it imposes nothing. */
  lemma StaleVerdict(diag: Diagnosis)
    requires |diag.anomalias| == 0
    ensures ApplicableNamesAsWritten([("a", Failing), ("b", Unconditioned)], diag, None).Ok?
    ensures ApplicableNamesAsWritten([("a", Failing), ("b", Unconditioned)], diag, None).value == []
    ensures ApplicableNames([("a", Failing), ("b", Unconditioned)], diag) == ["b"]
  {
    assert !Subset(["x"], PresentIds(diag)) by {
      assert ["x"][0] == "x" && "x" !in PresentIds(diag);
    }
    var pats := [("a", Failing), ("b", Unconditioned)];
    assert pats[1..] == [("b", Unconditioned)];
    assert pats[1..][1..] == [];
    assert pats[..1] == [("a", Failing)];
    assert pats[..1][..0] == [];
    var r := ApplicableNamesAsWritten(pats[1..][1..], diag, Some(false));
    assert r.Ok? && r.value == [];
    assert ApplicableNamesAsWritten(pats[1..], diag, Some(false)).Ok?;
    assert ApplicableNamesAsWritten(pats[1..], diag, Some(false)).value == [];
  }

  /** As written, a catalogue whose first pattern has no conditions makes the whole generation raise. */
  lemma UnboundVerdict(diag: Diagnosis)
    ensures ApplicableNamesAsWritten([("b", Unconditioned)], diag, None).Err?
    ensures ApplicableNames([("b", Unconditioned)], diag) == ["b"]
  {
    assert [("b", Unconditioned)][..0] == [];
  }

  /** A metric condition on a metric that was not analysed makes the pattern inapplicable. */
  lemma MissingMetricFails(c: MetricCond, diag: Diagnosis, p: Padrao)
    requires p.condicoes.Some? && p.condicoes.value.metricas.Some? && c in p.condicoes.value.metricas.value
    requires forall i :: 0 <= i < |diag.metricas| ==> diag.metricas[i].nome != c.nome
    ensures !Applicable(p, diag)
  {
    var cs := p.condicoes.value.metricas.value;
    var i :| 0 <= i < |cs| && cs[i] == c;
    assert !MetricCondHolds(cs[i], diag.metricas);
  }

  /** An operator other than gt, lt, eq and ne only requires the metric to be present. */
  lemma UnknownOperator(c: MetricCond, ms: seq<Metric>)
    requires c.operador !in {"gt", "lt", "eq", "ne"}
    ensures MetricCondHolds(c, ms) <==> exists i :: 0 <= i < |ms| && ms[i].nome == c.nome
  {
  }

  /**
   * `_gerar_acao_refatoracao`: the pattern's commands filled with the
   * anomalies (without confidence) and the scalar context values, and the
   * pattern's values where given, else priority 0.5, risk 0.5, 300 s,
   * reversible.
   */
  function RefactorAction(nome: string, p: Padrao, diag: Diagnosis, id: string, now: real, fmt: real -> string): (a: Acao)
    ensures a.tipo == Refatoracao
    ensures |a.comandos| == |Hotfix.OrElse(p.comandos, [])|
    ensures p.prioridade.None? ==> a.prioridade == 0.5
    ensures p.risco.None? ==> a.risco == 0.5
    ensures p.tempo.None? ==> a.tempo == 300.0
    ensures p.reversivel.None? ==> a.reversivel
  {
    Acao(
      id, Refatoracao,
      Hotfix.OrElse(p.descricao, "Refatoração usando padrão " + nome),
      FillCommands(Hotfix.OrElse(p.comandos, []), diag.anomalias, diag.contexto, false, fmt),
      Hotfix.OrElse(p.impacto, []),
      Hotfix.OrElse(p.tempo, 300.0),
      Hotfix.OrElse(p.recursos, []),
      Hotfix.OrElse(p.prioridade, 0.5),
      Hotfix.OrElse(p.dependencias, []),
      Hotfix.OrElse(p.risco, 0.5),
      Hotfix.OrElse(p.reversivel, true),
      [("diagnostico_id", VStr(diag.id)), ("padrao", VStr(nome)), ("timestamp", VReal(now))])
  }

  /** The metric conditions checked one by one, each against the first metric with its name. */
  method CheckMetricConds(cs: seq<MetricCond>, ms: seq<Metric>) returns (ok: bool)
    ensures ok == MetricCondsHold(cs, ms)
  {
    ok := true;
    var i := 0;
    while i < |cs|
      invariant 0 <= i <= |cs|
      invariant ok == forall k :: 0 <= k < i ==> MetricCondHolds(cs[k], ms)
    {
      var c := cs[i];
      var j := 0;
      while j < |ms| && ms[j].nome != c.nome
        invariant 0 <= j <= |ms|
        invariant forall k :: 0 <= k < j ==> ms[k].nome != c.nome
      {
        j := j + 1;
      }
      if j == |ms| {
        ok := false;
      } else {
        FirstNamedAt(ms, c.nome, j);
        if !OpHolds(c.operador, ms[j].valor, c.valor) {
          ok := false;
        }
      }
      i := i + 1;
    }
  }

  lemma {:induction false} FirstNamedAt(ms: seq<Metric>, nome: string, j: nat)
    requires j < |ms| && ms[j].nome == nome
    requires forall k :: 0 <= k < j ==> ms[k].nome != nome
    ensures FirstNamed(ms, nome) == Some(ms[j])
  {
    if j > 0 {
      FirstNamedAt(ms[1..], nome, j - 1);
    }
  }

  /** The context conditions checked one by one, stopping at the first that fails. */
  method CheckContext(req: Ctx, ctx: Ctx) returns (ok: bool)
    ensures ok == Hotfix.Applicable(req, ctx)
  {
    ok := true;
    var i := 0;
    while i < |req|
      invariant 0 <= i <= |req|
      invariant ok == forall k :: 0 <= k < i ==> Get(ctx, req[k].0).Some? && PyEq(Get(ctx, req[k].0).value, req[k].1)
    {
      var (chave, valor) := req[i];
      var atual := Get(ctx, chave);
      if atual.None? || !PyEq(atual.value, valor) {
        ok := false;
        break;
      }
      i := i + 1;
    }
  }

  /** The intended applicability test of one pattern, condition group by condition group. */
  method CheckPattern(p: Padrao, diag: Diagnosis) returns (aplicavel: bool)
    ensures aplicavel == Applicable(p, diag)
  {
    aplicavel := true;
    if p.condicoes.Some? {
      var c := p.condicoes.value;
      if c.anomalias.Some? {
        var presentes := PresentIds(diag);
        if !(forall i :: 0 <= i < |c.anomalias.value| ==> c.anomalias.value[i] in presentes) {
          aplicavel := false;
        }
      }
      if c.metricas.Some? && aplicavel {
        aplicavel := CheckMetricConds(c.metricas.value, diag.metricas);
      }
      if c.contexto.Some? && aplicavel {
        aplicavel := CheckContext(c.contexto.value, diag.contexto);
      }
    }
  }

  class MotorRefatoracao {
    /** `padroes_refatoracao`, in registration order. */
    var padroes: Dict<string, Padrao>
    /** `historico_aplicacoes`, a deque of the newest 100. */
    var historico: seq<Aplicacao>

    ghost predicate Valid()
      reads this
    {
      |historico| <= HistoryCap
    }

    constructor ()
      ensures Valid() && padroes == [] && historico == []
    {
      padroes := [];
      historico := [];
    }

    /** `registrar_padrao`: a new name joins the end, an existing one is replaced in place. */
    method RegistrarPadrao(nome: string, p: Padrao)
      modifies this
      ensures padroes == Put(old(padroes), nome, p)
      ensures historico == old(historico)
    {
      padroes := Put(padroes, nome, p);
    }

    /** `registrar_aplicacao`: the result joins the bounded history. */
    method RegistrarAplicacao(nome: string, resultado: Ctx, now: real)
      requires Valid()
      modifies this
      ensures Valid()
      ensures historico == Newest(old(historico) + [Aplicacao(nome, resultado, now)], HistoryCap)
      ensures padroes == old(padroes)
    {
      historico := Newest(historico + [Aplicacao(nome, resultado, now)], HistoryCap);
    }

    /** `_identificar_padroes_aplicaveis`, with a pattern without conditions counted as applicable. */
    method IdentificarAplicaveis(diag: Diagnosis) returns (nomes: seq<string>)
      ensures nomes == ApplicableNames(padroes, diag)
    {
      nomes := [];
      var i := 0;
      while i < |padroes|
        invariant 0 <= i <= |padroes|
        invariant nomes == ApplicableNames(padroes[..i], diag)
      {
        assert padroes[..i + 1][..i] == padroes[..i];
        var aplicavel := CheckPattern(padroes[i].1, diag);
        if aplicavel {
          nomes := nomes + [padroes[i].0];
        }
        i := i + 1;
      }
      assert padroes[..i] == padroes;
    }

    /** `gerar_acoes`: one REFATORACAO action per applicable pattern, in registration order. */
    method GerarAcoes(diag: Diagnosis, now: real, sorteios: nat -> int, fmt: real -> string) returns (acoes: seq<Acao>)
      ensures var nomes := ApplicableNames(padroes, diag);
        && |acoes| == |nomes|
        && forall k :: 0 <= k < |acoes| ==> acoes[k] == Planned(padroes, nomes[k], diag, now, sorteios(k), fmt)
    {
      var nomes := IdentificarAplicaveis(diag);
      acoes := AcoesPara(padroes, nomes, diag, now, sorteios, fmt);
      MapIndexedAt(nomes, Planner(padroes, diag, now, sorteios, fmt));
    }
  }

  /** The registered pattern of a name (`padroes_refatoracao[nome]`; every applicable name is registered). */
  function PatternIn(ps: Dict<string, Padrao>, nome: string): Padrao
  {
    GetOr(ps, nome, Unconditioned)
  }

  /** The action `gerar_acoes` makes for the applicable pattern `nome`. */
  function Planned(ps: Dict<string, Padrao>, nome: string, diag: Diagnosis, now: real, sorteio: int, fmt: real -> string): Acao
  {
    RefactorAction(nome, PatternIn(ps, nome), diag, Hotfix.ActionId("refat", now, sorteio), now, fmt)
  }

  /** The action of the applicable pattern `nome` at position `k`, with random suffix `sorteios(k)`. */
  function Planner(ps: Dict<string, Padrao>, diag: Diagnosis, now: real, sorteios: nat -> int, fmt: real -> string)
    : (string, nat) -> Acao
  {
    (nome: string, k: nat) => Planned(ps, nome, diag, now, sorteios(k), fmt)
  }

  /** `_gerar_acao_refatoracao`: the pattern's commands filled one by one, then the action. */
  method AcaoRefatoracao(ps: Dict<string, Padrao>, nome: string, diag: Diagnosis, now: real, sorteio: int, fmt: real -> string)
    returns (a: Acao)
    ensures a == Planned(ps, nome, diag, now, sorteio, fmt)
  {
    var p := PatternIn(ps, nome);
    var cmds := PreencherComandos(Hotfix.OrElse(p.comandos, []), diag.anomalias, diag.contexto, false, fmt);
    a := RefactorAction(nome, p, diag, Hotfix.ActionId("refat", now, sorteio), now, fmt).(comandos := cmds);
  }

  /** One action per applicable pattern, in order. */
  method AcoesPara(ps: Dict<string, Padrao>, nomes: seq<string>, diag: Diagnosis, now: real, sorteios: nat -> int, fmt: real -> string)
    returns (acoes: seq<Acao>)
    ensures acoes == MapIndexed(nomes, Planner(ps, diag, now, sorteios, fmt))
  {
    acoes := [];
    var k := 0;
    while k < |nomes|
      invariant 0 <= k <= |nomes|
      invariant acoes == MapIndexed(nomes[..k], Planner(ps, diag, now, sorteios, fmt))
    {
      var acao := AcaoRefatoracao(ps, nomes[k], diag, now, sorteios(k), fmt);
      assert nomes[..k + 1][..k] == nomes[..k];
      acoes := acoes + [acao];
      k := k + 1;
    }
    assert nomes[..k] == nomes;
  }

  /** Every listed name is a registered pattern. */
  lemma ApplicableRegistered(pats: Dict<string, Padrao>, diag: Diagnosis, n: string)
    requires n in ApplicableNames(pats, diag)
    ensures HasKey(pats, n)
  {
    ApplicableNamesSpec(pats, diag, n);
    var i :| 0 <= i < |pats| && pats[i].0 == n && Applicable(pats[i].1, diag);
    assert Keys(pats)[i] == n;
  }
}
