/**
 * The bookkeeping of `InterfaceControleAdaptativa` and `Observabilidade4D`:
 * the latest metric of each series, bounded histories of events, diagnoses
 * and plans, status updates that record an event, and the counters of
 * `gerar_relatorio`.
 */
module Observability {
  import opened Wrappers
  import opened Dicts
  import opened Values
  import opened Seqs
  import opened Text
  import opened Metric
  import opened Patterns
  import opened Actions
  import opened Events
  import opened Projection
  import opened Counters
  import Store

  /** The `maxlen` of the event, diagnosis and plan deques. */
  const MaxEventos: nat := 1000
  const MaxDiagnosticos: nat := 100
  const MaxPlanos: nat := 100

  const SemCausa: string := "Sem causa identificada"
  const PrefixoDiagnostico: string := "Diagnóstico: "
  const PrefixoPlano: string := "Plano de ação gerado com "
  const SufixoPlano: string := " ações"

  /** `causa_raiz or 'Sem causa identificada'`: an absent or empty cause reads as the default. */
  function CauseText(causa: Option<string>): string
  {
    if causa.Some? && |causa.value| > 0 then causa.value else SemCausa
  }

  /** The event that records a diagnosis. */
  function DiagnosisEvent(d: Diagnosis): Evento
  {
    Evento("evento_diag_" + d.id, "diagnostico", d.timestamp, PrefixoDiagnostico + CauseText(d.causaRaiz),
      if |d.anomalias| > 0 then "warning" else "info", "sistema_diagnostico",
      [("diagnostico_id", VStr(d.id))])
  }

  /** The event that records a new plan. */
  function PlanEvent(p: Plano): Evento
  {
    Evento("evento_plano_" + p.id, "plano_acao", p.timestamp, PrefixoPlano + NatText(|p.acoes|) + SufixoPlano,
      "info", "gerador_acoes", [("plano_id", VStr(p.id)), ("diagnostico_id", VStr(p.diagnosticoId))])
  }

  /** The event that records a status change at time `now`, whose id carries `int(now)`. */
  function StatusEvent(planoId: string, status: string, now: real): Evento
  {
    Evento("evento_status_" + planoId + "_" + IntText(Trunc(now)), "atualizacao_status", now,
      "Plano " + planoId + " atualizado para '" + status + "'", "info", "sistema_execucao",
      [("plano_id", VStr(planoId)), ("status", VStr(status))])
  }

  /** `metricas_recentes` after several metrics: each series key holds its latest metric. */
  function WithLatest(d: Dict<string, Metric>, ms: seq<Metric>): Dict<string, Metric>
  {
    if |ms| == 0 then d
    else
      var m := ms[|ms| - 1];
      Put(WithLatest(d, ms[..|ms| - 1]), Chave(m.dimensao, m.nome), m)
  }

  /**
   * After several metrics, the key of each metric not followed by another
   * of the same series holds that metric, and a key no metric has keeps its
   * old entry; keys stay unique.
   */
  lemma WithLatestProperties(d: Dict<string, Metric>, ms: seq<Metric>)
    ensures forall i :: 0 <= i < |ms| && (forall j :: i < j < |ms| ==> Chave(ms[j].dimensao, ms[j].nome) != Chave(ms[i].dimensao, ms[i].nome)) ==>
      Get(WithLatest(d, ms), Chave(ms[i].dimensao, ms[i].nome)) == Some(ms[i])
    ensures forall k :: (forall i :: 0 <= i < |ms| ==> Chave(ms[i].dimensao, ms[i].nome) != k) ==> Get(WithLatest(d, ms), k) == Get(d, k)
    ensures DistinctKeys(d) ==> DistinctKeys(WithLatest(d, ms))
  {
    WithLatestHolds(d, ms);
    WithLatestKeeps(d, ms);
    if DistinctKeys(d) {
      WithLatestDistinct(d, ms);
    }
  }

  lemma {:induction false} WithLatestHolds(d: Dict<string, Metric>, ms: seq<Metric>)
    ensures forall i :: 0 <= i < |ms| && (forall j :: i < j < |ms| ==> Chave(ms[j].dimensao, ms[j].nome) != Chave(ms[i].dimensao, ms[i].nome)) ==>
      Get(WithLatest(d, ms), Chave(ms[i].dimensao, ms[i].nome)) == Some(ms[i])
  {
    if |ms| > 0 {
      var init := ms[..|ms| - 1];
      var m := ms[|ms| - 1];
      WithLatestHolds(d, init);
      assert WithLatest(d, ms) == Put(WithLatest(d, init), Chave(m.dimensao, m.nome), m);
      forall i | 0 <= i < |ms| - 1 && (forall j :: i < j < |ms| ==> Chave(ms[j].dimensao, ms[j].nome) != Chave(ms[i].dimensao, ms[i].nome))
        ensures Get(WithLatest(d, ms), Chave(ms[i].dimensao, ms[i].nome)) == Some(ms[i])
      {
        assert Chave(m.dimensao, m.nome) != Chave(ms[i].dimensao, ms[i].nome);
        assert forall j :: i < j < |init| ==> init[j] == ms[j];
        assert init[i] == ms[i];
      }
    }
  }

  lemma {:induction false} WithLatestKeeps(d: Dict<string, Metric>, ms: seq<Metric>)
    ensures forall k :: (forall i :: 0 <= i < |ms| ==> Chave(ms[i].dimensao, ms[i].nome) != k) ==> Get(WithLatest(d, ms), k) == Get(d, k)
  {
    if |ms| > 0 {
      var init := ms[..|ms| - 1];
      var m := ms[|ms| - 1];
      WithLatestKeeps(d, init);
      assert WithLatest(d, ms) == Put(WithLatest(d, init), Chave(m.dimensao, m.nome), m);
      forall k | (forall i :: 0 <= i < |ms| ==> Chave(ms[i].dimensao, ms[i].nome) != k)
        ensures Get(WithLatest(d, ms), k) == Get(d, k)
      {
        assert forall i :: 0 <= i < |init| ==> init[i] == ms[i];
      }
    }
  }

  lemma {:induction false} WithLatestDistinct(d: Dict<string, Metric>, ms: seq<Metric>)
    requires DistinctKeys(d)
    ensures DistinctKeys(WithLatest(d, ms))
  {
    if |ms| > 0 {
      var init := ms[..|ms| - 1];
      var m := ms[|ms| - 1];
      WithLatestDistinct(d, init);
      PutDistinct(WithLatest(d, init), Chave(m.dimensao, m.nome), m);
    }
  }

  /** One more metric extends both folds by one step. */
  lemma MetricsStep(m0: Dict<string, Metric>, h0: map<string, seq<Ponto>>, ms: seq<Metric>, i: nat)
    requires i < |ms|
    ensures WithLatest(m0, ms[..i + 1]) == Put(WithLatest(m0, ms[..i]), Chave(ms[i].dimensao, ms[i].nome), ms[i])
    ensures WithMetrics(h0, ms[..i + 1]) == WithMetric(WithMetrics(h0, ms[..i]), ms[i])
  {
    var p := ms[..i + 1];
    assert p[..|p| - 1] == ms[..i] && p[|p| - 1] == ms[i];
  }

  /** `InterfaceControleAdaptativa`, without its web application. */
  class Interface {
    /** `metricas_recentes`: the latest metric of each series, by key. */
    var metricasRecentes: Dict<string, Metric>
    const projetor: ProjetorTemporal
    var eventos: seq<Evento>
    var diagnosticos: seq<Diagnosis>
    var planos: seq<Plano>

    /** The deques keep their bounds, keys are unique and the projector's series are ordered. */
    ghost predicate Valid()
      reads this, projetor
    {
      && |eventos| <= MaxEventos
      && |diagnosticos| <= MaxDiagnosticos
      && |planos| <= MaxPlanos
      && DistinctKeys(metricasRecentes)
      && projetor.Valid()
    }

    constructor ()
      ensures Valid() && fresh(projetor)
      ensures metricasRecentes == [] && eventos == [] && diagnosticos == [] && planos == []
      ensures projetor.historico == map[]
    {
      metricasRecentes := [];
      projetor := new ProjetorTemporal();
      eventos := [];
      diagnosticos := [];
      planos := [];
    }

    /** `adicionar_metrica`: the metric becomes the latest of its series and joins the projector's history. */
    method AdicionarMetrica(m: Metric)
      requires Valid()
      modifies this, projetor
      ensures Valid()
      ensures metricasRecentes == Put(old(metricasRecentes), Chave(m.dimensao, m.nome), m)
      ensures projetor.historico == WithMetric(old(projetor.historico), m)
      ensures eventos == old(eventos) && diagnosticos == old(diagnosticos) && planos == old(planos)
    {
      PutDistinct(metricasRecentes, Chave(m.dimensao, m.nome), m);
      metricasRecentes := Put(metricasRecentes, Chave(m.dimensao, m.nome), m);
      projetor.AdicionarMetrica(m);
    }

    /** `adicionar_evento`: the deque keeps the newest 1000 events. */
    method AdicionarEvento(e: Evento)
      requires Valid()
      modifies this
      ensures Valid()
      ensures eventos == Newest(old(eventos) + [e], MaxEventos)
      ensures metricasRecentes == old(metricasRecentes) && diagnosticos == old(diagnosticos) && planos == old(planos)
    {
      eventos := Newest(eventos + [e], MaxEventos);
    }

    /** `adicionar_diagnostico`: the diagnosis and then its event join their deques. */
    method AdicionarDiagnostico(d: Diagnosis)
      requires Valid()
      modifies this
      ensures Valid()
      ensures diagnosticos == Newest(old(diagnosticos) + [d], MaxDiagnosticos)
      ensures eventos == Newest(old(eventos) + [DiagnosisEvent(d)], MaxEventos)
      ensures metricasRecentes == old(metricasRecentes) && planos == old(planos)
    {
      diagnosticos := Newest(diagnosticos + [d], MaxDiagnosticos);
      AdicionarEvento(DiagnosisEvent(d));
    }

    /** `adicionar_plano`: the plan and then its event join their deques. */
    method AdicionarPlano(p: Plano)
      requires Valid()
      modifies this
      ensures Valid()
      ensures planos == Newest(old(planos) + [p], MaxPlanos)
      ensures eventos == Newest(old(eventos) + [PlanEvent(p)], MaxEventos)
      ensures metricasRecentes == old(metricasRecentes) && diagnosticos == old(diagnosticos)
    {
      planos := Newest(planos + [p], MaxPlanos);
      AdicionarEvento(PlanEvent(p));
    }

    /**
     * `atualizar_status_plano`: the first plan with the id gets the status
     * and exactly one event is recorded; an unknown id changes nothing.
     */
    method AtualizarStatusPlano(planoId: string, status: string, now: real)
      requires Valid()
      modifies this
      ensures Valid()
      ensures planos == Store.UpdateStatus(old(planos), planoId, status, None)
      ensures eventos == if Store.IndexOf(old(planos), planoId).Some?
        then Newest(old(eventos) + [StatusEvent(planoId, status, now)], MaxEventos)
        else old(eventos)
      ensures metricasRecentes == old(metricasRecentes) && diagnosticos == old(diagnosticos)
    {
      var i := Store.Posicao(planos, planoId);
      if i.Some? {
        planos := planos[i.value := planos[i.value].(status := status)];
        AdicionarEvento(StatusEvent(planoId, status, now));
      }
    }
  }

  /**
   * `Observabilidade4D`: its own histories and projector, and the interface
   * it forwards everything to.
   */
  class Observabilidade {
    const projetor: ProjetorTemporal
    const interface: Interface
    var metricasRecentes: Dict<string, Metric>
    var eventos: seq<Evento>
    var diagnosticos: seq<Diagnosis>
    var planos: seq<Plano>

    /**
     * The bounds hold on both sides, and the interface sees the same
     * metrics, series, diagnoses and plans (it holds the same plan
     * objects, so a status set on one side is seen on the other).
     */
    ghost predicate Valid()
      reads this, projetor, interface, interface.projetor
    {
      && |eventos| <= MaxEventos
      && |diagnosticos| <= MaxDiagnosticos
      && |planos| <= MaxPlanos
      && projetor.Valid()
      && interface.Valid()
      && projetor != interface.projetor
      && interface.metricasRecentes == metricasRecentes
      && interface.projetor.historico == projetor.historico
      && interface.diagnosticos == diagnosticos
      && interface.planos == planos
    }

    constructor ()
      ensures Valid() && fresh(projetor) && fresh(interface) && fresh(interface.projetor)
      ensures metricasRecentes == [] && eventos == [] && diagnosticos == [] && planos == []
      ensures interface.eventos == [] && projetor.historico == map[]
    {
      projetor := new ProjetorTemporal();
      interface := new Interface();
      metricasRecentes := [];
      eventos := [];
      diagnosticos := [];
      planos := [];
    }

    /** `registrar_metrica`: the metric is stored on both sides and joins both projectors' histories. */
    method RegistrarMetrica(m: Metric)
      requires Valid()
      modifies this, projetor, interface, interface.projetor
      ensures Valid()
      ensures metricasRecentes == Put(old(metricasRecentes), Chave(m.dimensao, m.nome), m)
      ensures projetor.historico == WithMetric(old(projetor.historico), m)
      ensures eventos == old(eventos) && diagnosticos == old(diagnosticos) && planos == old(planos)
      ensures interface.eventos == old(interface.eventos)
    {
      metricasRecentes := Put(metricasRecentes, Chave(m.dimensao, m.nome), m);
      projetor.AdicionarMetrica(m);
      interface.AdicionarMetrica(m);
    }

    /** The loop of `registrar_diagnostico` over the analysed metrics. */
    method RegistrarMetricas(ms: seq<Metric>)
      requires Valid()
      modifies this, projetor, interface, interface.projetor
      ensures Valid()
      ensures metricasRecentes == WithLatest(old(metricasRecentes), ms)
      ensures projetor.historico == WithMetrics(old(projetor.historico), ms)
      ensures eventos == old(eventos) && diagnosticos == old(diagnosticos) && planos == old(planos)
      ensures interface.eventos == old(interface.eventos)
    {
      ghost var m0, h0 := metricasRecentes, projetor.historico;
      ghost var e0, d0, p0, ie0 := eventos, diagnosticos, planos, interface.eventos;
      var i := 0;
      while i < |ms|
        invariant 0 <= i <= |ms|
        invariant Valid()
        invariant metricasRecentes == WithLatest(m0, ms[..i])
        invariant projetor.historico == WithMetrics(h0, ms[..i])
        invariant eventos == e0 && diagnosticos == d0 && planos == p0 && interface.eventos == ie0
      {
        MetricsStep(m0, h0, ms, i);
        RegistrarMetrica(ms[i]);
        i := i + 1;
      }
      assert ms[..i] == ms;
    }

    /** `registrar_evento`: the event joins both deques. */
    method RegistrarEvento(e: Evento)
      requires Valid()
      modifies this, interface
      ensures Valid()
      ensures eventos == Newest(old(eventos) + [e], MaxEventos)
      ensures interface.eventos == Newest(old(interface.eventos) + [e], MaxEventos)
      ensures metricasRecentes == old(metricasRecentes) && diagnosticos == old(diagnosticos) && planos == old(planos)
    {
      eventos := Newest(eventos + [e], MaxEventos);
      interface.AdicionarEvento(e);
    }

    /**
     * `registrar_diagnostico`: the diagnosis joins both deques, its metrics
     * are registered, and its event is recorded once here and twice in the
     * interface (once by the interface itself, once forwarded).
     */
    method RegistrarDiagnostico(d: Diagnosis)
      requires Valid()
      modifies this, projetor, interface, interface.projetor
      ensures Valid()
      ensures diagnosticos == Newest(old(diagnosticos) + [d], MaxDiagnosticos)
      ensures metricasRecentes == WithLatest(old(metricasRecentes), d.metricas)
      ensures projetor.historico == WithMetrics(old(projetor.historico), d.metricas)
      ensures eventos == Newest(old(eventos) + [DiagnosisEvent(d)], MaxEventos)
      ensures interface.eventos == Newest(old(interface.eventos) + [DiagnosisEvent(d), DiagnosisEvent(d)], MaxEventos)
      ensures planos == old(planos)
    {
      ghost var antes := interface.eventos;
      diagnosticos := Newest(diagnosticos + [d], MaxDiagnosticos);
      interface.AdicionarDiagnostico(d);
      RegistrarMetricas(d.metricas);
      RegistrarEvento(DiagnosisEvent(d));
      NewestAppend(antes + [DiagnosisEvent(d)], [DiagnosisEvent(d)], MaxEventos);
      assert antes + [DiagnosisEvent(d)] + [DiagnosisEvent(d)] == antes + [DiagnosisEvent(d), DiagnosisEvent(d)];
    }

    /**
     * `registrar_plano`: the plan joins both deques and its event is
     * recorded once here and twice in the interface.
     */
    method RegistrarPlano(p: Plano)
      requires Valid()
      modifies this, interface
      ensures Valid()
      ensures planos == Newest(old(planos) + [p], MaxPlanos)
      ensures eventos == Newest(old(eventos) + [PlanEvent(p)], MaxEventos)
      ensures interface.eventos == Newest(old(interface.eventos) + [PlanEvent(p), PlanEvent(p)], MaxEventos)
      ensures metricasRecentes == old(metricasRecentes) && diagnosticos == old(diagnosticos)
    {
      ghost var antes := interface.eventos;
      planos := Newest(planos + [p], MaxPlanos);
      interface.AdicionarPlano(p);
      RegistrarEvento(PlanEvent(p));
      NewestAppend(antes + [PlanEvent(p)], [PlanEvent(p)], MaxEventos);
      assert antes + [PlanEvent(p)] + [PlanEvent(p)] == antes + [PlanEvent(p), PlanEvent(p)];
    }

    /**
     * `atualizar_status_plano`: the first plan with the id gets the status
     * on both sides; one event is recorded here and two in the interface.
     * An unknown id changes nothing.
     */
    method AtualizarStatusPlano(planoId: string, status: string, now: real)
      requires Valid()
      modifies this, interface
      ensures Valid()
      ensures planos == Store.UpdateStatus(old(planos), planoId, status, None)
      ensures var e := StatusEvent(planoId, status, now);
        var found := Store.IndexOf(old(planos), planoId).Some?;
        && eventos == (if found then Newest(old(eventos) + [e], MaxEventos) else old(eventos))
        && interface.eventos == (if found then Newest(old(interface.eventos) + [e, e], MaxEventos) else old(interface.eventos))
      ensures metricasRecentes == old(metricasRecentes) && diagnosticos == old(diagnosticos)
    {
      var i := Store.Posicao(planos, planoId);
      if i.Some? {
        ghost var antes := interface.eventos;
        var e := StatusEvent(planoId, status, now);
        planos := planos[i.value := planos[i.value].(status := status)];
        interface.AtualizarStatusPlano(planoId, status, now);
        RegistrarEvento(e);
        NewestAppend(antes + [e], [e], MaxEventos);
        assert antes + [e] + [e] == antes + [e, e];
      }
    }

    /** `gerar_relatorio` at time `agora` over the last `periodo` seconds, without the charts and the file. */
    method GerarRelatorio(periodo: real, agora: real) returns (r: Relatorio)
      requires Valid()
      ensures r == Report(metricasRecentes, eventos, diagnosticos, planos, periodo, agora)
    {
      var inicio := agora - periodo;
      var ms := ValuesOf(metricasRecentes);
      var ev := Since(eventos, EventTime, inicio);
      var ds := Since(diagnosticos, DiagnosisTime, inicio);
      var ps := Since(planos, PlanTime, inicio);
      var porTipo, porSeveridade := ContarEventos(ev);
      var anomalias := ContarAnomalias(ds);
      var acoesPorTipo, porStatus := ContarPlanos(ps);
      r := Relatorio(inicio, agora, periodo / 3600.0, |ms|, PerDimension(ms), |ev|, porTipo, porSeveridade,
        |ds|, anomalias, |ps|, acoesPorTipo, porStatus);
    }
  }

  /** The statistics of the report; the period's ends are kept as timestamps. */
  datatype Relatorio = Relatorio(
    inicio: real,
    fim: real,
    duracaoHoras: real,
    totalMetricas: nat,
    porDimensao: map<string, nat>,
    totalEventos: nat,
    eventosPorTipo: Dict<string, nat>,
    eventosPorSeveridade: Dict<string, nat>,
    totalDiagnosticos: nat,
    anomaliasDetectadas: Dict<string, nat>,
    totalPlanos: nat,
    acoesPorTipo: Dict<string, nat>,
    planosPorStatus: Dict<string, nat>)

  function EventTime(e: Evento): real
  {
    e.timestamp
  }

  function DiagnosisTime(d: Diagnosis): real
  {
    d.timestamp
  }

  function PlanTime(p: Plano): real
  {
    p.timestamp
  }

  /** `[x for x in s if instante(x) >= inicio]`. */
  function Since<T>(s: seq<T>, instante: T -> real, inicio: real): seq<T>
  {
    if |s| == 0 then []
    else
      var r := Since(s[..|s| - 1], instante, inicio);
      if instante(s[|s| - 1]) >= inicio then r + [s[|s| - 1]] else r
  }

  /** The filter keeps exactly the elements from `inicio` on. */
  lemma {:induction false} SinceProperties<T>(s: seq<T>, instante: T -> real, inicio: real)
    ensures |Since(s, instante, inicio)| <= |s|
    ensures forall x :: x in Since(s, instante, inicio) <==> x in s && instante(x) >= inicio
  {
    if |s| > 0 {
      var init := s[..|s| - 1];
      SinceProperties(init, instante, inicio);
      assert s == init + [s[|s| - 1]];
    }
  }

  function Dims(ms: seq<Metric>): seq<string>
  {
    seq(|ms|, i requires 0 <= i < |ms| => ms[i].dimensao)
  }

  /** `por_dimensao`: for each dimension present, the number of metrics in it. */
  function PerDimension(ms: seq<Metric>): map<string, nat>
  {
    map dim | dim in Dims(ms) :: Occurrences(Dims(ms), dim)
  }

  function Tipos(ev: seq<Evento>): seq<string>
  {
    seq(|ev|, i requires 0 <= i < |ev| => ev[i].tipo)
  }

  function Severidades(ev: seq<Evento>): seq<string>
  {
    seq(|ev|, i requires 0 <= i < |ev| => ev[i].severidade)
  }

  function AnomalyIds(anomalias: seq<(Pattern, real)>): seq<string>
  {
    seq(|anomalias|, i requires 0 <= i < |anomalias| => anomalias[i].0.id)
  }

  /** The ids of the anomalies of all the diagnoses, in order. */
  function AllAnomalyIds(ds: seq<Diagnosis>): seq<string>
  {
    if |ds| == 0 then [] else AllAnomalyIds(ds[..|ds| - 1]) + AnomalyIds(ds[|ds| - 1].anomalias)
  }

  function ActionTypes(acoes: seq<Acao>): seq<string>
  {
    seq(|acoes|, i requires 0 <= i < |acoes| => TipoName(acoes[i].tipo))
  }

  /** The type names of the actions of all the plans, in order. */
  function AllActionTypes(ps: seq<Plano>): seq<string>
  {
    if |ps| == 0 then [] else AllActionTypes(ps[..|ps| - 1]) + ActionTypes(ps[|ps| - 1].acoes)
  }

  function Statuses(ps: seq<Plano>): seq<string>
  {
    seq(|ps|, i requires 0 <= i < |ps| => ps[i].status)
  }

  /** `{tipo.name: 0 for tipo in TipoAcao}`. */
  function NoActions(): Dict<string, nat>
  {
    [(TipoName(Hotfix), 0), (TipoName(Refatoracao), 0), (TipoName(Redesign), 0)]
  }

  /** The statistics `gerar_relatorio` computes. */
  function Report(metricas: Dict<string, Metric>, eventos: seq<Evento>, diagnosticos: seq<Diagnosis>, planos: seq<Plano>,
                  periodo: real, agora: real): Relatorio
  {
    var inicio := agora - periodo;
    var ms := ValuesOf(metricas);
    var ev := Since(eventos, EventTime, inicio);
    var ds := Since(diagnosticos, DiagnosisTime, inicio);
    var ps := Since(planos, PlanTime, inicio);
    Relatorio(inicio, agora, periodo / 3600.0, |ms|, PerDimension(ms),
      |ev|, Tally([], Tipos(ev)), Tally([], Severidades(ev)),
      |ds|, Tally([], AllAnomalyIds(ds)),
      |ps|, Tally(NoActions(), AllActionTypes(ps)), Tally([], Statuses(ps)))
  }

  /** The loop over the events of the period, counting by type and by severity. */
  method ContarEventos(ev: seq<Evento>) returns (porTipo: Dict<string, nat>, porSeveridade: Dict<string, nat>)
    ensures porTipo == Tally([], Tipos(ev)) && porSeveridade == Tally([], Severidades(ev))
  {
    porTipo := [];
    porSeveridade := [];
    var i := 0;
    while i < |ev|
      invariant 0 <= i <= |ev|
      invariant porTipo == Tally([], Tipos(ev[..i]))
      invariant porSeveridade == Tally([], Severidades(ev[..i]))
    {
      assert Tipos(ev[..i + 1]) == Tipos(ev[..i]) + [ev[i].tipo];
      assert Severidades(ev[..i + 1]) == Severidades(ev[..i]) + [ev[i].severidade];
      porTipo := Bump(porTipo, ev[i].tipo);
      porSeveridade := Bump(porSeveridade, ev[i].severidade);
      i := i + 1;
    }
    assert ev[..i] == ev;
  }

  /** The inner loop over one diagnosis's anomalies. */
  method ContarIds(d: Dict<string, nat>, anomalias: seq<(Pattern, real)>) returns (r: Dict<string, nat>)
    ensures r == Tally(d, AnomalyIds(anomalias))
  {
    r := d;
    var j := 0;
    while j < |anomalias|
      invariant 0 <= j <= |anomalias|
      invariant r == Tally(d, AnomalyIds(anomalias[..j]))
    {
      assert AnomalyIds(anomalias[..j + 1]) == AnomalyIds(anomalias[..j]) + [anomalias[j].0.id];
      r := Bump(r, anomalias[j].0.id);
      j := j + 1;
    }
    assert anomalias[..j] == anomalias;
  }

  /** The loop over the diagnoses of the period, counting anomalies by id. */
  method ContarAnomalias(ds: seq<Diagnosis>) returns (r: Dict<string, nat>)
    ensures r == Tally([], AllAnomalyIds(ds))
  {
    r := [];
    var i := 0;
    while i < |ds|
      invariant 0 <= i <= |ds|
      invariant r == Tally([], AllAnomalyIds(ds[..i]))
    {
      assert ds[..i + 1][..i] == ds[..i];
      TallyConcat([], AllAnomalyIds(ds[..i]), AnomalyIds(ds[i].anomalias));
      r := ContarIds(r, ds[i].anomalias);
      i := i + 1;
    }
    assert ds[..i] == ds;
  }

  /** The inner loop over one plan's actions. */
  method ContarTipos(d: Dict<string, nat>, acoes: seq<Acao>) returns (r: Dict<string, nat>)
    ensures r == Tally(d, ActionTypes(acoes))
  {
    r := d;
    var j := 0;
    while j < |acoes|
      invariant 0 <= j <= |acoes|
      invariant r == Tally(d, ActionTypes(acoes[..j]))
    {
      assert ActionTypes(acoes[..j + 1]) == ActionTypes(acoes[..j]) + [TipoName(acoes[j].tipo)];
      r := Bump(r, TipoName(acoes[j].tipo));
      j := j + 1;
    }
    assert acoes[..j] == acoes;
  }

  /** The loop over the plans of the period, counting actions by type and plans by status. */
  method ContarPlanos(ps: seq<Plano>) returns (porTipo: Dict<string, nat>, porStatus: Dict<string, nat>)
    ensures porTipo == Tally(NoActions(), AllActionTypes(ps)) && porStatus == Tally([], Statuses(ps))
  {
    porTipo := NoActions();
    porStatus := [];
    var i := 0;
    while i < |ps|
      invariant 0 <= i <= |ps|
      invariant porTipo == Tally(NoActions(), AllActionTypes(ps[..i]))
      invariant porStatus == Tally([], Statuses(ps[..i]))
    {
      assert ps[..i + 1][..i] == ps[..i];
      assert Statuses(ps[..i + 1]) == Statuses(ps[..i]) + [ps[i].status];
      TallyConcat(NoActions(), AllActionTypes(ps[..i]), ActionTypes(ps[i].acoes));
      porTipo := ContarTipos(porTipo, ps[i].acoes);
      porStatus := Bump(porStatus, ps[i].status);
      i := i + 1;
    }
    assert ps[..i] == ps;
  }

  /** The number of anomalies over all the diagnoses. */
  function AnomalyCount(ds: seq<Diagnosis>): nat
  {
    if |ds| == 0 then 0 else AnomalyCount(ds[..|ds| - 1]) + |ds[|ds| - 1].anomalias|
  }

  /** The number of actions over all the plans. */
  function ActionCount(ps: seq<Plano>): nat
  {
    if |ps| == 0 then 0 else ActionCount(ps[..|ps| - 1]) + |ps[|ps| - 1].acoes|
  }

  lemma {:induction false} AllAnomalyIdsLength(ds: seq<Diagnosis>)
    ensures |AllAnomalyIds(ds)| == AnomalyCount(ds)
  {
    if |ds| > 0 {
      AllAnomalyIdsLength(ds[..|ds| - 1]);
    }
  }

  /** Every action type counted is one of the three horizons, and there are as many as actions. */
  lemma {:induction false} AllActionTypesProperties(ps: seq<Plano>)
    ensures |AllActionTypes(ps)| == ActionCount(ps)
    ensures forall i :: 0 <= i < |AllActionTypes(ps)| ==> HasKey(NoActions(), AllActionTypes(ps)[i])
  {
    if |ps| > 0 {
      var init := AllActionTypes(ps[..|ps| - 1]);
      var last := ActionTypes(ps[|ps| - 1].acoes);
      AllActionTypesProperties(ps[..|ps| - 1]);
      assert Keys(NoActions()) == [TipoName(Hotfix), TipoName(Refatoracao), TipoName(Redesign)];
      forall i | 0 <= i < |init + last| ensures HasKey(NoActions(), (init + last)[i]) {
        if i >= |init| {
          assert (init + last)[i] == TipoName(ps[|ps| - 1].acoes[i - |init|].tipo);
        }
      }
    }
  }

  /** The event counters each add up to the number of events of the period, and count each type and severity. */
  lemma ReportEventCounts(metricas: Dict<string, Metric>, eventos: seq<Evento>, diagnosticos: seq<Diagnosis>,
                          planos: seq<Plano>, periodo: real, agora: real)
    ensures var r := Report(metricas, eventos, diagnosticos, planos, periodo, agora);
      var ev := Since(eventos, EventTime, agora - periodo);
      && Total(r.eventosPorTipo, Count) == r.totalEventos
      && Total(r.eventosPorSeveridade, Count) == r.totalEventos
      && (forall t :: CountOf(r.eventosPorTipo, t) == Occurrences(Tipos(ev), t))
      && (forall s :: CountOf(r.eventosPorSeveridade, s) == Occurrences(Severidades(ev), s))
  {
    var ev := Since(eventos, EventTime, agora - periodo);
    TallyTotal([], Tipos(ev));
    TallyTotal([], Severidades(ev));
    TallyCounts([], Tipos(ev));
    TallyCounts([], Severidades(ev));
  }

  /** The initial action counter has the three horizons as distinct keys and counts nothing. */
  lemma NoActionsProperties()
    ensures Keys(NoActions()) == [TipoName(Hotfix), TipoName(Refatoracao), TipoName(Redesign)]
    ensures DistinctKeys(NoActions())
    ensures Total(NoActions(), Count) == 0
  {
    var d: Dict<string, nat> := NoActions();
    assert d[..2][..1] == d[..1];
    assert Total(d[..1], Count) == 0;
    assert Total(d[..2], Count) == 0;
  }

  /**
   * The action counter has exactly the three horizons as keys, in order,
   * and adds up to the number of actions of the plans of the period.
   */
  lemma ReportActionCounts(metricas: Dict<string, Metric>, eventos: seq<Evento>, diagnosticos: seq<Diagnosis>,
                           planos: seq<Plano>, periodo: real, agora: real)
    ensures var r := Report(metricas, eventos, diagnosticos, planos, periodo, agora);
      && Keys(r.acoesPorTipo) == [TipoName(Hotfix), TipoName(Refatoracao), TipoName(Redesign)]
      && Total(r.acoesPorTipo, Count) == ActionCount(Since(planos, PlanTime, agora - periodo))
  {
    var ps := Since(planos, PlanTime, agora - periodo);
    NoActionsProperties();
    AllActionTypesProperties(ps);
    TallyKnownKeys(NoActions(), AllActionTypes(ps));
    TallyTotal(NoActions(), AllActionTypes(ps));
  }

  /**
   * The status counter adds up to the number of plans of the period, and
   * the anomaly counter to the number of anomalies of its diagnoses.
   */
  lemma ReportPlanCounts(metricas: Dict<string, Metric>, eventos: seq<Evento>, diagnosticos: seq<Diagnosis>,
                         planos: seq<Plano>, periodo: real, agora: real)
    ensures var r := Report(metricas, eventos, diagnosticos, planos, periodo, agora);
      && Total(r.planosPorStatus, Count) == r.totalPlanos
      && Total(r.anomaliasDetectadas, Count) == AnomalyCount(Since(diagnosticos, DiagnosisTime, agora - periodo))
  {
    var ps := Since(planos, PlanTime, agora - periodo);
    var ds := Since(diagnosticos, DiagnosisTime, agora - periodo);
    TallyTotal([], Statuses(ps));
    AllAnomalyIdsLength(ds);
    TallyTotal([], AllAnomalyIds(ds));
  }

  /** Every metric is counted, and `por_dimensao` has a positive count for exactly the dimensions present. */
  lemma PerDimensionProperties(metricas: Dict<string, Metric>)
    ensures var ms := ValuesOf(metricas);
      && |ms| == |metricas|
      && (forall dim :: dim in PerDimension(ms) <==> exists k :: 0 <= k < |metricas| && metricas[k].1.dimensao == dim)
      && (forall dim :: dim in PerDimension(ms) ==> PerDimension(ms)[dim] >= 1)
  {
    var ms := ValuesOf(metricas);
    forall dim | dim in Dims(ms) ensures Occurrences(Dims(ms), dim) >= 1 {
      OccursPositive(Dims(ms), dim);
    }
    forall dim ensures dim in Dims(ms) <==> exists k :: 0 <= k < |metricas| && metricas[k].1.dimensao == dim {
      if dim in Dims(ms) {
        var k :| 0 <= k < |Dims(ms)| && Dims(ms)[k] == dim;
        assert metricas[k].1.dimensao == dim;
      }
      if exists k :: 0 <= k < |metricas| && metricas[k].1.dimensao == dim {
        var k :| 0 <= k < |metricas| && metricas[k].1.dimensao == dim;
        assert Dims(ms)[k] == dim;
      }
    }
  }

  /** A key present in a list occurs at least once. */
  lemma {:induction false} OccursPositive<K>(ks: seq<K>, k: K)
    requires k in ks
    ensures Occurrences(ks, k) >= 1
  {
    if ks[|ks| - 1] != k {
      assert k in ks[..|ks| - 1] by {
        assert ks == ks[..|ks| - 1] + [ks[|ks| - 1]];
      }
      OccursPositive(ks[..|ks| - 1], k);
    }
  }
}
