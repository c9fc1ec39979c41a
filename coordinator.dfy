/**
 * `DiagnosticadorCognitivo` of src/diagnostico/diagnostico.py: the
 * coordinator that feeds every metric to the chaos detector and the
 * gradient analyser, runs the rule engine, matches the catalogue of anomaly
 * patterns, ranks the matches, and keeps the newest 100 diagnoses. The
 * clock reading, the random suffix of the id, the rule callables, the
 * pattern detectors, the numerical fits and the float formatting are
 * parameters.
 */
module Coordinator {
  import opened Wrappers
  import opened Dicts
  import opened Values
  import opened Sorting
  import opened Metric
  import opened Patterns
  import Text
  import Seqs
  import Rules
  import Chaos
  import Gradients

  const RecentCap: nat := 100
  const TopRecommendations: nat := 3

  /** `f"diag_{int(time.time())}_{random.randint(1000, 9999)}"`. */
  function DiagnosisId(now: real, sorteio: int): string
  {
    "diag_" + Text.IntText(Text.Trunc(now)) + "_" + Text.IntText(sorteio)
  }

  /** The context the rules and the patterns see. */
  function InitialContext(now: real, ms: seq<Metric>): Ctx
  {
    [("timestamp", VReal(now)), ("num_metricas", VInt(|ms|))]
  }

  /** The series name of a metric: `f"{dimensao}:{nome}"`. */
  function SeriesName(m: Metric): string
  {
    m.dimensao + ":" + m.nome
  }

  /** The matching patterns of the catalogue, in catalogue order; a pattern whose check raises stops the scan. */
  function Matches(cat: Dict<string, Pattern>, ms: seq<Metric>, ctx: Ctx, detect: Detector,
                   pearson: (seq<real>, seq<real>) -> real): Result<seq<(Pattern, real)>>
  {
    if |cat| == 0 then Ok([])
    else
      var init :- Matches(cat[..|cat| - 1], ms, ctx, detect, pearson);
      var p := cat[|cat| - 1].1;
      var m :- Corresponde(p, ms, ctx, detect, pearson);
      Ok(if m.0 then init + [(p, m.1)] else init)
  }

  /** Every match is a catalogued pattern that `corresponde` accepted with that confidence. */
  lemma {:induction false} MatchesSound(cat: Dict<string, Pattern>, ms: seq<Metric>, ctx: Ctx, detect: Detector,
                                        pearson: (seq<real>, seq<real>) -> real)
    requires Matches(cat, ms, ctx, detect, pearson).Ok?
    ensures var r := Matches(cat, ms, ctx, detect, pearson).value;
      && |r| <= |cat|
      && forall i :: 0 <= i < |r| ==>
           (exists j :: 0 <= j < |cat| && cat[j].1 == r[i].0)
           && Corresponde(r[i].0, ms, ctx, detect, pearson) == Ok((true, r[i].1))
  {
    if |cat| > 0 {
      var init := cat[..|cat| - 1];
      MatchesSound(init, ms, ctx, detect, pearson);
      var r := Matches(cat, ms, ctx, detect, pearson).value;
      var ri := Matches(init, ms, ctx, detect, pearson).value;
      forall i | 0 <= i < |r|
        ensures exists j :: 0 <= j < |cat| && cat[j].1 == r[i].0
      {
        if i < |ri| {
          var j :| 0 <= j < |init| && init[j].1 == ri[i].0;
          assert cat[j] == init[j];
        } else {
          assert cat[|cat| - 1].1 == r[i].0;
        }
      }
    }
  }

  /** The sort key of `anomalias_detectadas.sort(key=confianca, reverse=True)`. */
  function NegConfidence(a: (Pattern, real)): real
  {
    -a.1
  }

  /** The root cause and its confidence: the first ranked anomaly, or none with confidence 0.0. */
  function RootCause(ranked: seq<(Pattern, real)>): (Option<string>, real)
  {
    if |ranked| == 0 then (None, 0.0) else (Some("Anomalia detectada: " + ranked[0].0.nome), ranked[0].1)
  }

  /** `f"Investigar {anomalia.nome} (confiança: {conf:.2f})"`, with `fmt` the two-decimal rendering. */
  function RecommendationText(a: (Pattern, real), fmt: real -> string): string
  {
    "Investigar " + a.0.nome + " (confiança: " + fmt(a.1) + ")"
  }

  /**
   * The ranking puts the most confident anomaly first, keeps every match,
   * keeps ties in catalogue order, and the root cause is the most confident
   * match (none, with confidence 0.0, when nothing matched).
   */
  lemma Ranking(anoms: seq<(Pattern, real)>)
    ensures var s := SortBy(anoms, NegConfidence);
      && (forall i, j :: 0 <= i < j < |s| ==> s[i].1 >= s[j].1)
      && multiset(s) == multiset(anoms)
      && SameOrderPerKey(anoms, s, NegConfidence)
      && (|anoms| == 0 <==> RootCause(s) == (None, 0.0) && RootCause(s).0.None?)
      && (|anoms| > 0 ==> forall i :: 0 <= i < |anoms| ==> RootCause(s).1 >= anoms[i].1)
  {
    SortByAscending(anoms, NegConfidence);
    SortByPermutes(anoms, NegConfidence);
    SortByStable(anoms, NegConfidence);
    var s := SortBy(anoms, NegConfidence);
    forall i, j | 0 <= i < j < |s| ensures s[i].1 >= s[j].1 {
      assert NegConfidence(s[i]) <= NegConfidence(s[j]);
    }
    if |anoms| > 0 {
      forall i | 0 <= i < |anoms| ensures s[0].1 >= anoms[i].1 {
        assert anoms[i] in multiset(s);
        var k :| 0 <= k < |s| && s[k] == anoms[i];
        assert k == 0 || NegConfidence(s[0]) <= NegConfidence(s[k]);
      }
    }
  }

  /** `[:3]` of the ranked anomalies, one recommendation each. */
  method Recomendacoes(ranked: seq<(Pattern, real)>, fmt: real -> string) returns (rs: seq<string>)
    ensures |rs| == if |ranked| < TopRecommendations then |ranked| else TopRecommendations
    ensures forall i :: 0 <= i < |rs| ==> rs[i] == RecommendationText(ranked[i], fmt)
  {
    rs := [];
    var i := 0;
    while i < |ranked| && i < TopRecommendations
      invariant 0 <= i <= |ranked| && i <= TopRecommendations
      invariant |rs| == i
      invariant forall k :: 0 <= k < i ==> rs[k] == RecommendationText(ranked[k], fmt)
    {
      rs := rs + [RecommendationText(ranked[i], fmt)];
      i := i + 1;
    }
  }

  /** `_calcular_gradiente`'s dictionary. */
  function GradientValue(g: Gradients.Gradient): Value
  {
    VDict([("inclinacao", VReal(g.inclinacao)), ("r2", VReal(g.r2)),
           ("erro_padrao", VReal(g.erroPadrao)), ("p_valor", VReal(g.pValor))])
  }

  /** `calcular_gradientes`' dictionary: the optional scales appear only when computed. */
  function GradientsValue(g: Gradients.Gradients): Value
  {
    VDict([("curto_prazo", GradientValue(g.curto))]
      + (if g.medio.Some? then [("medio_prazo", GradientValue(g.medio.value))] else [])
      + [("longo_prazo", GradientValue(g.longo))]
      + (if g.aceleracao.Some? then [("aceleracao", VReal(g.aceleracao.value))] else []))
  }

  function DeviationsValue(d: Dict<string, real>): Value
  {
    VDict(seq(|d|, i requires 0 <= i < |d| => (d[i].0, VReal(d[i].1))))
  }

  /** The series names of a batch, in order. */
  function SeriesNames(ms: seq<Metric>): (ns: seq<string>)
    ensures |ns| == |ms| && forall i :: 0 <= i < |ms| ==> ns[i] == SeriesName(ms[i])
  {
    seq(|ms|, i requires 0 <= i < |ms| => SeriesName(ms[i]))
  }

  /** Assigning a key of `names` keeps every key of a dictionary among `names`. */
  lemma PutNamed(d: Ctx, k: string, v: Value, names: seq<string>)
    requires forall j :: 0 <= j < |d| ==> d[j].0 in names
    requires k in names
    ensures forall j :: 0 <= j < |Put(d, k, v)| ==> Put(d, k, v)[j].0 in names
  {
    PutKeys(d, k, v);
    var r := Put(d, k, v);
    forall j | 0 <= j < |r| ensures r[j].0 in names {
      assert Keys(r)[j] == r[j].0;
      if j < |d| { assert Keys(d)[j] == d[j].0; }
    }
  }

  /** The threshold `processar_metricas` leaves `detectar_anomalia` at. */
  const ChaosThreshold: real := 2.0

  /** The series after every metric of the batch has joined its own, in order, each capped at `cap` points. */
  function PointsAdded(series: map<string, seq<Gradients.Point>>, ms: seq<Metric>, cap: nat): map<string, seq<Gradients.Point>>
  {
    if |ms| == 0 then series
    else
      var m := ms[|ms| - 1];
      Seqs.AppendCapped(PointsAdded(series, ms[..|ms| - 1], cap), SeriesName(m), (m.timestamp, m.valor), cap)
  }

  /**
   * The gradient loop of `processar_metricas` on the analyser's state: the
   * series' gradients by name for every series with a result, and the
   * histories afterwards. The first error ends the loop.
   */
  function GradientsOver(series: map<string, seq<Gradients.Point>>, historicos: map<string, seq<(real, Gradients.Gradient)>>,
                         janela: nat, sobreposicao: nat, ms: seq<Metric>, linregress: Gradients.LinRegress)
    : (Result<Ctx>, map<string, seq<(real, Gradients.Gradient)>>)
  {
    if |ms| == 0 then (Ok([]), historicos)
    else
      var prev := GradientsOver(series, historicos, janela, sobreposicao, ms[..|ms| - 1], linregress);
      if prev.0.Err? then prev
      else
        var nome := SeriesName(ms[|ms| - 1]);
        var step := Gradients.GradientStep(series, prev.1, janela, sobreposicao, nome, linregress);
        if step.0.Err? then (Err(step.0.error), step.1)
        else if step.0.value.Some? then (Ok(Put(prev.0.value, nome, GradientsValue(step.0.value.value))), step.1)
        else (prev.0, step.1)
  }

  /**
   * The chaos loop of `processar_metricas` on the detector's state: the
   * deviations by name of every series flagged as anomalous, and the
   * references afterwards.
   */
  function ChaosOver(series: map<string, seq<(real, real)>>, referencia: map<string, Dict<string, real>>,
                     janela: nat, ms: seq<Metric>, stats: Chaos.ChaosStats): (Ctx, map<string, Dict<string, real>>)
  {
    if |ms| == 0 then ([], referencia)
    else
      var prev := ChaosOver(series, referencia, janela, ms[..|ms| - 1], stats);
      var nome := SeriesName(ms[|ms| - 1]);
      var step := Chaos.AnomalyStep(series, prev.1, janela, nome, ChaosThreshold, stats);
      (if step.0 then Put(prev.0, nome, DeviationsValue(step.1)) else prev.0, step.2)
  }

  /**
   * The diagnosis `processar_metricas` builds: the id `diag_<time>_<draw>`,
   * the time, the metrics, the ranked anomalies and their root cause,
   * recommendations for the first three, and a context holding the time,
   * the metric count and the two analysis dictionaries, in that order.
   */
  ghost predicate Assembled(d: Diagnosis, ms: seq<Metric>, now: real, sorteio: int, ranked: seq<(Pattern, real)>,
                            gradientes: Ctx, caos: Ctx, fmt: real -> string)
  {
    && d.id == DiagnosisId(now, sorteio) && d.timestamp == now && d.metricas == ms && d.anomalias == ranked
    && (d.causaRaiz, d.confianca) == RootCause(ranked)
    && |d.recomendacoes| == (if |ranked| < TopRecommendations then |ranked| else TopRecommendations)
    && (forall i :: 0 <= i < |d.recomendacoes| ==> d.recomendacoes[i] == RecommendationText(ranked[i], fmt))
    && Keys(d.contexto) == ["timestamp", "num_metricas", "gradientes", "caos"]
    && d.contexto[..2] == InitialContext(now, ms)
    && d.contexto[2] == ("gradientes", VDict(gradientes)) && d.contexto[3] == ("caos", VDict(caos))
  }

  /** The diagnosis record of `processar_metricas`, from the ranked anomalies and the analysers' findings. */
  method Montar(ms: seq<Metric>, now: real, sorteio: int, ranked: seq<(Pattern, real)>, gradientes: Ctx, caos: Ctx,
                fmt: real -> string) returns (d: Diagnosis)
    ensures Assembled(d, ms, now, sorteio, ranked, gradientes, caos, fmt)
  {
    var contexto := InitialContext(now, ms);
    var completo := contexto + [("gradientes", VDict(gradientes)), ("caos", VDict(caos))];
    var recs := Recomendacoes(ranked, fmt);
    var causa := RootCause(ranked);
    d := Diagnosis(DiagnosisId(now, sorteio), now, ranked, ms, causa.0, causa.1, recs, completo);
    assert Keys(completo) == ["timestamp", "num_metricas", "gradientes", "caos"];
    assert completo[..2] == contexto;
  }

  /** The first diagnosis with a given id. */
  predicate FirstWithId(ds: seq<Diagnosis>, id: string, i: int)
  {
    0 <= i < |ds| && ds[i].id == id && forall k :: 0 <= k < i ==> ds[k].id != id
  }

  class Diagnostician {
    const motor: Rules.RuleEngine
    const detector: Chaos.ChaosDetector
    const analisador: Gradients.GradientAnalyzer
    var catalogo: Dict<string, Pattern>
    var recentes: seq<Diagnosis>

    ghost predicate Valid()
      reads this, motor, detector, analisador
    {
      && motor.Valid()
      && detector.Valid()
      && analisador.Valid()
      && |recentes| <= RecentCap
    }

    /** The defaults: chaos window 100, embedding 3, delay 1; gradient window 50, overlap 10. */
    constructor ()
      ensures Valid()
      ensures catalogo == [] && recentes == []
      ensures detector.janelaAnalise == 100 && detector.dimensaoEmbedding == 3 && detector.delay == 1
      ensures analisador.janelaAnalise == 50 && analisador.sobreposicao == 10
    {
      motor := new Rules.RuleEngine();
      detector := new Chaos.ChaosDetector(100, 3, 1);
      analisador := new Gradients.GradientAnalyzer(50, 10);
      catalogo := [];
      recentes := [];
    }

    /** `registrar_padrao_anomalia`: a pattern is filed under its id, replacing one with the same id in place. */
    method RegistrarPadraoAnomalia(p: Pattern)
      modifies this
      ensures catalogo == Put(old(catalogo), p.id, p)
      ensures recentes == old(recentes)
    {
      catalogo := Put(catalogo, p.id, p);
    }

    /** Both analysers receive every metric as a point of its series. */
    method RegistrarPontos(ms: seq<Metric>)
      requires Valid()
      modifies detector, analisador
      ensures Valid()
      ensures detector.series == PointsAdded(old(detector.series), ms, 2 * detector.janelaAnalise)
      ensures analisador.series == PointsAdded(old(analisador.series), ms, 10 * analisador.janelaAnalise)
      ensures detector.referencia == old(detector.referencia) && analisador.historicos == old(analisador.historicos)
      ensures unchanged(this) && unchanged(motor)
    {
      var i := 0;
      while i < |ms|
        invariant 0 <= i <= |ms|
        invariant Valid()
        invariant detector.series == PointsAdded(old(detector.series), ms[..i], 2 * detector.janelaAnalise)
        invariant analisador.series == PointsAdded(old(analisador.series), ms[..i], 10 * analisador.janelaAnalise)
        invariant detector.referencia == old(detector.referencia) && analisador.historicos == old(analisador.historicos)
      {
        assert ms[..i + 1][..i] == ms[..i];
        var m := ms[i];
        detector.AdicionarPonto(SeriesName(m), m.valor, m.timestamp);
        analisador.AdicionarPonto(SeriesName(m), m.valor, m.timestamp);
        i := i + 1;
      }
      assert ms[..|ms|] == ms;
    }

    /** The catalogue scan of `processar_metricas`. */
    method DetectarAnomalias(ms: seq<Metric>, ctx: Ctx, detect: Detector, pearson: (seq<real>, seq<real>) -> real)
      returns (r: Result<seq<(Pattern, real)>>)
      ensures r == Matches(catalogo, ms, ctx, detect, pearson)
    {
      var anoms: seq<(Pattern, real)> := [];
      var i := 0;
      while i < |catalogo|
        invariant 0 <= i <= |catalogo|
        invariant Matches(catalogo[..i], ms, ctx, detect, pearson) == Ok(anoms)
      {
        assert catalogo[..i + 1][..i] == catalogo[..i];
        var p := catalogo[i].1;
        var m := Corresponde(p, ms, ctx, detect, pearson);
        if m.Err? {
          MatchesStop(catalogo, i + 1, ms, ctx, detect, pearson);
          return Err(m.error);
        }
        if m.value.0 {
          anoms := anoms + [(p, m.value.1)];
        }
        i := i + 1;
      }
      assert catalogo[..|catalogo|] == catalogo;
      return Ok(anoms);
    }

    /** The gradients of every metric's series that has a full window, by series name. */
    method AnalisarGradientes(ms: seq<Metric>, linregress: Gradients.LinRegress) returns (r: Result<Ctx>)
      requires Valid()
      modifies analisador
      ensures Valid()
      ensures r.Ok? ==> forall j :: 0 <= j < |r.value| ==> r.value[j].0 in SeriesNames(ms)
      ensures analisador.series == old(analisador.series)
      ensures (r, analisador.historicos)
        == GradientsOver(old(analisador.series), old(analisador.historicos), analisador.janelaAnalise, analisador.sobreposicao, ms, linregress)
    {
      ghost var pontos, h0 := analisador.series, analisador.historicos;
      ghost var janela, sobreposicao := analisador.janelaAnalise, analisador.sobreposicao;
      var gradientes: Ctx := [];
      var i := 0;
      while i < |ms|
        invariant 0 <= i <= |ms|
        invariant Valid()
        invariant analisador.series == pontos
        invariant (Ok(gradientes), analisador.historicos) == GradientsOver(pontos, h0, janela, sobreposicao, ms[..i], linregress)
      {
        var nome := SeriesName(ms[i]);
        ghost var step := Gradients.GradientStep(pontos, analisador.historicos, janela, sobreposicao, nome, linregress);
        GradientsNext(pontos, h0, janela, sobreposicao, ms, i, linregress, gradientes, analisador.historicos);
        var g := analisador.CalcularGradientes(nome, linregress);
        assert (g, analisador.historicos) == step;
        if g.Err? {
          GradientsStop(pontos, h0, janela, sobreposicao, ms, i + 1, linregress);
          return Err(g.error);
        }
        if g.value.Some? {
          gradientes := Put(gradientes, nome, GradientsValue(g.value.value));
        }
        i := i + 1;
      }
      assert ms[..|ms|] == ms;
      GradientsOverNamed(pontos, h0, janela, sobreposicao, ms, linregress);
      return Ok(gradientes);
    }

    /** The deviations of every metric's series the chaos detector flags, by series name. */
    method DetectarCaos(ms: seq<Metric>, stats: Chaos.ChaosStats) returns (caos: Ctx)
      requires Valid()
      modifies detector
      ensures Valid()
      ensures forall j :: 0 <= j < |caos| ==> caos[j].0 in SeriesNames(ms)
      ensures detector.series == old(detector.series)
      ensures (caos, detector.referencia) == ChaosOver(old(detector.series), old(detector.referencia), detector.janelaAnalise, ms, stats)
    {
      ghost var pontos, r0, janela := detector.series, detector.referencia, detector.janelaAnalise;
      caos := [];
      var i := 0;
      while i < |ms|
        invariant 0 <= i <= |ms|
        invariant Valid()
        invariant detector.series == pontos
        invariant (caos, detector.referencia) == ChaosOver(pontos, r0, janela, ms[..i], stats)
      {
        var nome := SeriesName(ms[i]);
        ghost var step := Chaos.AnomalyStep(pontos, detector.referencia, janela, nome, ChaosThreshold, stats);
        ChaosNext(pontos, r0, janela, ms, i, stats, caos, detector.referencia);
        var anomalia, desvios := detector.DetectarAnomalia(nome, ChaosThreshold, stats);
        assert (anomalia, desvios, detector.referencia) == step;
        if anomalia {
          caos := Put(caos, nome, DeviationsValue(desvios));
        }
        i := i + 1;
      }
      assert ms[..|ms|] == ms;
      ChaosOverNamed(pontos, r0, janela, ms, stats);
    }

    /**
     * The gradient loop and then, unless it raised, the chaos loop of
     * `processar_metricas`: the `gradientes` and `caos` dictionaries.
     */
    method AnalisarSeries(ms: seq<Metric>, linregress: Gradients.LinRegress, stats: Chaos.ChaosStats) returns (r: Result<(Ctx, Ctx)>)
      requires Valid()
      modifies detector, analisador
      ensures Valid()
      ensures detector.series == old(detector.series) && analisador.series == old(analisador.series)
      ensures var g := GradientsOver(analisador.series, old(analisador.historicos), analisador.janelaAnalise, analisador.sobreposicao, ms, linregress);
        && analisador.historicos == g.1
        && (r.Err? <==> g.0.Err?)
        && (r.Ok? ==> r.value.0 == g.0.value)
      ensures r.Err? ==> detector.referencia == old(detector.referencia)
      ensures r.Ok? ==>
        var c := ChaosOver(detector.series, old(detector.referencia), detector.janelaAnalise, ms, stats);
        detector.referencia == c.1 && r.value.1 == c.0
    {
      var gradientes := AnalisarGradientes(ms, linregress);
      if gradientes.Err? {
        return Err(gradientes.error);
      }
      var caos := DetectarCaos(ms, stats);
      return Ok((gradientes.value, caos));
    }

    /**
     * The second half of `processar_metricas`: the matches ranked by confidence,
     * both analyses over the batch, the record assembled and kept among the recent ones.
     */
    method Concluir(ms: seq<Metric>, now: real, sorteio: int, found: seq<(Pattern, real)>,
                    linregress: Gradients.LinRegress, stats: Chaos.ChaosStats, fmt: real -> string)
      returns (r: Result<Diagnosis>)
      requires Valid()
      modifies this, detector, analisador
      ensures Valid()
      ensures catalogo == old(catalogo)
      ensures detector.series == old(detector.series) && analisador.series == old(analisador.series)
      ensures var g := GradientsOver(analisador.series, old(analisador.historicos), analisador.janelaAnalise, analisador.sobreposicao, ms, linregress);
        var c := ChaosOver(detector.series, old(detector.referencia), detector.janelaAnalise, ms, stats);
        && (r.Err? <==> g.0.Err?)
        && analisador.historicos == g.1
        && detector.referencia == (if r.Err? then old(detector.referencia) else c.1)
        && (r.Err? ==> recentes == old(recentes))
        && (r.Ok? ==>
              && Assembled(r.value, ms, now, sorteio, SortBy(found, NegConfidence), g.0.value, c.0, fmt)
              && recentes == Seqs.Newest(old(recentes) + [r.value], RecentCap))
    {
      var ranked := SortBy(found, NegConfidence);
      var analise := AnalisarSeries(ms, linregress, stats);
      if analise.Err? {
        return Err(analise.error);
      }
      var d := Montar(ms, now, sorteio, ranked, analise.value.0, analise.value.1, fmt);
      recentes := Seqs.Newest(recentes + [d], RecentCap);
      return Ok(d);
    }

    /**
     * `processar_metricas`: the diagnosis of a batch. Anomalies are the
     * matching catalogue patterns ranked by confidence, the root cause is the
     * most confident one, at most three are recommended for investigation,
     * and the diagnosis joins the newest 100.
     */
    method ProcessarMetricas(ms: seq<Metric>, now: real, sorteio: int, cond: Rules.Callable, act: Rules.Callable,
                             detect: Detector, pearson: (seq<real>, seq<real>) -> real,
                             linregress: Gradients.LinRegress, stats: Chaos.ChaosStats, fmt: real -> string)
      returns (r: Result<Diagnosis>)
      requires Valid()
      modifies this, motor, detector, analisador
      ensures Valid()
      ensures var run := Rules.Run(old(motor.regras), ms, InitialContext(now, ms), now, cond, act);
        motor.regras == run.regras && motor.historico == Seqs.Newest(old(motor.historico) + run.entradas, Rules.HistoryCap)
      ensures catalogo == old(catalogo)
      ensures detector.series == PointsAdded(old(detector.series), ms, 2 * detector.janelaAnalise)
      ensures analisador.series == PointsAdded(old(analisador.series), ms, 10 * analisador.janelaAnalise)
      ensures var found := Matches(old(catalogo), ms, InitialContext(now, ms), detect, pearson);
        var g := GradientsOver(analisador.series, old(analisador.historicos), analisador.janelaAnalise, analisador.sobreposicao, ms, linregress);
        var c := ChaosOver(detector.series, old(detector.referencia), detector.janelaAnalise, ms, stats);
        && (r.Err? <==> found.Err? || g.0.Err?)
        && analisador.historicos == (if found.Err? then old(analisador.historicos) else g.1)
        && detector.referencia == (if r.Err? then old(detector.referencia) else c.1)
        && (r.Err? ==> recentes == old(recentes))
        && (r.Ok? ==>
              && Assembled(r.value, ms, now, sorteio, SortBy(found.value, NegConfidence), g.0.value, c.0, fmt)
              && recentes == Seqs.Newest(old(recentes) + [r.value], RecentCap))
    {
      var contexto := InitialContext(now, ms);
      ghost var found0 := Matches(catalogo, ms, contexto, detect, pearson);
      RegistrarPontos(ms);
      var _ := motor.Executar(ms, contexto, now, cond, act);
      ghost var pontosCaos, pontosGrad := detector.series, analisador.series;
      assert pontosCaos == PointsAdded(old(detector.series), ms, 2 * detector.janelaAnalise);
      assert pontosGrad == PointsAdded(old(analisador.series), ms, 10 * analisador.janelaAnalise);
      var found := DetectarAnomalias(ms, contexto, detect, pearson);
      assert found == found0;
      if found.Err? {
        return Err(found.error);
      }
      r := Concluir(ms, now, sorteio, found.value, linregress, stats, fmt);
    }

    /** `obter_diagnostico`: the first recent diagnosis with the id, if any. */
    method ObterDiagnostico(id: string) returns (r: Option<Diagnosis>)
      ensures r.None? <==> forall k :: 0 <= k < |recentes| ==> recentes[k].id != id
      ensures r.Some? ==> exists i :: FirstWithId(recentes, id, i) && r.value == recentes[i]
    {
      var i := 0;
      while i < |recentes|
        invariant 0 <= i <= |recentes|
        invariant forall k :: 0 <= k < i ==> recentes[k].id != id
      {
        if recentes[i].id == id {
          assert FirstWithId(recentes, id, i);
          return Some(recentes[i]);
        }
        i := i + 1;
      }
      return None;
    }
  }

  /** Once the scan of a prefix fails, the whole scan fails with the same error. */
  lemma {:induction false} MatchesStop(cat: Dict<string, Pattern>, k: nat, ms: seq<Metric>, ctx: Ctx, detect: Detector,
                                       pearson: (seq<real>, seq<real>) -> real)
    requires k <= |cat| && Matches(cat[..k], ms, ctx, detect, pearson).Err?
    ensures Matches(cat, ms, ctx, detect, pearson) == Matches(cat[..k], ms, ctx, detect, pearson)
    decreases |cat| - k
  {
    if k < |cat| {
      assert cat[..k + 1][..k] == cat[..k];
      MatchesStop(cat, k + 1, ms, ctx, detect, pearson);
    } else {
      assert cat[..k] == cat;
    }
  }

  /** Once the gradient loop fails on a prefix, the whole batch fails with the same error and histories. */
  lemma {:induction false} GradientsStop(series: map<string, seq<Gradients.Point>>, historicos: map<string, seq<(real, Gradients.Gradient)>>,
                                         janela: nat, sobreposicao: nat, ms: seq<Metric>, k: nat, linregress: Gradients.LinRegress)
    requires k <= |ms| && GradientsOver(series, historicos, janela, sobreposicao, ms[..k], linregress).0.Err?
    ensures GradientsOver(series, historicos, janela, sobreposicao, ms, linregress)
         == GradientsOver(series, historicos, janela, sobreposicao, ms[..k], linregress)
    decreases |ms| - k
  {
    if k < |ms| {
      assert ms[..k + 1][..k] == ms[..k];
      GradientsStop(series, historicos, janela, sobreposicao, ms, k + 1, linregress);
    } else {
      assert ms[..k] == ms;
    }
  }

  /** One more metric of the gradient loop, after a prefix that succeeded. */
  lemma GradientsNext(series: map<string, seq<Gradients.Point>>, historicos: map<string, seq<(real, Gradients.Gradient)>>,
                      janela: nat, sobreposicao: nat, ms: seq<Metric>, i: nat, linregress: Gradients.LinRegress,
                      acc: Ctx, h: map<string, seq<(real, Gradients.Gradient)>>)
    requires i < |ms| && GradientsOver(series, historicos, janela, sobreposicao, ms[..i], linregress) == (Ok(acc), h)
    ensures var nome := SeriesName(ms[i]);
      var step := Gradients.GradientStep(series, h, janela, sobreposicao, nome, linregress);
      GradientsOver(series, historicos, janela, sobreposicao, ms[..i + 1], linregress)
        == if step.0.Err? then (Err(step.0.error), step.1)
           else if step.0.value.Some? then (Ok(Put(acc, nome, GradientsValue(step.0.value.value))), step.1)
           else (Ok(acc), step.1)
  {
    assert ms[..i + 1][..i] == ms[..i];
  }

  /** One more metric of the chaos loop. */
  lemma ChaosNext(series: map<string, seq<(real, real)>>, referencia: map<string, Dict<string, real>>,
                  janela: nat, ms: seq<Metric>, i: nat, stats: Chaos.ChaosStats, acc: Ctx, rf: map<string, Dict<string, real>>)
    requires i < |ms| && ChaosOver(series, referencia, janela, ms[..i], stats) == (acc, rf)
    ensures var nome := SeriesName(ms[i]);
      var step := Chaos.AnomalyStep(series, rf, janela, nome, ChaosThreshold, stats);
      ChaosOver(series, referencia, janela, ms[..i + 1], stats)
        == (if step.0 then Put(acc, nome, DeviationsValue(step.1)) else acc, step.2)
  {
    assert ms[..i + 1][..i] == ms[..i];
  }

  /** The series names of a batch are those of all but its last metric, then the last one's. */
  lemma SeriesNamesLast(ms: seq<Metric>)
    requires |ms| > 0
    ensures SeriesNames(ms) == SeriesNames(ms[..|ms| - 1]) + [SeriesName(ms[|ms| - 1])]
  {
  }

  /** Keys named after series of all but the last metric are named after series of the batch. */
  lemma NamesGrow(d: Ctx, ms: seq<Metric>)
    requires |ms| > 0 && forall j :: 0 <= j < |d| ==> d[j].0 in SeriesNames(ms[..|ms| - 1])
    ensures forall j :: 0 <= j < |d| ==> d[j].0 in SeriesNames(ms)
  {
    SeriesNamesLast(ms);
  }

  /**
   * Registering a batch adds a series for each of its names and for no other,
   * and leaves every series outside the batch as it was.
   */
  lemma {:induction false} PointsAddedFrame(series: map<string, seq<Gradients.Point>>, ms: seq<Metric>, cap: nat)
    ensures forall k :: k in PointsAdded(series, ms, cap) <==> k in series || k in SeriesNames(ms)
    ensures forall k :: k !in SeriesNames(ms) && k in series ==> PointsAdded(series, ms, cap)[k] == series[k]
  {
    if |ms| > 0 {
      PointsAddedFrame(series, ms[..|ms| - 1], cap);
      SeriesNamesLast(ms);
    }
  }

  /** The newest point of a non-empty batch is the newest point of its series, whatever the cap. */
  lemma PointsAddedNewest(series: map<string, seq<Gradients.Point>>, ms: seq<Metric>, cap: nat)
    requires |ms| > 0
    ensures var m := ms[|ms| - 1];
      var t := PointsAdded(series, ms, cap)[SeriesName(m)];
      |t| > 0 && t[|t| - 1] == (m.timestamp, m.valor)
  {
    var m := ms[|ms| - 1];
    var before := PointsAdded(series, ms[..|ms| - 1], cap);
    var s := (if SeriesName(m) in before then before[SeriesName(m)] else []) + [(m.timestamp, m.valor)];
    Seqs.CappedBound(s, cap);
  }

  /**
   * Every gradient entry of a successful batch belongs to a series of the
   * batch and holds that series' gradients; histories outside the batch stay
   * as they were.
   */
  lemma {:induction false} GradientsOverEntries(series: map<string, seq<Gradients.Point>>, historicos: map<string, seq<(real, Gradients.Gradient)>>,
                                                janela: nat, sobreposicao: nat, ms: seq<Metric>, linregress: Gradients.LinRegress)
    ensures var g := GradientsOver(series, historicos, janela, sobreposicao, ms, linregress);
      g.0.Ok? ==> forall k :: Get(g.0.value, k).Some? ==>
        k in SeriesNames(ms) && exists gs :: Get(g.0.value, k).value == GradientsValue(gs)
    ensures var g := GradientsOver(series, historicos, janela, sobreposicao, ms, linregress);
      forall k :: k !in SeriesNames(ms) ==> (k in g.1 <==> k in historicos) && (k in historicos ==> g.1[k] == historicos[k])
  {
    if |ms| > 0 {
      GradientsOverEntries(series, historicos, janela, sobreposicao, ms[..|ms| - 1], linregress);
      SeriesNamesLast(ms);
    }
  }

  /** The gradient entries of a successful batch are named after series of the batch. */
  lemma {:induction false} GradientsOverNamed(series: map<string, seq<Gradients.Point>>, historicos: map<string, seq<(real, Gradients.Gradient)>>,
                                              janela: nat, sobreposicao: nat, ms: seq<Metric>, linregress: Gradients.LinRegress)
    ensures var g := GradientsOver(series, historicos, janela, sobreposicao, ms, linregress);
      g.0.Ok? ==> forall j :: 0 <= j < |g.0.value| ==> g.0.value[j].0 in SeriesNames(ms)
  {
    if |ms| > 0 {
      var n := |ms| - 1;
      GradientsOverNamed(series, historicos, janela, sobreposicao, ms[..n], linregress);
      SeriesNamesLast(ms);
      var prev := GradientsOver(series, historicos, janela, sobreposicao, ms[..n], linregress);
      if prev.0.Ok? {
        NamesGrow(prev.0.value, ms);
        var step := Gradients.GradientStep(series, prev.1, janela, sobreposicao, SeriesName(ms[n]), linregress);
        if step.0.Ok? && step.0.value.Some? {
          PutNamed(prev.0.value, SeriesName(ms[n]), GradientsValue(step.0.value.value), SeriesNames(ms));
        }
      }
    }
  }

  /** A batch none of whose series has a full window yields no gradients and touches no history. */
  lemma {:induction false} GradientsOverQuiet(series: map<string, seq<Gradients.Point>>, historicos: map<string, seq<(real, Gradients.Gradient)>>,
                                              janela: nat, sobreposicao: nat, ms: seq<Metric>, linregress: Gradients.LinRegress)
    requires forall i :: 0 <= i < |ms| ==> SeriesName(ms[i]) !in series || |series[SeriesName(ms[i])]| < janela
    ensures GradientsOver(series, historicos, janela, sobreposicao, ms, linregress) == (Ok([]), historicos)
  {
    if |ms| > 0 {
      GradientsOverQuiet(series, historicos, janela, sobreposicao, ms[..|ms| - 1], linregress);
    }
  }

  /**
   * Every chaos entry belongs to a series of the batch and holds deviations
   * of which one exceeds the threshold; references outside the batch stay as
   * they were.
   */
  lemma {:induction false} ChaosOverEntries(series: map<string, seq<(real, real)>>, referencia: map<string, Dict<string, real>>,
                                            janela: nat, ms: seq<Metric>, stats: Chaos.ChaosStats)
    ensures var c := ChaosOver(series, referencia, janela, ms, stats);
      forall k :: Get(c.0, k).Some? ==>
        k in SeriesNames(ms) && exists dv :: Get(c.0, k).value == DeviationsValue(dv) && Chaos.Anomalous(dv, ChaosThreshold)
    ensures var c := ChaosOver(series, referencia, janela, ms, stats);
      forall k :: k !in SeriesNames(ms) ==> (k in c.1 <==> k in referencia) && (k in referencia ==> c.1[k] == referencia[k])
  {
    if |ms| > 0 {
      ChaosOverEntries(series, referencia, janela, ms[..|ms| - 1], stats);
      SeriesNamesLast(ms);
    }
  }

  /** The chaos entries of a batch are named after series of the batch. */
  lemma {:induction false} ChaosOverNamed(series: map<string, seq<(real, real)>>, referencia: map<string, Dict<string, real>>,
                                          janela: nat, ms: seq<Metric>, stats: Chaos.ChaosStats)
    ensures forall j :: 0 <= j < |ChaosOver(series, referencia, janela, ms, stats).0| ==>
      ChaosOver(series, referencia, janela, ms, stats).0[j].0 in SeriesNames(ms)
  {
    if |ms| > 0 {
      var n := |ms| - 1;
      ChaosOverNamed(series, referencia, janela, ms[..n], stats);
      SeriesNamesLast(ms);
      var prev := ChaosOver(series, referencia, janela, ms[..n], stats);
      NamesGrow(prev.0, ms);
      var step := Chaos.AnomalyStep(series, prev.1, janela, SeriesName(ms[n]), ChaosThreshold, stats);
      if step.0 {
        PutNamed(prev.0, SeriesName(ms[n]), DeviationsValue(step.1), SeriesNames(ms));
      }
    }
  }

  /** A batch none of whose series has a full window flags nothing and sets no reference. */
  lemma {:induction false} ChaosOverQuiet(series: map<string, seq<(real, real)>>, referencia: map<string, Dict<string, real>>,
                                          janela: nat, ms: seq<Metric>, stats: Chaos.ChaosStats)
    requires forall i :: 0 <= i < |ms| ==> SeriesName(ms[i]) !in series || |series[SeriesName(ms[i])]| < janela
    ensures ChaosOver(series, referencia, janela, ms, stats) == ([], referencia)
  {
    if |ms| > 0 {
      ChaosOverQuiet(series, referencia, janela, ms[..|ms| - 1], stats);
    }
  }
}
