/**
 * `AgregadorTemporal` of src/monitoramento/monitoramento.py: per metric key
 * ("dimensao:nome") and per time window, the metrics received within that
 * window, with the window statistics and trend detection computed from them.
 * Polynomial fitting and the standard deviation are supplied by the caller.
 */
module Aggregation {
  import opened Wrappers
  import opened Seqs
  import opened Sorting
  import opened Metric
  import Stats

  /** The key a metric is stored under. */
  function KeyOf(dimensao: string, nome: string): string
  {
    dimensao + ":" + nome
  }

  /** The metrics of `ms` still inside a window of `janela` seconds at time `now`, in order. */
  function Recent(ms: seq<Metric>, now: real, janela: int): (r: seq<Metric>)
    ensures |r| <= |ms|
    ensures forall m :: m in r <==> m in ms && now - m.timestamp <= janela as real
  {
    if |ms| == 0 then []
    else
      var init := Recent(ms[..|ms| - 1], now, janela);
      var last := ms[|ms| - 1];
      assert ms == ms[..|ms| - 1] + [last];
      if now - last.timestamp <= janela as real then init + [last] else init
  }

  /** Filtering twice at the same time and window changes nothing more. */
  lemma {:induction false} RecentIdempotent(ms: seq<Metric>, now: real, janela: int)
    ensures Recent(Recent(ms, now, janela), now, janela) == Recent(ms, now, janela)
  {
    if |ms| > 0 {
      var init := Recent(ms[..|ms| - 1], now, janela);
      RecentIdempotent(ms[..|ms| - 1], now, janela);
      var last := ms[|ms| - 1];
      if now - last.timestamp <= janela as real {
        assert (init + [last])[..|init + [last]| - 1] == init;
      }
    }
  }

  /** One window's update in `adicionar_metrica`: evict what fell out, then append the new metric. */
  function AddToWindow(w: map<int, seq<Metric>>, janela: int, m: Metric, now: real): map<int, seq<Metric>>
    requires janela in w
  {
    w[janela := Recent(w[janela], now, janela) + [m]]
  }

  /** The loop of `adicionar_metrica` over the configured windows, in order. */
  function AddToWindows(w: map<int, seq<Metric>>, janelas: seq<int>, m: Metric, now: real): (r: map<int, seq<Metric>>)
    requires forall j :: j in janelas ==> j in w
    ensures r.Keys == w.Keys
  {
    if |janelas| == 0 then w
    else
      var before := AddToWindows(w, janelas[..|janelas| - 1], m, now);
      AddToWindow(before, janelas[|janelas| - 1], m, now)
  }

  lemma AddStep(w: map<int, seq<Metric>>, janelas: seq<int>, i: nat, m: Metric, now: real)
    requires w.Keys == set j | j in janelas
    requires i < |janelas|
    ensures janelas[i] in AddToWindows(w, janelas[..i], m, now)
    ensures AddToWindows(w, janelas[..i + 1], m, now) == AddToWindow(AddToWindows(w, janelas[..i], m, now), janelas[i], m, now)
  {
    assert janelas[..i + 1][..i] == janelas[..i];
  }

  /** `{janela: [] for janela in janelas}`. */
  function EmptyWindows(janelas: seq<int>): (w: map<int, seq<Metric>>)
    ensures w.Keys == set j | j in janelas
    ensures forall j :: j in w ==> w[j] == []
  {
    map j | j in janelas :: []
  }

  /**
   * With distinct windows, every window of the key ends up holding its
   * previous metrics still inside the window, followed by the new metric;
   * windows not configured are untouched.
   */
  lemma {:induction false} AddToWindowsEach(w: map<int, seq<Metric>>, janelas: seq<int>, m: Metric, now: real)
    requires forall j :: j in janelas ==> j in w
    requires forall a, b :: 0 <= a < b < |janelas| ==> janelas[a] != janelas[b]
    ensures forall j :: j in janelas ==> AddToWindows(w, janelas, m, now)[j] == Recent(w[j], now, j) + [m]
    ensures forall j :: j in w && j !in janelas ==> AddToWindows(w, janelas, m, now)[j] == w[j]
  {
    if |janelas| > 0 {
      var init := janelas[..|janelas| - 1];
      AddToWindowsEach(w, init, m, now);
      assert forall j :: j in janelas <==> j in init || j == janelas[|janelas| - 1];
    }
  }

  /** Every metric a window holds after an addition is the new one or one still inside that window. */
  lemma AddedWindowsRecent(w: map<int, seq<Metric>>, janelas: seq<int>, m: Metric, now: real)
    requires forall j :: j in janelas ==> j in w
    requires forall a, b :: 0 <= a < b < |janelas| ==> janelas[a] != janelas[b]
    ensures forall j, x :: j in janelas && x in AddToWindows(w, janelas, m, now)[j] ==>
      x == m || (x in w[j] && now - x.timestamp <= j as real)
  {
    AddToWindowsEach(w, janelas, m, now);
  }

  class TemporalAggregator {
    const janelas: seq<int>
    var metricas: map<string, map<int, seq<Metric>>>

    /** Every stored key carries exactly the configured windows. */
    ghost predicate Valid()
      reads this
    {
      forall k :: k in metricas ==> metricas[k].Keys == set j | j in janelas
    }

    constructor (janelas: seq<int>)
      ensures Valid() && metricas == map[]
      ensures this.janelas == if |janelas| == 0 then [60, 300, 900, 3600] else janelas
    {
      this.janelas := if |janelas| == 0 then [60, 300, 900, 3600] else janelas;
      metricas := map[];
    }

    /**
     * `adicionar_metrica` at time `now`: a new key starts with every window
     * empty; each configured window, in order, drops what fell out of it and
     * receives the metric; other keys are untouched. The key's windows are
     * rewritten in a local map and stored once, which no reader can tell
     * apart from storing after every window.
     */
    method AdicionarMetrica(m: Metric, now: real)
      requires Valid()
      modifies this
      ensures Valid()
      ensures var k := KeyOf(m.dimensao, m.nome);
        var start := if k in old(metricas) then old(metricas)[k] else EmptyWindows(janelas);
        metricas == old(metricas)[k := AddToWindows(start, janelas, m, now)]
    {
      var chave := KeyOf(m.dimensao, m.nome);
      var porJanela := if chave in metricas then metricas[chave] else EmptyWindows(janelas);
      ghost var start := porJanela;
      assert start.Keys == set j | j in janelas;
      var i := 0;
      while i < |janelas|
        invariant 0 <= i <= |janelas|
        invariant porJanela == AddToWindows(start, janelas[..i], m, now)
        invariant metricas == old(metricas)
      {
        var janela := janelas[i];
        AddStep(start, janelas, i, m, now);
        porJanela := porJanela[janela := Recent(porJanela[janela], now, janela) + [m]];
        i := i + 1;
      }
      assert janelas[..i] == janelas;
      assert porJanela.Keys == start.Keys;
      metricas := metricas[chave := porJanela];
    }

    /** `obter_metricas_janela`: [] for an unknown key or window, else the window's metrics still inside it. */
    function ObterMetricasJanela(dimensao: string, nome: string, janela: int, now: real): (r: seq<Metric>)
      reads this
      ensures KeyOf(dimensao, nome) !in metricas || janela !in metricas[KeyOf(dimensao, nome)] ==> r == []
      ensures forall x :: x in r ==> now - x.timestamp <= janela as real
      ensures forall x :: x in r ==> x in metricas[KeyOf(dimensao, nome)][janela]
    {
      var chave := KeyOf(dimensao, nome);
      if chave !in metricas || janela !in metricas[chave] then []
      else Recent(metricas[chave][janela], now, janela)
    }

    /** `calcular_estatisticas` on the window's values. */
    function CalcularEstatisticas(dimensao: string, nome: string, janela: int, now: real, stdDev: seq<real> -> real): Option<Stats.Summary>
      reads this
    {
      Stats.Summarize(Valores(ObterMetricasJanela(dimensao, nome, janela, now)), stdDev)
    }
  }

  function Valores(ms: seq<Metric>): (vs: seq<real>)
    ensures |vs| == |ms|
    ensures forall i :: 0 <= i < |ms| ==> vs[i] == ms[i].valor
  {
    seq(|ms|, i requires 0 <= i < |ms| => ms[i].valor)
  }

  function Timestamp(m: Metric): real
  {
    m.timestamp
  }

  /** The trend `detectar_tendencia` reports. */
  datatype Trend = Trend(direcao: string, inclinacao: real, confianca: real, amostras: nat)

  /** numpy's `var`: the mean squared deviation from the mean. */
  function Variance(xs: seq<real>): (v: real)
    requires |xs| > 0
    ensures v >= 0.0
  {
    var m := Mean(xs);
    var sq := seq(|xs|, i requires 0 <= i < |xs| => Square(xs[i] - m));
    NonNegativeMean(sq);
    Mean(sq)
  }

  /** The mean squared error of the fitted line against the samples. */
  function Mse(ts: seq<real>, vs: seq<real>, inclinacao: real, intercepto: real): (e: real)
    requires |ts| == |vs| > 0
    ensures e >= 0.0
  {
    var sq := seq(|vs|, i requires 0 <= i < |vs| => Square(vs[i] - (inclinacao * ts[i] + intercepto)));
    NonNegativeMean(sq);
    Mean(sq)
  }

  function Square(x: real): (r: real)
    ensures r >= 0.0
  {
    x * x
  }

  lemma NonNegativeMean(s: seq<real>)
    requires |s| > 0 && forall i :: 0 <= i < |s| ==> s[i] >= 0.0
    ensures Mean(s) >= 0.0
  {
    MeanBounds(s);
  }

  /** The coefficient of determination, 0 when the values do not vary. */
  function RSquared(mse: real, variancia: real): real
  {
    if variancia > 0.0 then 1.0 - mse / variancia else 0.0
  }

  /**
   * `detectar_tendencia` on the window's metrics: fewer than 3 samples is
   * stable; otherwise the metrics are sorted by timestamp, the times shifted
   * to start at 0, a line fitted (`fit` is numpy's `polyfit` of degree 1,
   * returning slope and intercept) and the direction read from the slope and
   * its coefficient of determination.
   */
  function DetectarTendencia(ms: seq<Metric>, fit: (seq<real>, seq<real>) -> (real, real)): Trend
  {
    if |ms| < 3 then Trend("estavel", 0.0, 0.0, |ms|)
    else
      SortByAscending(ms, Timestamp);
      var sorted := SortBy(ms, Timestamp);
      var vs := Valores(sorted);
      var ts := Offsets(sorted);
      var (inclinacao, intercepto) := fit(ts, vs);
      var r2 := RSquared(Mse(ts, vs, inclinacao, intercepto), Variance(vs));
      Trend(Direction(inclinacao, r2), inclinacao, r2, |ms|)
  }

  /** The sample times, shifted so that the first one is 0. */
  function Offsets(sorted: seq<Metric>): (ts: seq<real>)
    requires |sorted| > 0
    ensures |ts| == |sorted|
  {
    seq(|sorted|, i requires 0 <= i < |sorted| => sorted[i].timestamp - sorted[0].timestamp)
  }

  /** The direction read from the fitted slope and its coefficient of determination. */
  function Direction(inclinacao: real, r2: real): string
  {
    if (if inclinacao < 0.0 then -inclinacao else inclinacao) < 0.001 || r2 < 0.3 then "estavel"
    else if inclinacao > 0.0 then "crescente"
    else "decrescente"
  }

  /** Stable exactly when the slope is negligible or the fit poor; otherwise the slope's sign decides. */
  lemma DirectionCases(inclinacao: real, r2: real)
    ensures Direction(inclinacao, r2) == "estavel" <==> (-0.001 < inclinacao < 0.001 || r2 < 0.3)
    ensures Direction(inclinacao, r2) == "crescente" <==> Direction(inclinacao, r2) != "estavel" && inclinacao > 0.0
    ensures Direction(inclinacao, r2) == "decrescente" <==> Direction(inclinacao, r2) != "estavel" && inclinacao < 0.0
  {
  }

  /**
   * The trend classification: too few samples is stable with no slope or
   * confidence; otherwise stable exactly when the slope is negligible or the
   * fit poor, growing or shrinking by the slope's sign; the confidence never
   * exceeds 1 and is 0 for constant values.
   */
  lemma TrendProperties(ms: seq<Metric>, fit: (seq<real>, seq<real>) -> (real, real))
    ensures DetectarTendencia(ms, fit).amostras == |ms|
    ensures |ms| < 3 ==> DetectarTendencia(ms, fit) == Trend("estavel", 0.0, 0.0, |ms|)
    ensures DetectarTendencia(ms, fit).confianca <= 1.0
    ensures |ms| >= 3 ==>
      var t := DetectarTendencia(ms, fit);
      && (t.direcao == "estavel" <==> (-0.001 < t.inclinacao < 0.001 || t.confianca < 0.3))
      && (t.direcao == "crescente" <==> t.direcao != "estavel" && t.inclinacao > 0.0)
      && (t.direcao == "decrescente" <==> t.direcao != "estavel" && t.inclinacao < 0.0)
      && (Variance(Valores(SortBy(ms, Timestamp))) == 0.0 ==> t.confianca == 0.0)
  {
    if |ms| >= 3 {
      SortByAscending(ms, Timestamp);
      var sorted := SortBy(ms, Timestamp);
      var vs := Valores(sorted);
      var ts := Offsets(sorted);
      var (inclinacao, intercepto) := fit(ts, vs);
      var mse := Mse(ts, vs, inclinacao, intercepto);
      var r2 := RSquared(mse, Variance(vs));
      assert DetectarTendencia(ms, fit) == Trend(Direction(inclinacao, r2), inclinacao, r2, |ms|);
      RSquaredAtMostOne(mse, Variance(vs));
      DirectionCases(inclinacao, r2);
    }
  }

  lemma RSquaredAtMostOne(mse: real, variancia: real)
    requires mse >= 0.0 && variancia >= 0.0
    ensures RSquared(mse, variancia) <= 1.0
  {
    if variancia > 0.0 {
      assert mse / variancia >= 0.0;
    }
  }
}
