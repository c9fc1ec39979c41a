/**
 * `AnalisadorGradientes` of src/diagnostico/diagnostico.py: bounded time
 * series per name, linear-regression gradients over the newest window, three
 * windows and the whole series, gradients of overlapping sliding windows
 * with a bounded history of the newest one, and detection of a change of
 * trend between the last two recorded gradients. The least-squares fit
 * (`scipy.stats.linregress`) is given as the function `linregress`.
 */
module Gradients {
  import opened Wrappers
  import opened Seqs
  import opened Sorting

  /** (timestamp, valor). */
  type Point = (real, real)

  /** What `linregress` returns: slope, intercept, r, p-value, standard error. */
  datatype Regression = Regression(slope: real, intercept: real, rValue: real, pValue: real, stdErr: real)

  type LinRegress = (seq<real>, seq<real>) -> Regression

  datatype Gradient = Gradient(inclinacao: real, r2: real, erroPadrao: real, pValor: real)

  /** The gradients of one `calcular_gradientes` call; `medio` and `aceleracao` may be missing. */
  datatype Gradients = Gradients(curto: Gradient, medio: Option<Gradient>, longo: Gradient, aceleracao: Option<real>)

  const HistoryCap: nat := 100

  /** The timestamps relative to the first one. */
  function Shifted(ps: seq<Point>): (xs: seq<real>)
    requires |ps| > 0
    ensures |xs| == |ps|
  {
    seq(|ps|, i requires 0 <= i < |ps| => ps[i].0 - ps[0].0)
  }

  function Readings(ps: seq<Point>): (ys: seq<real>)
    ensures |ys| == |ps|
  {
    seq(|ps|, i requires 0 <= i < |ps| => ps[i].1)
  }

  /** `_calcular_gradiente`: a flat, insignificant gradient for fewer than two points, else the fit. */
  function CalcularGradiente(ps: seq<Point>, linregress: LinRegress): (g: Gradient)
    ensures |ps| < 2 ==> g == Gradient(0.0, 0.0, 0.0, 1.0)
    ensures g.r2 >= 0.0
  {
    if |ps| < 2 then Gradient(0.0, 0.0, 0.0, 1.0)
    else
      var reg := linregress(Shifted(ps), Readings(ps));
      Gradient(reg.slope, reg.rValue * reg.rValue, reg.stdErr, reg.pValue)
  }

  function Delay(ps: seq<Point>, c: real): (qs: seq<Point>)
    ensures |qs| == |ps|
  {
    seq(|ps|, i requires 0 <= i < |ps| => (ps[i].0 + c, ps[i].1))
  }

  /** The gradient depends on the timestamps only through their differences: a shifted clock changes nothing. */
  lemma GradientShiftInvariant(ps: seq<Point>, c: real, linregress: LinRegress)
    ensures CalcularGradiente(Delay(ps, c), linregress) == CalcularGradiente(ps, linregress)
  {
    if |ps| >= 2 {
      assert Shifted(Delay(ps, c)) == Shifted(ps);
      assert Readings(Delay(ps, c)) == Readings(ps);
    }
  }

  /**
   * `ws` are the sliding windows of `range(0, n - janela + 1, step)`: they
   * start at 0, every `step` points, each holds exactly `janela` points, and
   * no further window would fit.
   */
  ghost predicate Sliding(pontos: seq<Point>, janela: nat, step: nat, ws: seq<seq<Point>>)
  {
    && (forall k :: 0 <= k < |ws| ==>
          k * step + janela <= |pontos| && ws[k] == pontos[k * step..k * step + janela])
    && |ws| * step + janela > |pontos|
  }

  /** The windows of `range(i, n - janela + 1, step)`, in order. */
  function WindowsFrom(pontos: seq<Point>, janela: nat, step: nat, i: nat): seq<seq<Point>>
    requires step > 0
    decreases |pontos| - i
  {
    if i + janela > |pontos| then [] else [pontos[i..i + janela]] + WindowsFrom(pontos, janela, step, i + step)
  }

  lemma {:induction false} WindowsFromShape(pontos: seq<Point>, janela: nat, step: nat, i: nat)
    requires step > 0
    ensures var ws := WindowsFrom(pontos, janela, step, i);
      && (forall k :: 0 <= k < |ws| ==>
            i + k * step + janela <= |pontos| && ws[k] == pontos[i + k * step..i + k * step + janela])
      && i + |ws| * step + janela > |pontos|
    decreases |pontos| - i
  {
    if i + janela <= |pontos| {
      WindowsFromShape(pontos, janela, step, i + step);
      var rest := WindowsFrom(pontos, janela, step, i + step);
      var ws := WindowsFrom(pontos, janela, step, i);
      assert ws == [pontos[i..i + janela]] + rest;
      NextStart(|rest|, step);
      forall k | 0 <= k < |ws|
        ensures i + k * step + janela <= |pontos| && ws[k] == pontos[i + k * step..i + k * step + janela]
      {
        if k > 0 {
          NextStart(k - 1, step);
          assert ws[k] == rest[k - 1];
        }
      }
    }
  }

  /** The windows of `calcular_gradientes` satisfy `Sliding`: from 0, every `step` points, `janela` points each, as many as fit. */
  lemma WindowsSliding(pontos: seq<Point>, janela: nat, step: nat)
    requires step > 0
    ensures Sliding(pontos, janela, step, WindowsFrom(pontos, janela, step, 0))
  {
    WindowsFromShape(pontos, janela, step, 0);
  }

  /** The sliding windows of `calcular_gradientes`; `range` raises for a zero step. */
  /** What `range` raises for a zero step. */
  const RangeZeroStep := "ValueError: range() arg 3 must not be zero"

  method JanelasDeslizantes(pontos: seq<Point>, janela: nat, step: nat) returns (r: Result<seq<seq<Point>>>)
    ensures step == 0 <==> r.Err?
    ensures r.Err? ==> r.error == RangeZeroStep
    ensures r.Ok? ==> r.value == WindowsFrom(pontos, janela, step, 0)
  {
    if step == 0 {
      return Err(RangeZeroStep);
    }
    var ws: seq<seq<Point>> := [];
    var i := 0;
    while i + janela <= |pontos|
      invariant ws + WindowsFrom(pontos, janela, step, i) == WindowsFrom(pontos, janela, step, 0)
      decreases |pontos| - i
    {
      ws := ws + [pontos[i..i + janela]];
      i := i + step;
    }
    return Ok(ws);
  }

  lemma NextStart(k: nat, step: nat)
    ensures (k + 1) * step == k * step + step
  {
  }

  /** With a positive window, at least one window exists once the series has a full window; with a zero window, every window is empty. */
  lemma SlidingShape(pontos: seq<Point>, janela: nat, step: nat, ws: seq<seq<Point>>)
    requires Sliding(pontos, janela, step, ws)
    ensures janela <= |pontos| ==> |ws| > 0
    ensures forall k :: 0 <= k < |ws| ==> |ws[k]| == janela
    ensures |ws| > 0 ==> janela <= |pontos| && ws[0] == pontos[..janela]
  {
    if |ws| > 0 {
      assert 0 * step + janela <= |pontos|;
    }
  }

  /** One element of `gradientes_deslizantes`: the mean timestamp of a window and its gradient. */
  function SlideGradient(w: seq<Point>, linregress: LinRegress): (r: Result<(real, Gradient)>)
    ensures r.Err? <==> |w| == 0
    ensures r.Ok? ==> r.value.1 == CalcularGradiente(w, linregress)
  {
    if |w| == 0 then Err("ZeroDivisionError: division by zero")
    else
      var ts := seq(|w|, i requires 0 <= i < |w| => w[i].0);
      Ok((Mean(ts), CalcularGradiente(w, linregress)))
  }

  /** The mean timestamp of a window lies between its first and last timestamps when they are in order. */
  lemma SlideTimestampInside(w: seq<Point>, linregress: LinRegress)
    requires |w| > 0
    requires forall i, j :: 0 <= i < j < |w| ==> w[i].0 <= w[j].0
    ensures w[0].0 <= SlideGradient(w, linregress).value.0 <= w[|w| - 1].0
  {
    var ts := seq(|w|, i requires 0 <= i < |w| => w[i].0);
    SumBounds(ts, w[0].0, w[|w| - 1].0);
    MeanBetween(ts, w[0].0, w[|w| - 1].0);
  }

  /** Every window's mean timestamp and gradient, in order; the first empty window raises. */
  function SlideAll(ws: seq<seq<Point>>, linregress: LinRegress): Result<seq<(real, Gradient)>>
  {
    if |ws| == 0 then Ok([])
    else
      var init :- SlideAll(ws[..|ws| - 1], linregress);
      var g :- SlideGradient(ws[|ws| - 1], linregress);
      Ok(init + [g])
  }

  /** The gradients fail exactly when some window is empty; otherwise there is one per window. */
  lemma {:induction false} SlideAllSpec(ws: seq<seq<Point>>, linregress: LinRegress)
    ensures SlideAll(ws, linregress).Err? <==> exists k :: 0 <= k < |ws| && |ws[k]| == 0
    ensures SlideAll(ws, linregress).Ok? ==>
      var gs := SlideAll(ws, linregress).value;
      |gs| == |ws| && forall k :: 0 <= k < |ws| ==> SlideGradient(ws[k], linregress) == Ok(gs[k])
  {
    if |ws| > 0 {
      var init := ws[..|ws| - 1];
      SlideAllSpec(init, linregress);
      if (exists k :: 0 <= k < |init| && |init[k]| == 0) {
        var k :| 0 <= k < |init| && |init[k]| == 0;
        assert ws[k] == init[k];
      }
    }
  }

  /** `gradientes_deslizantes`. */
  method GradientesDeslizantes(ws: seq<seq<Point>>, linregress: LinRegress) returns (r: Result<seq<(real, Gradient)>>)
    ensures r == SlideAll(ws, linregress)
  {
    var gs: seq<(real, Gradient)> := [];
    var k := 0;
    while k < |ws|
      invariant 0 <= k <= |ws|
      invariant SlideAll(ws[..k], linregress) == Ok(gs)
    {
      assert ws[..k + 1][..k] == ws[..k];
      var g := SlideGradient(ws[k], linregress);
      if g.Err? {
        SlideAllErr(ws, k + 1, linregress);
        return Err(g.error);
      }
      gs := gs + [g.value];
      k := k + 1;
    }
    assert ws[..|ws|] == ws;
    return Ok(gs);
  }

  /** Once a prefix fails, the whole list fails with the same error. */
  lemma {:induction false} SlideAllErr(ws: seq<seq<Point>>, k: nat, linregress: LinRegress)
    requires k <= |ws| && SlideAll(ws[..k], linregress).Err?
    ensures SlideAll(ws, linregress) == SlideAll(ws[..k], linregress)
    decreases |ws| - k
  {
    if k < |ws| {
      assert ws[..k + 1][..k] == ws[..k];
      SlideAllErr(ws, k + 1, linregress);
    } else {
      assert ws[..k] == ws;
    }
  }

  /** Over a series holding a full window, the gradients fail exactly for a zero window, whose windows are empty. */
  lemma WindowsEmpty(pontos: seq<Point>, janela: nat, step: nat, linregress: LinRegress)
    requires step > 0 && janela <= |pontos|
    ensures SlideAll(WindowsFrom(pontos, janela, step, 0), linregress).Err? <==> janela == 0
  {
    var ws := WindowsFrom(pontos, janela, step, 0);
    WindowsSliding(pontos, janela, step);
    SlidingShape(pontos, janela, step, ws);
    SlideAllSpec(ws, linregress);
  }

  /** The history after a call: the newest window's gradient appended, the newest 100 kept. */
  function NextHistory(h: seq<(real, Gradient)>, gs: seq<(real, Gradient)>): seq<(real, Gradient)>
  {
    Capped(if |gs| > 0 then h + [gs[|gs| - 1]] else h, HistoryCap)
  }

  /** The change of slope per second between the last two recorded gradients, if time advanced. */
  function Acceleration(h: seq<(real, Gradient)>): Option<real>
  {
    if |h| < 2 then None
    else
      var dt := h[|h| - 1].0 - h[|h| - 2].0;
      if dt > 0.0 then Some((h[|h| - 1].1.inclinacao - h[|h| - 2].1.inclinacao) / dt) else None
  }

  function Time(p: Point): real
  {
    p.0
  }

  /** The three gradients of `calcular_gradientes` over the points sorted by time. */
  function Scales(pontos: seq<Point>, janela: nat, linregress: LinRegress): (g: Gradients)
  {
    Gradients(
      CalcularGradiente(PyLast(pontos, janela), linregress),
      if |pontos| >= 3 * janela then Some(CalcularGradiente(PyLast(pontos, 3 * janela), linregress)) else None,
      CalcularGradiente(pontos, linregress),
      None)
  }

  /** The history of a name never exceeds 100 snapshots, and keeps the newest ones. */
  lemma NextHistoryBound(h: seq<(real, Gradient)>, gs: seq<(real, Gradient)>)
    requires |h| <= HistoryCap
    ensures |NextHistory(h, gs)| <= HistoryCap
    ensures |gs| > 0 ==> |NextHistory(h, gs)| > 0 && NextHistory(h, gs)[|NextHistory(h, gs)| - 1] == gs[|gs| - 1]
    ensures |gs| == 0 ==> NextHistory(h, gs) == h
  {
    CappedBound(if |gs| > 0 then h + [gs[|gs| - 1]] else h, HistoryCap);
  }

  /** `detectar_mudanca_tendencia` on the last two gradients: (mudanca, direcao, confianca). */
  function TrendChange(ultimo: Gradient, penultimo: Gradient, limiar: real): (bool, string, real)
  {
    if ultimo.r2 < limiar || penultimo.r2 < limiar then
      (false, "estavel", if ultimo.r2 >= penultimo.r2 then ultimo.r2 else penultimo.r2)
    else if (ultimo.inclinacao > 0.0 && penultimo.inclinacao < 0.0) || (ultimo.inclinacao < 0.0 && penultimo.inclinacao > 0.0) then
      (true, if ultimo.inclinacao > 0.0 then "crescente" else "decrescente", ultimo.r2)
    else
      var delta := Abs(ultimo.inclinacao - penultimo.inclinacao);
      var media := (Abs(ultimo.inclinacao) + Abs(penultimo.inclinacao)) / 2.0;
      if media > 0.0 && delta / media > 0.5 then
        (true, if Abs(ultimo.inclinacao) > Abs(penultimo.inclinacao) then "acelerando" else "desacelerando", ultimo.r2)
      else (false, "estavel", ultimo.r2)
  }

  function Abs(x: real): real
  {
    if x < 0.0 then -x else x
  }

  /**
   * A change is reported only between two significant fits, with the last
   * fit's r2 as confidence; a reversal is named by the new sign, and a
   * change without reversal is a speed-up or slow-down of the slope's size.
   */
  lemma TrendChangeProperties(u: Gradient, p: Gradient, limiar: real)
    ensures var (mudanca, direcao, confianca) := TrendChange(u, p, limiar);
      && (mudanca <==> direcao != "estavel")
      && (mudanca ==> u.r2 >= limiar && p.r2 >= limiar && confianca == u.r2)
      && (u.r2 < limiar || p.r2 < limiar ==> !mudanca && confianca >= u.r2 && confianca >= p.r2)
      && (direcao == "crescente" ==> u.inclinacao > 0.0 && p.inclinacao < 0.0)
      && (direcao == "decrescente" ==> u.inclinacao < 0.0 && p.inclinacao > 0.0)
      && (direcao == "acelerando" ==> Abs(u.inclinacao) > Abs(p.inclinacao))
      && (direcao == "desacelerando" ==> Abs(u.inclinacao) <= Abs(p.inclinacao))
  {
  }

  function Mirror(g: Gradient): Gradient
  {
    g.(inclinacao := -g.inclinacao)
  }

  /** Mirroring both slopes swaps growth and decline and leaves every other verdict as it was. */
  lemma TrendChangeMirror(u: Gradient, p: Gradient, limiar: real)
    ensures var (m, d, c) := TrendChange(u, p, limiar);
      var (m', d', c') := TrendChange(Mirror(u), Mirror(p), limiar);
      && m' == m && c' == c
      && d' == (if d == "crescente" then "decrescente" else if d == "decrescente" then "crescente" else d)
  {
    assert Abs(-u.inclinacao) == Abs(u.inclinacao) && Abs(-p.inclinacao) == Abs(p.inclinacao);
    assert Abs(-u.inclinacao - -p.inclinacao) == Abs(u.inclinacao - p.inclinacao);
  }

  /** With a positive window, no series holds more than ten windows. */
  ghost predicate SeriesBounded(series: map<string, seq<Point>>, janela: nat)
  {
    janela > 0 ==> forall nome :: nome in series ==> |series[nome]| <= 10 * janela
  }

  ghost predicate HistoryBounded(historicos: map<string, seq<(real, Gradient)>>)
  {
    forall nome :: nome in historicos ==> |historicos[nome]| <= HistoryCap
  }

  lemma SeriesAppend(series: map<string, seq<Point>>, janela: nat, nome: string, s: seq<Point>)
    requires SeriesBounded(series, janela)
    ensures SeriesBounded(series[nome := Capped(s, 10 * janela)], janela)
  {
    CappedBound(s, 10 * janela);
  }

  lemma HistoryAppend(historicos: map<string, seq<(real, Gradient)>>, nome: string, h: seq<(real, Gradient)>, gs: seq<(real, Gradient)>)
    requires HistoryBounded(historicos) && |h| <= HistoryCap
    ensures HistoryBounded(historicos[nome := NextHistory(h, gs)])
  {
    NextHistoryBound(h, gs);
  }

  /**
   * One `calcular_gradientes` call on the analyser's state, as a value: the
   * answer and the histories afterwards.
   */
  function GradientStep(series: map<string, seq<Point>>, historicos: map<string, seq<(real, Gradient)>>,
                        janela: nat, sobreposicao: nat, nome: string, linregress: LinRegress)
    : (Result<Option<Gradients>>, map<string, seq<(real, Gradient)>>)
  {
    if nome !in series || |series[nome]| < janela then (Ok(None), historicos)
    else if sobreposicao == 0 then (Err(RangeZeroStep), historicos)
    else
      var pontos := SortBy(series[nome], Time);
      var gs := SlideAll(WindowsFrom(pontos, janela, sobreposicao, 0), linregress);
      if gs.Err? then (Err(gs.error), historicos)
      else
        var h := if nome in historicos then historicos[nome] else [];
        var nh := NextHistory(h, gs.value);
        (Ok(Some(Scales(pontos, janela, linregress).(aceleracao := Acceleration(nh)))), historicos[nome := nh])
  }

  class GradientAnalyzer {
    const janelaAnalise: nat
    const sobreposicao: nat
    var series: map<string, seq<Point>>
    var historicos: map<string, seq<(real, Gradient)>>

    ghost predicate Valid()
      reads this
    {
      SeriesBounded(series, janelaAnalise) && HistoryBounded(historicos)
    }

    constructor (janelaAnalise: nat, sobreposicao: nat)
      ensures Valid()
      ensures this.janelaAnalise == janelaAnalise && this.sobreposicao == sobreposicao
      ensures series == map[] && historicos == map[]
    {
      this.janelaAnalise := janelaAnalise;
      this.sobreposicao := sobreposicao;
      series := map[];
      historicos := map[];
    }

    /** `adicionar_ponto`: append, then keep the newest `10*janela_analise` points (all of them for a zero window). */
    method AdicionarPonto(nome: string, valor: real, timestamp: real)
      requires Valid()
      modifies this
      ensures Valid()
      ensures series == AppendCapped(old(series), nome, (timestamp, valor), 10 * janelaAnalise)
      ensures historicos == old(historicos)
    {
      var s := if nome in series then series[nome] else [];
      SeriesAppend(series, janelaAnalise, nome, s + [(timestamp, valor)]);
      series := series[nome := Capped(s + [(timestamp, valor)], 10 * janelaAnalise)];
    }

    /**
     * `calcular_gradientes`: nothing before a full window; otherwise the
     * gradients at three scales, the newest sliding window's gradient
     * recorded in the history, and the acceleration between the last two
     * recorded gradients. A zero overlap or a zero window raises before the
     * history changes.
     */
    method CalcularGradientes(nome: string, linregress: LinRegress) returns (r: Result<Option<Gradients>>)
      requires Valid()
      modifies this
      ensures Valid() && series == old(series)
      ensures (nome !in series || |series[nome]| < janelaAnalise) ==> r == Ok(None) && historicos == old(historicos)
      ensures r.Err? ==> historicos == old(historicos)
      ensures r.Err? <==> nome in series && |series[nome]| >= janelaAnalise && (sobreposicao == 0 || janelaAnalise == 0)
      ensures r.Ok? && r.value.Some? ==>
        var pontos := SortBy(series[nome], Time);
        var h := if nome in old(historicos) then old(historicos)[nome] else [];
        && sobreposicao > 0
        && SlideAll(WindowsFrom(pontos, janelaAnalise, sobreposicao, 0), linregress).Ok?
        && var gs := SlideAll(WindowsFrom(pontos, janelaAnalise, sobreposicao, 0), linregress).value;
        && historicos == old(historicos)[nome := NextHistory(h, gs)]
        && r.value.value == Scales(pontos, janelaAnalise, linregress).(aceleracao := Acceleration(NextHistory(h, gs)))
      ensures (r, historicos) == GradientStep(old(series), old(historicos), janelaAnalise, sobreposicao, nome, linregress)
    {
      if nome !in series || |series[nome]| < janelaAnalise {
        return Ok(None);
      }
      var pontos := SortBy(series[nome], Time);
      SortByAscending(series[nome], Time);
      var ws := JanelasDeslizantes(pontos, janelaAnalise, sobreposicao);
      if ws.Err? {
        return Err(ws.error);
      }
      WindowsEmpty(pontos, janelaAnalise, sobreposicao, linregress);
      var gs := GradientesDeslizantes(ws.value, linregress);
      if gs.Err? {
        return Err(gs.error);
      }
      var h := if nome in historicos then historicos[nome] else [];
      HistoryAppend(historicos, nome, h, gs.value);
      var nh := NextHistory(h, gs.value);
      historicos := historicos[nome := nh];
      r := Ok(Some(Scales(pontos, janelaAnalise, linregress).(aceleracao := Acceleration(nh))));
    }

    /** `detectar_mudanca_tendencia`: no verdict before two gradients are recorded. */
    function DetectarMudancaTendencia(nome: string, limiar: real): (r: (bool, string, real))
      reads this
      ensures (nome !in historicos || |historicos[nome]| < 2) ==> r == (false, "estavel", 0.0)
    {
      if nome !in historicos || |historicos[nome]| < 2 then (false, "estavel", 0.0)
      else
        var h := historicos[nome];
        TrendChange(h[|h| - 1].1, h[|h| - 2].1, limiar)
    }
  }
}
