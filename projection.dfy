/**
 * `ProjetorTemporal` of src/observabilidade/observabilidade.py: a sorted,
 * bounded history per metric series, projections of a series into the
 * future, and the effect of an action or a whole plan on a projection.
 * The model fits (linear regression, polynomial fit and evaluation) are
 * parameters.
 */
module Projection {
  import opened Wrappers
  import opened Dicts
  import opened Seqs
  import opened Sorting
  import opened Metric
  import opened Actions

  /** A point of a series: (timestamp, value). */
  type Ponto = (real, real)

  function Instante(p: Ponto): real
  {
    p.0
  }

  /** `max_pontos`: the points kept per series. */
  const MaxPontos: nat := 1000

  /** The series key `f"{dimensao}:{nome}"`. */
  function Chave(dimensao: string, nome: string): string
  {
    dimensao + ":" + nome
  }

  /** The history of a series after `adicionar_metrica` appends one point, re-sorts by timestamp and keeps the newest 1000. */
  function WithPoint(serie: seq<Ponto>, p: Ponto): seq<Ponto>
  {
    Capped(SortBy(serie + [p], Instante), MaxPontos)
  }

  /**
   * After a point is added the series is ordered by timestamp, holds at most
   * 1000 points, and consists of the latest points of the sorted series, so
   * only points no later than every kept one are dropped.
   */
  lemma WithPointOrdered(serie: seq<Ponto>, p: Ponto)
    ensures var r := WithPoint(serie, p);
      var s := SortBy(serie + [p], Instante);
      && Ascending(r, Instante)
      && |r| == (if |serie| < MaxPontos then |serie| + 1 else MaxPontos)
      && r == s[|s| - |r|..]
      && (forall i, j :: 0 <= i < |s| - |r| <= j < |s| ==> Instante(s[i]) <= Instante(s[j]))
  {
    var s := SortBy(serie + [p], Instante);
    SortByAscending(serie + [p], Instante);
    CappedBound(s, MaxPontos);
  }

  /** Nothing but the new point joins the series. */
  lemma WithPointContents(serie: seq<Ponto>, p: Ponto)
    ensures multiset(WithPoint(serie, p)) <= multiset(serie) + multiset{p}
  {
    var s := SortBy(serie + [p], Instante);
    SortByAscending(serie + [p], Instante);
    SortByPermutes(serie + [p], Instante);
    CappedBound(s, MaxPontos);
    var r := WithPoint(serie, p);
    assert multiset(r) <= multiset(s) by {
      assert s == s[..|s| - |r|] + r;
    }
    assert multiset(serie + [p]) == multiset(serie) + multiset{p};
  }

  /** An ordered series gets the new point after every point with a timestamp not later than its own. */
  lemma WithPointInserts(serie: seq<Ponto>, p: Ponto)
    requires Ascending(serie, Instante)
    ensures SortBy(serie + [p], Instante) == Insert(serie, p, Instante)
  {
    SortBySorted(serie, Instante);
    assert (serie + [p])[..|serie + [p]| - 1] == serie;
  }

  /** A series stays ordered and bounded when a point is added. */
  lemma WithPointKept(serie: seq<Ponto>, p: Ponto)
    ensures Ascending(WithPoint(serie, p), Instante) && |WithPoint(serie, p)| <= MaxPontos
  {
    WithPointOrdered(serie, p);
  }

  /** Every series of a history is ordered by timestamp and holds at most 1000 points. */
  ghost predicate OrderedHistories(h: map<string, seq<Ponto>>)
  {
    forall k :: k in h ==> Ascending(h[k], Instante) && |h[k]| <= MaxPontos
  }

  /** `historico_metricas` after `adicionar_metrica(m)`: the point of `m` joins the series of its key. */
  function WithMetric(h: map<string, seq<Ponto>>, m: Metric): map<string, seq<Ponto>>
  {
    var chave := Chave(m.dimensao, m.nome);
    h[chave := WithPoint(if chave in h then h[chave] else [], (m.timestamp, m.valor))]
  }

  /**
   * Adding a metric keeps every series ordered and bounded, gives the
   * metric's key a series, and leaves every other series as it was.
   */
  lemma WithMetricProperties(h: map<string, seq<Ponto>>, m: Metric)
    ensures OrderedHistories(h) ==> OrderedHistories(WithMetric(h, m))
    ensures var chave := Chave(m.dimensao, m.nome);
      && WithMetric(h, m).Keys == h.Keys + {chave}
      && (forall k :: k in h && k != chave ==> WithMetric(h, m)[k] == h[k])
  {
    var chave := Chave(m.dimensao, m.nome);
    var r := WithMetric(h, m);
    WithPointKept(if chave in h then h[chave] else [], (m.timestamp, m.valor));
    if OrderedHistories(h) {
      forall k | k in r ensures Ascending(r[k], Instante) && |r[k]| <= MaxPontos {
        if k != chave {
          assert r[k] == h[k];
        }
      }
    }
  }

  /** The histories after adding several metrics in order. */
  function WithMetrics(h: map<string, seq<Ponto>>, ms: seq<Metric>): map<string, seq<Ponto>>
  {
    if |ms| == 0 then h else WithMetric(WithMetrics(h, ms[..|ms| - 1]), ms[|ms| - 1])
  }

  /** However many metrics are added, every series stays ordered and bounded, and no series is lost. */
  lemma {:induction false} WithMetricsProperties(h: map<string, seq<Ponto>>, ms: seq<Metric>)
    ensures OrderedHistories(h) ==> OrderedHistories(WithMetrics(h, ms))
    ensures h.Keys <= WithMetrics(h, ms).Keys
  {
    if |ms| > 0 {
      WithMetricsProperties(h, ms[..|ms| - 1]);
      WithMetricProperties(WithMetrics(h, ms[..|ms| - 1]), ms[|ms| - 1]);
    }
  }

  /** The model fits, from the numerical libraries. */
  datatype Ajustes = Ajustes(
    /** `_ajustar_modelo_linear` (`stats.linregress`): slope, intercept and r². */
    linear: seq<Ponto> -> (real, real, real),
    /** `_ajustar_modelo_polinomial` of degree 2: the coefficients followed by the normalisation (x_min, x_range), and r². */
    polinomial: seq<Ponto> -> (seq<real>, real),
    /** `_prever_modelo_polinomial` at one instant. */
    avaliar: (seq<real>, real) -> real)

  datatype Modelo =
    | Linear(slope: real, intercept: real)
    | Polinomial(coeficientes: seq<real>, grau: int)

  /** `impacto_acao`. */
  datatype ImpactoAcao = ImpactoAcao(id: string, tipo: TipoAcao, valor: real, valoresComImpacto: seq<real>)

  /** `impacto_plano`. */
  datatype ImpactoPlano = ImpactoPlano(id: string, valorCombinado: real, numAcoes: nat, valoresComImpacto: seq<real>)

  /** The result dictionary of `projetar_metrica`, with the entries the impact projections add. */
  datatype Projecao =
    | Falha(erro: string)
    | Sucesso(
        dimensao: string,
        nome: string,
        horizonte: real,
        ultimoTimestamp: real,
        ultimoValor: real,
        timestamps: seq<real>,
        valores: seq<real>,
        r2: real,
        modelo: Modelo,
        numPontosHistorico: nat,
        impactoAcao: Option<ImpactoAcao>,
        impactoPlano: Option<ImpactoPlano>)

  const HistoricoInsuficiente: string := "Histórico insuficiente para projeção"

  /** `timestamps_projecao`: `num_pontos` instants after the last one, the i-th at `ultimo + (i + 1) * horizonte / num_pontos`. */
  function ProjectionTimes(ultimo: real, horizonte: real, numPontos: int): seq<real>
  {
    if numPontos <= 0 then []
    else seq(numPontos, i requires 0 <= i < numPontos => ultimo + (i as real + 1.0) * horizonte / numPontos as real)
  }

  /** The i-th instant is `i + 1` steps of `horizonte / num_pontos` after the last one. */
  lemma TimeAt(ultimo: real, horizonte: real, numPontos: int, i: int)
    requires 0 <= i < numPontos
    ensures ProjectionTimes(ultimo, horizonte, numPontos)[i] == ultimo + (i as real + 1.0) * (horizonte / numPontos as real)
  {
    var k, n := i as real + 1.0, numPontos as real;
    assert k * horizonte / n == k * (horizonte / n);
  }

  lemma NextStep(k: real, step: real)
    ensures (k + 1.0) * step - k * step == step
  {
  }

  lemma LastStep(horizonte: real, n: real)
    requires n > 0.0
    ensures n * (horizonte / n) == horizonte
  {
  }

  lemma PositiveStep(k: real, step: real)
    requires k >= 1.0 && step > 0.0
    ensures k * step > 0.0
  {
  }

  lemma IncreasingStep(a: real, b: real, step: real)
    requires a < b && step > 0.0
    ensures a * step < b * step
  {
    PositiveStep(b - a + 1.0, step);
    assert b * step - a * step == (b - a) * step;
  }

  lemma EndsAt(ultimo: real, horizonte: real, numPontos: int)
    requires numPontos > 0
    ensures ProjectionTimes(ultimo, horizonte, numPontos)[0] == ultimo + horizonte / numPontos as real
    ensures ProjectionTimes(ultimo, horizonte, numPontos)[numPontos - 1] == ultimo + horizonte
  {
    TimeAt(ultimo, horizonte, numPontos, 0);
    TimeAt(ultimo, horizonte, numPontos, numPontos - 1);
    LastStep(horizonte, numPontos as real);
  }

  lemma SpacedAt(ultimo: real, horizonte: real, numPontos: int, i: int)
    requires 0 < i < numPontos
    ensures ProjectionTimes(ultimo, horizonte, numPontos)[i] - ProjectionTimes(ultimo, horizonte, numPontos)[i - 1]
      == horizonte / numPontos as real
  {
    TimeAt(ultimo, horizonte, numPontos, i);
    TimeAt(ultimo, horizonte, numPontos, i - 1);
    NextStep(i as real, horizonte / numPontos as real);
  }

  lemma AfterLast(ultimo: real, horizonte: real, numPontos: int, i: int)
    requires horizonte > 0.0 && 0 <= i < numPontos
    ensures ultimo < ProjectionTimes(ultimo, horizonte, numPontos)[i]
  {
    TimeAt(ultimo, horizonte, numPontos, i);
    PositiveStep(i as real + 1.0, horizonte / numPontos as real);
  }

  lemma OrderedAt(ultimo: real, horizonte: real, numPontos: int, i: int, j: int)
    requires horizonte > 0.0 && 0 <= i < j < numPontos
    ensures ProjectionTimes(ultimo, horizonte, numPontos)[i] < ProjectionTimes(ultimo, horizonte, numPontos)[j]
  {
    TimeAt(ultimo, horizonte, numPontos, i);
    TimeAt(ultimo, horizonte, numPontos, j);
    IncreasingStep(i as real + 1.0, j as real + 1.0, horizonte / numPontos as real);
  }

  /**
   * The projection instants are `num_pontos` of them (none for a count not
   * above zero), evenly spaced by `horizonte / num_pontos`, the first one
   * step after the last observed instant and the last exactly `horizonte`
   * after it.
   */
  lemma ProjectionTimesSpacing(ultimo: real, horizonte: real, numPontos: int)
    ensures var ts := ProjectionTimes(ultimo, horizonte, numPontos);
      && |ts| == (if numPontos > 0 then numPontos else 0)
      && (numPontos > 0 ==> ts[0] == ultimo + horizonte / numPontos as real)
      && (numPontos > 0 ==> ts[numPontos - 1] == ultimo + horizonte)
      && (forall i :: 0 < i < |ts| ==> ts[i] - ts[i - 1] == horizonte / numPontos as real)
  {
    if numPontos > 0 {
      EndsAt(ultimo, horizonte, numPontos);
      forall i | 0 < i < numPontos
        ensures ProjectionTimes(ultimo, horizonte, numPontos)[i] - ProjectionTimes(ultimo, horizonte, numPontos)[i - 1]
          == horizonte / numPontos as real
      {
        SpacedAt(ultimo, horizonte, numPontos, i);
      }
    }
  }

  /** With a positive horizon the projection instants increase strictly and all lie after the last observation. */
  lemma ProjectionTimesIncreasing(ultimo: real, horizonte: real, numPontos: int)
    requires horizonte > 0.0
    ensures var ts := ProjectionTimes(ultimo, horizonte, numPontos);
      && (forall i :: 0 <= i < |ts| ==> ultimo < ts[i])
      && (forall i, j :: 0 <= i < j < |ts| ==> ts[i] < ts[j])
  {
    var ts := ProjectionTimes(ultimo, horizonte, numPontos);
    forall i | 0 <= i < |ts| ensures ultimo < ts[i] {
      AfterLast(ultimo, horizonte, numPontos, i);
    }
    forall i, j | 0 <= i < j < |ts| ensures ts[i] < ts[j] {
      OrderedAt(ultimo, horizonte, numPontos, i, j);
    }
  }

  /** `r2_poli > r2_linear` decides "auto"; "linear" is linear and every other name is polynomial. */
  function ChosenModel(tipoModelo: string, r2Linear: real, r2Poli: real): string
  {
    if tipoModelo == "auto" then (if r2Poli > r2Linear then "polinomial" else "linear") else tipoModelo
  }

  /** `coefs[:-2]`: all but the two normalisation entries (empty for a shorter list). */
  function WithoutNormalisation(coefs: seq<real>): seq<real>
  {
    if |coefs| >= 2 then coefs[..|coefs| - 2] else []
  }

  /** `projetar_metrica` on the stored series of the key, or on none. */
  function ProjectSeries(dimensao: string, nome: string, serie: Option<seq<Ponto>>, horizonte: real, numPontos: int,
                         tipoModelo: string, ajustes: Ajustes): Projecao
  {
    if serie.None? || |serie.value| < 2 then Falha(HistoricoInsuficiente)
    else
      var pontos := serie.value;
      var (slope, intercept, r2Linear) := ajustes.linear(pontos);
      var (coefs, r2Poli) := ajustes.polinomial(pontos);
      var ultimo := pontos[|pontos| - 1];
      var ts := ProjectionTimes(ultimo.0, horizonte, numPontos);
      if ChosenModel(tipoModelo, r2Linear, r2Poli) == "linear" then
        Sucesso(dimensao, nome, horizonte, ultimo.0, ultimo.1, ts, LinearValues(slope, intercept, ts), r2Linear,
                Linear(slope, intercept), |pontos|, None, None)
      else
        Sucesso(dimensao, nome, horizonte, ultimo.0, ultimo.1, ts, seq(|ts|, i requires 0 <= i < |ts| => ajustes.avaliar(coefs, ts[i])),
                r2Poli, Polinomial(WithoutNormalisation(coefs), |coefs| - 3), |pontos|, None, None)
  }

  /** `_prever_modelo_linear`. */
  function LinearValues(slope: real, intercept: real, ts: seq<real>): (r: seq<real>)
    ensures |r| == |ts| && forall i :: 0 <= i < |ts| ==> r[i] == slope * ts[i] + intercept
  {
    seq(|ts|, i requires 0 <= i < |ts| => slope * ts[i] + intercept)
  }

  /**
   * A projection fails exactly when the series is unknown or has fewer than
   * two points; otherwise it starts from the series' last point, projects
   * one value per instant of `ProjectionTimes` and carries no impact yet.
   */
  lemma ProjectSeriesProperties(dimensao: string, nome: string, serie: Option<seq<Ponto>>, horizonte: real,
                                numPontos: int, tipoModelo: string, ajustes: Ajustes)
    ensures var r := ProjectSeries(dimensao, nome, serie, horizonte, numPontos, tipoModelo, ajustes);
      && (r.Falha? <==> serie.None? || |serie.value| < 2)
      && (r.Sucesso? ==>
          var pontos := serie.value;
          && r.dimensao == dimensao && r.nome == nome && r.horizonte == horizonte
          && (r.ultimoTimestamp, r.ultimoValor) == pontos[|pontos| - 1]
          && r.timestamps == ProjectionTimes(pontos[|pontos| - 1].0, horizonte, numPontos)
          && |r.valores| == |r.timestamps|
          && r.numPontosHistorico == |pontos|
          && r.impactoAcao.None? && r.impactoPlano.None?
          && (r.modelo.Linear? ==> forall i :: 0 <= i < |r.valores| ==>
                r.valores[i] == r.modelo.slope * r.timestamps[i] + r.modelo.intercept))
  {
  }

  /** What `_ajustar_modelo_linear` raises: it calls `stats.linregress`, and the file never imports `stats`. */
  const StatsNameError := "NameError: name 'stats' is not defined"

  /**
   * `projetar_metrica` as written: a series with two points or more reaches
   * the linear fit, which raises `NameError`.
   */
  function ProjectSeriesAsWritten(dimensao: string, nome: string, serie: Option<seq<Ponto>>, horizonte: real, numPontos: int,
                                  tipoModelo: string, ajustes: Ajustes): Result<Projecao>
  {
    if serie.None? || |serie.value| < 2 then Ok(Falha(HistoricoInsuficiente))
    else Err(StatsNameError)
  }

  /**
   * The code as written and the projection with the import present agree on
   * a missing or short series; on every longer one the code raises where the
   * projection succeeds.
   */
  lemma MissingStatsImport(dimensao: string, nome: string, serie: Option<seq<Ponto>>, horizonte: real,
                           numPontos: int, tipoModelo: string, ajustes: Ajustes)
    ensures var w := ProjectSeriesAsWritten(dimensao, nome, serie, horizonte, numPontos, tipoModelo, ajustes);
      var c := ProjectSeries(dimensao, nome, serie, horizonte, numPontos, tipoModelo, ajustes);
      && (serie.None? || |serie.value| < 2 ==> w == Ok(c))
      && (serie.Some? && |serie.value| >= 2 ==> w == Err(StatsNameError) && c.Sucesso?)
  {
  }

  /** The value a projected value becomes under an impact: positive impacts reduce it, negative ones raise it. */
  function Scaled(v: real, impacto: real): real
  {
    if impacto >= 0.0 then v * (1.0 - impacto) else v * (1.0 + Abs(impacto))
  }

  function Abs(x: real): real
  {
    if x >= 0.0 then x else -x
  }

  function ScaledAll(valores: seq<real>, impacto: real): seq<real>
  {
    seq(|valores|, i requires 0 <= i < |valores| => Scaled(valores[i], impacto))
  }

  /**
   * Both branches of the scaling are the one map `v * (1 - impacto)`: no
   * impact leaves the values as they are, and an impact in [0, 1] keeps a
   * non-negative value between 0 and itself.
   */
  lemma ScaledAllProperties(valores: seq<real>, impacto: real)
    ensures |ScaledAll(valores, impacto)| == |valores|
    ensures forall i :: 0 <= i < |valores| ==> ScaledAll(valores, impacto)[i] == valores[i] * (1.0 - impacto)
    ensures impacto == 0.0 ==> ScaledAll(valores, impacto) == valores
    ensures 0.0 <= impacto <= 1.0 ==>
      forall i :: 0 <= i < |valores| && valores[i] >= 0.0 ==> 0.0 <= ScaledAll(valores, impacto)[i] <= valores[i]
  {
    forall i | 0 <= i < |valores| && valores[i] >= 0.0 && 0.0 <= impacto <= 1.0
      ensures 0.0 <= ScaledAll(valores, impacto)[i] <= valores[i]
    {
      ScaledBetween(valores[i], impacto);
    }
  }

  lemma ScaledBetween(v: real, impacto: real)
    requires v >= 0.0 && 0.0 <= impacto <= 1.0
    ensures 0.0 <= v * (1.0 - impacto) <= v
  {
    assert v * (1.0 - impacto) == v - v * impacto;
    assert v * impacto >= 0.0;
    assert v * (1.0 - impacto) >= 0.0;
  }

  /** `projetar_impacto_acao`. */
  function ActionImpact(p: Projecao, acao: Acao): Projecao
  {
    if p.Falha? then p
    else
      match Get(acao.impacto, p.dimensao)
      case None => p.(impactoAcao := Some(ImpactoAcao(acao.id, acao.tipo, 0.0, p.valores)))
      case Some(impacto) => p.(impactoAcao := Some(ImpactoAcao(acao.id, acao.tipo, impacto, ScaledAll(p.valores, impacto))))
  }

  /**
   * A failed projection is returned as it is; otherwise only the action's
   * impact entry is set, with the action's estimate for the projection's
   * dimension (0 when it has none) and one scaled value per projected value.
   */
  lemma ActionImpactProperties(p: Projecao, acao: Acao)
    ensures p.Falha? ==> ActionImpact(p, acao) == p
    ensures p.Sucesso? ==>
      var r := ActionImpact(p, acao);
      var i := GetOr(acao.impacto, p.dimensao, 0.0);
      && r == p.(impactoAcao := r.impactoAcao)
      && r.impactoAcao.Some?
      && r.impactoAcao.value.id == acao.id && r.impactoAcao.value.tipo == acao.tipo
      && r.impactoAcao.value.valor == i
      && r.impactoAcao.value.valoresComImpacto == ScaledAll(p.valores, i)
      && |r.impactoAcao.value.valoresComImpacto| == |p.valores|
  {
    if p.Sucesso? && Get(acao.impacto, p.dimensao).None? {
      ScaledAllProperties(p.valores, 0.0);
    }
  }

  /** One step of the combination: non-negative impacts combine as c + i(1 - c), negative ones are added. */
  function Combine(c: real, impacto: real): real
  {
    if impacto >= 0.0 then c + impacto * (1.0 - c) else c + impacto
  }

  /** `impacto_combinado` of the plan's actions on a dimension, in the plan's order. */
  function CombinedImpact(acoes: seq<Acao>, dim: string): real
  {
    if |acoes| == 0 then 0.0
    else
      var c := CombinedImpact(acoes[..|acoes| - 1], dim);
      match Get(acoes[|acoes| - 1].impacto, dim)
      case None => c
      case Some(impacto) => Combine(c, impacto)
  }

  /** The share of the value a plan leaves: the product of (1 - i) over the impacts on the dimension. */
  function Remaining(acoes: seq<Acao>, dim: string): real
  {
    if |acoes| == 0 then 1.0
    else
      var r := Remaining(acoes[..|acoes| - 1], dim);
      match Get(acoes[|acoes| - 1].impacto, dim)
      case None => r
      case Some(impacto) => r * (1.0 - impacto)
  }

  /** Every action's estimate for the dimension, where it has one, lies in [lo, hi]. */
  predicate ImpactsWithin(acoes: seq<Acao>, dim: string, lo: real, hi: real)
  {
    forall k :: 0 <= k < |acoes| && HasKey(acoes[k].impacto, dim) ==> lo <= GetOr(acoes[k].impacto, dim, 0.0) <= hi
  }

  /** The bounds on the estimates hold for every prefix of the plan. */
  lemma ImpactsWithinInit(acoes: seq<Acao>, dim: string, lo: real, hi: real)
    requires |acoes| > 0 && ImpactsWithin(acoes, dim, lo, hi)
    ensures ImpactsWithin(acoes[..|acoes| - 1], dim, lo, hi)
  {
    var init := acoes[..|acoes| - 1];
    forall k | 0 <= k < |init| && HasKey(init[k].impacto, dim)
      ensures lo <= GetOr(init[k].impacto, dim, 0.0) <= hi
    {
      assert init[k] == acoes[k];
    }
  }

  lemma CombineStep(c: real, impacto: real)
    ensures impacto >= 0.0 ==> 1.0 - Combine(c, impacto) == (1.0 - c) * (1.0 - impacto)
    ensures 0.0 <= c <= 1.0 && 0.0 <= impacto <= 1.0 ==> 0.0 <= Combine(c, impacto) <= 1.0
  {
    if 0.0 <= c <= 1.0 && 0.0 <= impacto <= 1.0 {
      assert impacto * (1.0 - c) >= 0.0;
      assert impacto * (1.0 - c) <= 1.0 - c;
    }
  }

  /** With every estimate for the dimension in [0, 1], the combined impact stays in [0, 1]. */
  lemma {:induction false} CombinedImpactBounds(acoes: seq<Acao>, dim: string)
    requires ImpactsWithin(acoes, dim, 0.0, 1.0)
    ensures 0.0 <= CombinedImpact(acoes, dim) <= 1.0
  {
    if |acoes| > 0 {
      var init := acoes[..|acoes| - 1];
      var a := acoes[|acoes| - 1];
      assert forall k :: 0 <= k < |init| ==> init[k] == acoes[k];
      CombinedImpactBounds(init, dim);
      GetFinds(a.impacto, dim);
      if Get(a.impacto, dim).Some? {
        CombineStep(CombinedImpact(init, dim), Get(a.impacto, dim).value);
      }
    }
  }

  /**
   * With non-negative estimates the combined impact is 1 minus the product
   * of the shares each action leaves, so the order of the actions does not
   * matter.
   */
  lemma {:induction false} CombinedImpactProduct(acoes: seq<Acao>, dim: string)
    requires ImpactsWithin(acoes, dim, 0.0, 1.0)
    ensures CombinedImpact(acoes, dim) == 1.0 - Remaining(acoes, dim)
  {
    if |acoes| > 0 {
      var init := acoes[..|acoes| - 1];
      var a := acoes[|acoes| - 1];
      ImpactsWithinInit(acoes, dim, 0.0, 1.0);
      CombinedImpactProduct(init, dim);
      GetFinds(a.impacto, dim);
      match Get(a.impacto, dim)
      case None =>
      case Some(impacto) =>
        assert 0.0 <= impacto by {
          assert HasKey(acoes[|acoes| - 1].impacto, dim);
        }
        ProductStep(CombinedImpact(init, dim), Remaining(init, dim), impacto);
    }
  }

  /** The arithmetic of one step of `CombinedImpactProduct`, kept apart from the folds. */
  lemma ProductStep(c: real, r: real, impacto: real)
    requires c == 1.0 - r && impacto >= 0.0
    ensures Combine(c, impacto) == 1.0 - r * (1.0 - impacto)
  {
  }

  /** `projetar_impacto_plano`. */
  function PlanImpact(p: Projecao, plano: Plano): Projecao
  {
    if p.Falha? || |plano.acoes| == 0 then p
    else
      var c := CombinedImpact(plano.acoes, p.dimensao);
      p.(impactoPlano := Some(ImpactoPlano(plano.id, c, |plano.acoes|, ScaledAll(p.valores, c))))
  }

  /**
   * A failed projection or an empty plan leaves the projection as it is;
   * otherwise only the plan's impact entry is set, with the combined impact
   * and one value per projected value, each scaled by 1 minus that impact.
   */
  lemma PlanImpactProperties(p: Projecao, plano: Plano)
    ensures p.Falha? || |plano.acoes| == 0 ==> PlanImpact(p, plano) == p
    ensures p.Sucesso? && |plano.acoes| > 0 ==>
      var r := PlanImpact(p, plano);
      var c := CombinedImpact(plano.acoes, p.dimensao);
      && r == p.(impactoPlano := r.impactoPlano)
      && r.impactoPlano.Some?
      && r.impactoPlano.value.id == plano.id && r.impactoPlano.value.numAcoes == |plano.acoes|
      && r.impactoPlano.value.valorCombinado == c
      && |r.impactoPlano.value.valoresComImpacto| == |p.valores|
      && forall i :: 0 <= i < |p.valores| ==> r.impactoPlano.value.valoresComImpacto[i] == p.valores[i] * (1.0 - c)
  {
    if p.Sucesso? && |plano.acoes| > 0 {
      ScaledAllProperties(p.valores, CombinedImpact(plano.acoes, p.dimensao));
    }
  }

  /** The value loop of both impact projections. */
  method ValoresComImpacto(valores: seq<real>, impacto: real) returns (r: seq<real>)
    ensures r == ScaledAll(valores, impacto)
  {
    r := [];
    var k := 0;
    while k < |valores|
      invariant 0 <= k <= |valores|
      invariant r == ScaledAll(valores[..k], impacto)
    {
      var novo;
      if impacto >= 0.0 {
        novo := valores[k] * (1.0 - impacto);
      } else {
        novo := valores[k] * (1.0 + Abs(impacto));
      }
      assert novo == Scaled(valores[k], impacto);
      assert ScaledAll(valores[..k + 1], impacto) == ScaledAll(valores[..k], impacto) + [novo];
      r := r + [novo];
      k := k + 1;
    }
    assert valores[..k] == valores;
  }

  /** `projetar_impacto_acao`, loop by loop. */
  method ProjetarImpactoAcao(p: Projecao, acao: Acao) returns (r: Projecao)
    ensures r == ActionImpact(p, acao)
  {
    if p.Falha? {
      return p;
    }
    var impacto := Get(acao.impacto, p.dimensao);
    if impacto.None? {
      return p.(impactoAcao := Some(ImpactoAcao(acao.id, acao.tipo, 0.0, p.valores)));
    }
    var valores := ValoresComImpacto(p.valores, impacto.value);
    r := p.(impactoAcao := Some(ImpactoAcao(acao.id, acao.tipo, impacto.value, valores)));
  }

  /** `projetar_impacto_plano`, loop by loop. */
  method ProjetarImpactoPlano(p: Projecao, plano: Plano) returns (r: Projecao)
    ensures r == PlanImpact(p, plano)
  {
    if p.Falha? || |plano.acoes| == 0 {
      return p;
    }
    var combinado := 0.0;
    var k := 0;
    while k < |plano.acoes|
      invariant 0 <= k <= |plano.acoes|
      invariant combinado == CombinedImpact(plano.acoes[..k], p.dimensao)
    {
      assert plano.acoes[..k + 1][..k] == plano.acoes[..k];
      var impacto := Get(plano.acoes[k].impacto, p.dimensao);
      if impacto.Some? {
        if impacto.value >= 0.0 {
          combinado := combinado + impacto.value * (1.0 - combinado);
        } else {
          combinado := combinado + impacto.value;
        }
      }
      k := k + 1;
    }
    assert plano.acoes[..k] == plano.acoes;
    var valores := ValoresComImpacto(p.valores, combinado);
    r := p.(impactoPlano := Some(ImpactoPlano(plano.id, combinado, |plano.acoes|, valores)));
  }

  class ProjetorTemporal {
    /** `historico_metricas`: the points of each series, by key. */
    var historico: map<string, seq<Ponto>>

    /** Every series is ordered by timestamp and holds at most 1000 points. */
    ghost predicate Valid()
      reads this
    {
      OrderedHistories(historico)
    }

    constructor ()
      ensures Valid() && historico == map[]
    {
      historico := map[];
    }

    /** The stored series of a key, if any. */
    function Serie(chave: string): Option<seq<Ponto>>
      reads this
    {
      if chave in historico then Some(historico[chave]) else None
    }

    /** `adicionar_metrica`: the metric's point joins its series; no other series changes. */
    method AdicionarMetrica(m: Metric)
      requires Valid()
      modifies this
      ensures Valid()
      ensures historico == WithMetric(old(historico), m)
    {
      var chave := Chave(m.dimensao, m.nome);
      var serie := if chave in historico then historico[chave] else [];
      WithMetricProperties(historico, m);
      historico := historico[chave := WithPoint(serie, (m.timestamp, m.valor))];
    }

    /** `projetar_metrica`. */
    function ProjetarMetrica(dimensao: string, nome: string, horizonte: real, numPontos: int, tipoModelo: string,
                             ajustes: Ajustes): (r: Projecao)
      reads this
      ensures r == ProjectSeries(dimensao, nome, Serie(Chave(dimensao, nome)), horizonte, numPontos, tipoModelo, ajustes)
    {
      ProjectSeries(dimensao, nome, Serie(Chave(dimensao, nome)), horizonte, numPontos, tipoModelo, ajustes)
    }
  }
}
