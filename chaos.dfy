/**
 * `DetectorAnomaliasCaoticas` of src/diagnostico/diagnostico.py: bounded
 * time series per name, the delay embedding of a series into phase space,
 * and anomaly detection by relative deviation of the chaotic statistics
 * from a stored reference. The statistics themselves (approximate entropy,
 * a Lyapunov exponent drawn from random pairs, correlation dimension,
 * standard deviation, kurtosis, skewness) are numerical code outside the
 * model and are given as the function `stats`.
 */
module Chaos {
  import opened Wrappers
  import opened Dicts
  import opened Seqs

  /** The statistics of a window of values, by name. */
  type ChaosStats = seq<real> -> Dict<string, real>

  /** `[p[1] for p in pontos]`. */
  function Valores(ps: seq<(real, real)>): (vs: seq<real>)
    ensures |vs| == |ps| && forall i :: 0 <= i < |ps| ==> vs[i] == ps[i].1
  {
    seq(|ps|, i requires 0 <= i < |ps| => ps[i].1)
  }

  function Abs(x: real): (r: real)
    ensures r >= 0.0 && (r == x || r == -x)
  {
    if x < 0.0 then -x else x
  }

  /** `abs(atual - ref) / abs(ref)`. */
  function Deviation(atual: real, ref: real): (d: real)
    requires ref != 0.0
    ensures d >= 0.0
  {
    Abs(atual - ref) / Abs(ref)
  }

  /** The `desvios` dictionary: one entry per current statistic whose reference exists and is not zero. */
  function Deviations(atual: Dict<string, real>, ref: Dict<string, real>): Dict<string, real>
  {
    if |atual| == 0 then []
    else
      var d := Deviations(atual[..|atual| - 1], ref);
      var (k, a) := atual[|atual| - 1];
      match Get(ref, k)
      case Some(r) => if r != 0.0 then Put(d, k, Deviation(a, r)) else d
      case None => d
  }

  /** The deviation the detector reports for statistic `k`, if any. */
  function Expected(atual: Dict<string, real>, ref: Dict<string, real>, k: string): Option<real>
  {
    match Get(atual, k)
    case None => None
    case Some(a) =>
      match Get(ref, k)
      case Some(r) => if r != 0.0 then Some(Deviation(a, r)) else None
      case None => None
  }

  /**
   * A statistic has a deviation exactly when it is current and its reference
   * exists and is not zero; the deviation is |atual - ref| / |ref|.
   */
  lemma {:induction false} DeviationsGet(atual: Dict<string, real>, ref: Dict<string, real>, k: string)
    requires DistinctKeys(atual)
    ensures Get(Deviations(atual, ref), k) == Expected(atual, ref, k)
  {
    if |atual| > 0 {
      var init := atual[..|atual| - 1];
      var (k', a) := atual[|atual| - 1];
      DeviationsGet(init, ref, k);
      LastGet(atual, k);
      if k' == k {
        GetFinds(init, k);
      }
    }
  }

  /** Every deviation is non-negative and belongs to a statistic of the current window. */
  lemma {:induction false} DeviationsNonNegative(atual: Dict<string, real>, ref: Dict<string, real>)
    ensures forall i :: 0 <= i < |Deviations(atual, ref)| ==> Deviations(atual, ref)[i].1 >= 0.0
    ensures forall k :: HasKey(Deviations(atual, ref), k) ==> HasKey(atual, k)
  {
    if |atual| > 0 {
      var init := atual[..|atual| - 1];
      DeviationsNonNegative(init, ref);
      var d := Deviations(init, ref);
      var (k, a) := atual[|atual| - 1];
      forall k' | HasKey(atual[..|atual| - 1], k') ensures HasKey(atual, k') {
        assert Keys(atual)[..|atual| - 1] == Keys(init);
      }
      assert HasKey(atual, k) by {
        assert Keys(atual)[|atual| - 1] == k;
      }
      match Get(ref, k)
      case Some(r) =>
        if r != 0.0 {
          PutKeys(d, k, Deviation(a, r));
          PutValues(d, k, Deviation(a, r));
        }
      case None =>
    }
  }

  /** Every value of an assignment is the new value or an old one. */
  lemma {:induction false} PutValues(d: Dict<string, real>, k: string, v: real)
    ensures forall i :: 0 <= i < |Put(d, k, v)| ==> Put(d, k, v)[i].1 == v || Put(d, k, v)[i] in d
  {
    if |d| > 0 && d[0].0 != k {
      PutValues(d[1..], k, v);
    }
  }

  /** `any(desvio > limiar for desvio in desvios.values())`. */
  predicate Anomalous(desvios: Dict<string, real>, limiar: real)
  {
    exists i :: 0 <= i < |desvios| && desvios[i].1 > limiar
  }

  /**
   * `_reconstruir_espaco_fase`: the delay embedding. Too short a series gives
   * no points; otherwise point `i` is (s[i], s[i + delay], ..., s[i + (dim-1)*delay]),
   * for every start whose last coordinate is still in the series.
   */
  method ReconstruirEspacoFase(serie: seq<real>, dim: nat, delay: nat) returns (pontos: seq<seq<real>>)
    ensures |serie| < dim * delay ==> pontos == []
    ensures |serie| >= dim * delay ==>
      && |pontos| == |serie| - (dim - 1) * delay
      && forall i :: 0 <= i < |pontos| ==> |pontos[i]| == dim
    ensures forall i, j :: 0 <= i < |pontos| && 0 <= j < dim ==>
      i + j * delay < |serie| && pontos[i][j] == serie[i + j * delay]
  {
    if |serie| < dim * delay {
      return [];
    }
    pontos := Embed(serie, dim, delay);
    EmbeddingCoordinates(serie, dim, delay, pontos);
  }

  /** The loop of `_reconstruir_espaco_fase`: one embedded point per start. */
  method Embed(serie: seq<real>, dim: nat, delay: nat) returns (pontos: seq<seq<real>>)
    requires dim * delay <= |serie|
    ensures |pontos| == |serie| - (dim - 1) * delay
    ensures forall a :: 0 <= a < |pontos| ==> pontos[a] == Embedded(serie, dim, delay, a)
  {
    pontos := [];
    var n := |serie| - (dim - 1) * delay;
    var i := 0;
    while i < n
      invariant 0 <= i <= n
      invariant |pontos| == i
      invariant forall a :: 0 <= a < i ==> pontos[a] == Embedded(serie, dim, delay, a)
    {
      pontos := pontos + [Embedded(serie, dim, delay, i)];
      i := i + 1;
    }
  }

  /** Point `a` holds the series values at `a`, `a + delay`, ..., `a + (dim-1)*delay`. */
  lemma EmbeddingCoordinates(serie: seq<real>, dim: nat, delay: nat, pontos: seq<seq<real>>)
    requires dim * delay <= |serie| && |pontos| == |serie| - (dim - 1) * delay
    requires forall a :: 0 <= a < |pontos| ==> pontos[a] == Embedded(serie, dim, delay, a)
    ensures forall a :: 0 <= a < |pontos| ==> |pontos[a]| == dim
    ensures forall a, j :: 0 <= a < |pontos| && 0 <= j < dim ==>
      a + j * delay < |serie| && pontos[a][j] == serie[a + j * delay]
  {
    forall a, j | 0 <= a < |pontos| && 0 <= j < dim
      ensures a + j * delay < |serie| && pontos[a][j] == serie[a + j * delay]
    {
      EmbeddedAt(serie, dim, delay, a, j);
    }
  }

  /** The embedded point that starts at `i`. */
  function Embedded(serie: seq<real>, dim: nat, delay: nat, i: nat): (p: seq<real>)
    requires dim * delay <= |serie| && i < |serie| - (dim - 1) * delay
    ensures |p| == dim
  {
    seq(dim, j requires 0 <= j < dim => EmbedIndex(|serie|, dim, delay, i, j); serie[i + j * delay])
  }

  /** Coordinate `j` of the point that starts at `i` is the series value `j` delays later. */
  lemma EmbeddedAt(serie: seq<real>, dim: nat, delay: nat, i: nat, j: nat)
    requires dim * delay <= |serie| && i < |serie| - (dim - 1) * delay && j < dim
    ensures i + j * delay < |serie| && Embedded(serie, dim, delay, i)[j] == serie[i + j * delay]
  {
    EmbedIndex(|serie|, dim, delay, i, j);
  }

  /** Every coordinate of every embedded point lies inside the series. */
  lemma EmbedIndex(len: nat, dim: nat, delay: nat, i: nat, j: nat)
    requires dim * delay <= len && i < len - (dim - 1) * delay && j < dim
    ensures i + j * delay < len
  {
    assert j * delay <= (dim - 1) * delay by {
      MulLe(j, dim - 1, delay);
    }
  }

  lemma MulLe(a: nat, b: nat, c: nat)
    requires a <= b
    ensures a * c <= b * c
  {
  }

  /** With a positive window, no series holds more than twice the window. */
  ghost predicate Bounded(series: map<string, seq<(real, real)>>, janela: nat)
  {
    janela > 0 ==> forall nome :: nome in series ==> |series[nome]| <= 2 * janela
  }

  lemma BoundedAppend(series: map<string, seq<(real, real)>>, janela: nat, nome: string, s: seq<(real, real)>)
    requires Bounded(series, janela)
    ensures Bounded(series[nome := Capped(s, 2 * janela)], janela)
  {
    CappedBound(s, 2 * janela);
  }

  /** The statistics of a series' newest full window, or none before a full window exists. */
  function StatsAt(series: map<string, seq<(real, real)>>, janela: nat, nome: string, stats: ChaosStats): Dict<string, real>
  {
    if nome !in series || |series[nome]| < janela then []
    else stats(Valores(PyLast(series[nome], janela)))
  }

  /**
   * One `detectar_anomalia` call on the detector's state, as a value: the
   * verdict, the deviations and the references afterwards.
   */
  function AnomalyStep(series: map<string, seq<(real, real)>>, referencia: map<string, Dict<string, real>>,
                       janela: nat, nome: string, limiar: real, stats: ChaosStats)
    : (bool, Dict<string, real>, map<string, Dict<string, real>>)
  {
    if nome !in series || |series[nome]| < janela then (false, [], referencia)
    else if nome !in referencia then
      var e := StatsAt(series, janela, nome, stats);
      (false, [], if |e| > 0 then referencia[nome := e] else referencia)
    else
      var desvios := Deviations(StatsAt(series, janela, nome, stats), referencia[nome]);
      (Anomalous(desvios, limiar), desvios, referencia)
  }

  /** The deviation loop of `detectar_anomalia`, statistic by statistic. */
  method Desvios(atual: Dict<string, real>, ref: Dict<string, real>) returns (desvios: Dict<string, real>)
    ensures desvios == Deviations(atual, ref)
  {
    desvios := [];
    var i := 0;
    while i < |atual|
      invariant 0 <= i <= |atual|
      invariant desvios == Deviations(atual[..i], ref)
    {
      assert atual[..i + 1][..i] == atual[..i];
      var (chave, valor) := atual[i];
      var r := Get(ref, chave);
      if r.Some? && r.value != 0.0 {
        desvios := Put(desvios, chave, Deviation(valor, r.value));
      }
      i := i + 1;
    }
    assert atual[..|atual|] == atual;
  }

  /** The `any(...)` scan over the deviations. */
  method Excede(desvios: Dict<string, real>, limiar: real) returns (anomalia: bool)
    ensures anomalia == Anomalous(desvios, limiar)
  {
    anomalia := false;
    var j := 0;
    while j < |desvios|
      invariant 0 <= j <= |desvios|
      invariant anomalia <==> exists a :: 0 <= a < j && desvios[a].1 > limiar
    {
      if desvios[j].1 > limiar {
        anomalia := true;
      }
      j := j + 1;
    }
  }

  class ChaosDetector {
    const janelaAnalise: nat
    const dimensaoEmbedding: nat
    const delay: nat
    /** (timestamp, valor) points per series name. */
    var series: map<string, seq<(real, real)>>
    var referencia: map<string, Dict<string, real>>

    ghost predicate Valid()
      reads this
    {
      Bounded(series, janelaAnalise)
    }

    constructor (janelaAnalise: nat, dimensaoEmbedding: nat, delay: nat)
      ensures Valid()
      ensures this.janelaAnalise == janelaAnalise && this.dimensaoEmbedding == dimensaoEmbedding && this.delay == delay
      ensures series == map[] && referencia == map[]
    {
      this.janelaAnalise := janelaAnalise;
      this.dimensaoEmbedding := dimensaoEmbedding;
      this.delay := delay;
      series := map[];
      referencia := map[];
    }

    /** `adicionar_ponto`: append, then keep the newest `2*janela_analise` points (all of them for a zero window). */
    method AdicionarPonto(nome: string, valor: real, timestamp: real)
      requires Valid()
      modifies this
      ensures Valid()
      ensures series == AppendCapped(old(series), nome, (timestamp, valor), 2 * janelaAnalise)
      ensures referencia == old(referencia)
    {
      var s := if nome in series then series[nome] else [];
      BoundedAppend(series, janelaAnalise, nome, s + [(timestamp, valor)]);
      series := series[nome := Capped(s + [(timestamp, valor)], 2 * janelaAnalise)];
    }

    /** `calcular_estatisticas_caoticas`: nothing until a full window exists, then the statistics of the newest window. */
    function CalcularEstatisticasCaoticas(nome: string, stats: ChaosStats): (r: Dict<string, real>)
      reads this
      ensures (nome !in series || |series[nome]| < janelaAnalise) ==> r == []
    {
      StatsAt(series, janelaAnalise, nome, stats)
    }

    /** `definir_referencia`: a non-empty set of statistics becomes the reference. */
    method DefinirReferencia(nome: string, stats: ChaosStats)
      modifies this
      ensures series == old(series)
      ensures var e := old(CalcularEstatisticasCaoticas(nome, stats));
        referencia == if |e| > 0 then old(referencia)[nome := e] else old(referencia)
    {
      var e := CalcularEstatisticasCaoticas(nome, stats);
      if |e| > 0 {
        referencia := referencia[nome := e];
      }
    }

    /**
     * `detectar_anomalia`: no verdict without a full window; the first full
     * window only sets the reference; afterwards the deviations from the
     * reference, and an anomaly iff one exceeds `limiar`.
     */
    method DetectarAnomalia(nome: string, limiar: real, stats: ChaosStats) returns (anomalia: bool, desvios: Dict<string, real>)
      requires Valid()
      modifies this
      ensures Valid() && series == old(series)
      ensures (nome !in series || |series[nome]| < janelaAnalise) ==>
        !anomalia && desvios == [] && referencia == old(referencia)
      ensures nome in series && |series[nome]| >= janelaAnalise && nome !in old(referencia) ==>
        var e := CalcularEstatisticasCaoticas(nome, stats);
        && !anomalia && desvios == []
        && referencia == if |e| > 0 then old(referencia)[nome := e] else old(referencia)
      ensures nome in series && |series[nome]| >= janelaAnalise && nome in old(referencia) ==>
        && referencia == old(referencia)
        && desvios == Deviations(CalcularEstatisticasCaoticas(nome, stats), referencia[nome])
        && anomalia == Anomalous(desvios, limiar)
      ensures (anomalia, desvios, referencia) == AnomalyStep(old(series), old(referencia), janelaAnalise, nome, limiar, stats)
    {
      anomalia, desvios := false, [];
      if nome !in series || |series[nome]| < janelaAnalise {
        return;
      }
      if nome !in referencia {
        DefinirReferencia(nome, stats);
        return;
      }
      var atual := CalcularEstatisticasCaoticas(nome, stats);
      desvios := Desvios(atual, referencia[nome]);
      anomalia := Excede(desvios, limiar);
    }
  }
}
