/**
 * The first-generation monitor: `MonitoramentoMultidimensional`, which
 * samples system metrics into a history and reads trends and threshold
 * flags from it, and `gerar_metricas`, which simulates one record per
 * metric name.
 */
module BasicMonitoring {
  import opened Wrappers
  import opened Dicts
  import opened Values
  import opened Seqs
  import opened Text

  /** `MetricasSistema`. */
  datatype Metricas = Metricas(
    /** Operations per second. */
    throughput: real,
    /** Error percentage. */
    taxaErro: real,
    /** Milliseconds. */
    latencia: real,
    /** Usage percentage per resource ("cpu", "memoria", "disco"). */
    usoRecursos: Dict<string, real>)

  /** `random.uniform(a, b)`, given the draw `u` of `random.random()` it is built on. */
  function Uniform(a: real, b: real, u: real): real
  {
    a + (b - a) * u
  }

  /** A uniform sample lies between its bounds. */
  lemma UniformBetween(a: real, b: real, u: real)
    requires a <= b && 0.0 <= u <= 1.0
    ensures a <= Uniform(a, b, u) <= b
  {
    var d := b - a;
    assert 0.0 <= d * u;
    assert 0.0 <= d * (1.0 - u);
    assert d * (1.0 - u) == d - d * u;
  }

  /** `n` draws of `random.random()`, each in [0, 1]. */
  predicate Draws(u: seq<real>, n: nat)
  {
    |u| == n && forall i :: 0 <= i < n ==> 0.0 <= u[i] <= 1.0
  }

  /** The metrics `coletar_metricas` samples from six draws. */
  function Sample(u: seq<real>): Metricas
    requires |u| == 6
  {
    Metricas(Uniform(100.0, 1000.0, u[0]), Uniform(0.0, 5.0, u[1]), Uniform(10.0, 100.0, u[2]),
      [("cpu", Uniform(20.0, 80.0, u[3])), ("memoria", Uniform(30.0, 70.0, u[4])), ("disco", Uniform(10.0, 50.0, u[5]))])
  }

  /** The ranges `coletar_metricas` samples from. */
  predicate InRanges(m: Metricas)
  {
    && 100.0 <= m.throughput <= 1000.0
    && 0.0 <= m.taxaErro <= 5.0
    && 10.0 <= m.latencia <= 100.0
    && |m.usoRecursos| == 3
    && m.usoRecursos[0].0 == "cpu" && 20.0 <= m.usoRecursos[0].1 <= 80.0
    && m.usoRecursos[1].0 == "memoria" && 30.0 <= m.usoRecursos[1].1 <= 70.0
    && m.usoRecursos[2].0 == "disco" && 10.0 <= m.usoRecursos[2].1 <= 50.0
  }

  /** Every sample lies in the stated ranges. */
  lemma SampleInRanges(u: seq<real>)
    requires Draws(u, 6)
    ensures InRanges(Sample(u))
  {
    UniformBetween(100.0, 1000.0, u[0]);
    UniformBetween(0.0, 5.0, u[1]);
    UniformBetween(10.0, 100.0, u[2]);
    UniformBetween(20.0, 80.0, u[3]);
    UniformBetween(30.0, 70.0, u[4]);
    UniformBetween(10.0, 50.0, u[5]);
  }

  /** The averages `analisar_tendencia` reports. */
  datatype Tendencia = Tendencia(throughput: real, taxaErro: real, latencia: real)

  const DivisaoPorZero: string := "division by zero"

  /** Python's `h[-janela:]`. */
  function LastWindow(h: seq<Metricas>, janela: int): seq<Metricas>
  {
    if janela > 0 then (if janela <= |h| then h[|h| - janela..] else h)
    else if -janela <= |h| then h[-janela..]
    else []
  }

  function Throughputs(w: seq<Metricas>): seq<real>
  {
    seq(|w|, i requires 0 <= i < |w| => w[i].throughput)
  }

  function TaxasErro(w: seq<Metricas>): seq<real>
  {
    seq(|w|, i requires 0 <= i < |w| => w[i].taxaErro)
  }

  function Latencias(w: seq<Metricas>): seq<real>
  {
    seq(|w|, i requires 0 <= i < |w| => w[i].latencia)
  }

  /**
   * `analisar_tendencia(janela)`: nothing (`{}`) while the history is
   * shorter than the window; otherwise each field's sum over
   * `historico[-janela:]` divided by `janela`, which raises for a zero window.
   */
  function Trend(h: seq<Metricas>, janela: int): Result<Option<Tendencia>>
  {
    if |h| < janela then Ok(None)
    else if janela == 0 then Err(DivisaoPorZero)
    else
      var w := LastWindow(h, janela);
      Ok(Some(Tendencia(Sum(Throughputs(w)) / janela as real, Sum(TaxasErro(w)) / janela as real,
        Sum(Latencias(w)) / janela as real)))
  }

  /**
   * A positive window over a long enough history gives the mean of each
   * field over the newest `janela` samples, which lies between that
   * window's least and greatest value; a shorter history gives nothing and
   * a zero window fails.
   */
  lemma TrendProperties(h: seq<Metricas>, janela: int)
    ensures |h| < janela ==> Trend(h, janela) == Ok(None)
    ensures janela == 0 ==> Trend(h, janela).Err?
    ensures 0 < janela <= |h| ==>
      var w := h[|h| - janela..];
      && Trend(h, janela).Ok? && Trend(h, janela).value.Some?
      && var t := Trend(h, janela).value.value;
      && |w| == janela
      && t.throughput == Mean(Throughputs(w)) && Min(Throughputs(w)) <= t.throughput <= Max(Throughputs(w))
      && t.taxaErro == Mean(TaxasErro(w)) && Min(TaxasErro(w)) <= t.taxaErro <= Max(TaxasErro(w))
      && t.latencia == Mean(Latencias(w)) && Min(Latencias(w)) <= t.latencia <= Max(Latencias(w))
  {
    if 0 < janela <= |h| {
      var w := h[|h| - janela..];
      MeanBounds(Throughputs(w));
      MeanBounds(TaxasErro(w));
      MeanBounds(Latencias(w));
    }
  }

  /** The flags `detectar_anomalias` reports. */
  datatype Anomalias = Anomalias(throughputAlto: bool, taxaErroAlta: bool, latenciaAlta: bool, recursosAltos: bool)

  /** `any(v > limite for v in uso.values())`. */
  predicate SomeAbove(uso: Dict<string, real>, limite: real)
  {
    exists i :: 0 <= i < |uso| && uso[i].1 > limite
  }

  /** The threshold flags of one sample. */
  function FlagsOf(m: Metricas): Anomalias
  {
    Anomalias(m.throughput > 800.0, m.taxaErro > 3.0, m.latencia > 80.0, SomeAbove(m.usoRecursos, 70.0))
  }

  /** `detectar_anomalias`: nothing (`{}`) for an empty history, else the flags of the newest sample. */
  function Flags(h: seq<Metricas>): Option<Anomalias>
  {
    if |h| == 0 then None else Some(FlagsOf(h[|h| - 1]))
  }

  /**
   * An empty history reports nothing; otherwise each flag is raised exactly
   * when the newest sample exceeds its threshold, the resource flag when
   * some resource exceeds 70.
   */
  lemma FlagsProperties(h: seq<Metricas>)
    ensures Flags(h).None? <==> |h| == 0
    ensures |h| > 0 ==> var m, f := h[|h| - 1], Flags(h).value;
      && (f.throughputAlto <==> m.throughput > 800.0)
      && (f.taxaErroAlta <==> m.taxaErro > 3.0)
      && (f.latenciaAlta <==> m.latencia > 80.0)
      && (f.recursosAltos <==> exists i :: 0 <= i < |m.usoRecursos| && m.usoRecursos[i].1 > 70.0)
  {
  }

  /** The monitor and its history of samples. */
  class Monitoramento {
    var historico: seq<Metricas>

    constructor ()
      ensures historico == []
    {
      historico := [];
    }

    /** `coletar_metricas`: one sample from the draws `u` joins the history and is returned. */
    method ColetarMetricas(u: seq<real>) returns (m: Metricas)
      requires |u| == 6
      modifies this
      ensures m == Sample(u) && historico == old(historico) + [m]
      ensures Draws(u, 6) ==> InRanges(m)
    {
      m := Sample(u);
      if Draws(u, 6) {
        SampleInRanges(u);
      }
      historico := historico + [m];
    }

    /** `analisar_tendencia`. */
    function AnalisarTendencia(janela: int): Result<Option<Tendencia>>
      reads this
    {
      Trend(historico, janela)
    }

    /** `detectar_anomalias`. */
    function DetectarAnomalias(): Option<Anomalias>
      reads this
    {
      Flags(historico)
    }
  }

  /** Python's `round(x)` on an exact value: to the nearest integer, ties to even. */
  function RoundHalfEven(y: real): int
  {
    var f := y.Floor;
    if y - f as real < 0.5 then f
    else if y - f as real > 0.5 then f + 1
    else if f % 2 == 0 then f
    else f + 1
  }

  /** Rounding stays between integer bounds of its argument. */
  lemma RoundBetween(y: real, lo: int, hi: int)
    requires lo as real <= y <= hi as real
    ensures lo <= RoundHalfEven(y) <= hi
  {
  }

  /** `round(x, 2)`. */
  function Round2(x: real): real
  {
    RoundHalfEven(x * 100.0) as real / 100.0
  }

  /** A value between two multiples of 0.01 rounds to two places between them. */
  lemma Round2Between(x: real, lo: int, hi: int)
    requires lo as real / 100.0 <= x <= hi as real / 100.0
    ensures lo as real / 100.0 <= Round2(x) <= hi as real / 100.0
    ensures (Round2(x) * 100.0).Floor as real == Round2(x) * 100.0
  {
    var y := x * 100.0;
    assert lo as real <= y <= hi as real;
    RoundBetween(y, lo, hi);
    Round2Cents(x);
    CentsBetween(Round2(x), RoundHalfEven(y), lo, hi);
  }

  lemma CentsBetween(r: real, n: int, lo: int, hi: int)
    requires r * 100.0 == n as real && lo <= n <= hi
    ensures lo as real / 100.0 <= r <= hi as real / 100.0
    ensures (r * 100.0).Floor as real == r * 100.0
  {
  }

  lemma Round2Cents(x: real)
    ensures Round2(x) * 100.0 == RoundHalfEven(x * 100.0) as real
  {
  }

  /** One record of `gerar_metricas`. */
  datatype Registro = Registro(
    id: string,
    nome: string,
    valor: real,
    timestamp: real,
    dimensao: string,
    unidade: string,
    tags: Ctx,
    metadados: Ctx)

  /** `NOMES`: each metric's name, dimension and unit. */
  const Nomes: seq<(string, string, string)> :=
    [("throughput", "operacional", "req/s"), ("erros", "contextual", "%"), ("latencia", "cognitiva", "ms"),
     ("recursos", "fractal", "%")]

  /** The range each name's value is drawn from, in hundredths. */
  function Faixa(i: nat): (int, int)
    requires i < |Nomes|
  {
    if Nomes[i].0 == "throughput" then (8000, 12000)
    else if Nomes[i].0 == "erros" then (0, 500)
    else if Nomes[i].0 == "latencia" then (10000, 30000)
    else (4000, 9000)
  }

  /** The record for the `i`-th name, from the draw `u`. */
  function RegistroAt(timestamp: real, u: real, i: nat): Registro
    requires i < |Nomes|
  {
    var (nome, dimensao, unidade) := Nomes[i];
    var (lo, hi) := Faixa(i);
    Registro(nome + "_" + IntText(Trunc(timestamp)), nome, Round2(Uniform(lo as real / 100.0, hi as real / 100.0, u)),
      timestamp, dimensao, unidade, [], [])
  }

  /** The records of `gerar_metricas` at `timestamp` with one draw per name. */
  function Registros(timestamp: real, u: seq<real>): seq<Registro>
    requires |u| == |Nomes|
  {
    seq(|Nomes|, i requires 0 <= i < |Nomes| => RegistroAt(timestamp, u[i], i))
  }

  /** `gerar_metricas`. */
  method GerarMetricas(timestamp: real, u: seq<real>) returns (metricas: seq<Registro>)
    requires |u| == |Nomes|
    ensures metricas == Registros(timestamp, u)
  {
    metricas := [];
    var i := 0;
    while i < |Nomes|
      invariant 0 <= i <= |Nomes|
      invariant metricas == Registros(timestamp, u)[..i]
    {
      var (nome, dimensao, unidade) := Nomes[i];
      var (lo, hi) := Faixa(i);
      var valor := Uniform(lo as real / 100.0, hi as real / 100.0, u[i]);
      metricas := metricas + [Registro(nome + "_" + IntText(Trunc(timestamp)), nome, Round2(valor), timestamp, dimensao,
        unidade, [], [])];
      i := i + 1;
    }
  }

  /**
   * One record per name, in order, all at the same timestamp, with id
   * `<nome>_<int(timestamp)>`, empty tags and metadata, and a value
   * rounded to two places within the name's range.
   */
  lemma RegistrosProperties(timestamp: real, u: seq<real>)
    requires Draws(u, |Nomes|)
    ensures var r := Registros(timestamp, u);
      && |r| == |Nomes|
      && forall i :: 0 <= i < |r| ==>
        && r[i].nome == Nomes[i].0 && r[i].dimensao == Nomes[i].1 && r[i].unidade == Nomes[i].2
        && r[i].timestamp == timestamp
        && r[i].id == r[i].nome + "_" + IntText(Trunc(timestamp))
        && r[i].tags == [] && r[i].metadados == []
        && Faixa(i).0 as real / 100.0 <= r[i].valor <= Faixa(i).1 as real / 100.0
        && (r[i].valor * 100.0).Floor as real == r[i].valor * 100.0
  {
    forall i | 0 <= i < |Nomes|
      ensures var x := Uniform(Faixa(i).0 as real / 100.0, Faixa(i).1 as real / 100.0, u[i]);
        && Faixa(i).0 as real / 100.0 <= Round2(x) <= Faixa(i).1 as real / 100.0
        && (Round2(x) * 100.0).Floor as real == Round2(x) * 100.0
    {
      UniformBetween(Faixa(i).0 as real / 100.0, Faixa(i).1 as real / 100.0, u[i]);
      Round2Between(Uniform(Faixa(i).0 as real / 100.0, Faixa(i).1 as real / 100.0, u[i]), Faixa(i).0, Faixa(i).1);
    }
  }
}
