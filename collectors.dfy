/**
 * The counter-and-reset collectors of src/monitoramento/monitoramento.py:
 * `ColetorThroughput`, `ColetorErros` and `ColetorLatencia`. The collection
 * thread, its sleep and the callbacks are left out; `coletar` is modelled as
 * one call taking the clock reading `now`.
 */
module Collectors {
  import opened Wrappers
  import opened Dicts
  import opened Values
  import opened Seqs
  import opened Metric
  import Stats

  /** The two metrics `ColetorThroughput.coletar` emits. */
  function ThroughputMetrics(nome: string, taxa: real, media: real, now: real): seq<Metric>
  {
    [ NewMetric(nome + "_instantaneo", nome + "_instantaneo", taxa, now, "throughput", "ops/s"),
      NewMetric(nome + "_media_movel", nome + "_media_movel", media, now, "throughput", "ops/s") ]
  }

  class ThroughputCollector {
    const nome: string
    const janelaMedia: nat
    /** `deque(maxlen=janela_media)` of the rates of past collections. */
    var historico: seq<real>
    var contador: int
    var ultimoTimestamp: real

    ghost predicate Valid()
      reads this
    {
      |historico| <= janelaMedia
    }

    constructor (nome: string, janelaMedia: nat, now: real)
      ensures Valid()
      ensures this.nome == nome && this.janelaMedia == janelaMedia
      ensures historico == [] && contador == 0 && ultimoTimestamp == now
    {
      this.nome := nome;
      this.janelaMedia := janelaMedia;
      historico := [];
      contador := 0;
      ultimoTimestamp := now;
    }

    /** `registrar_operacao`: the operation count grows by `quantidade`. */
    method RegistrarOperacao(quantidade: int)
      requires Valid()
      modifies this
      ensures Valid()
      ensures contador == old(contador) + quantidade
      ensures historico == old(historico) && ultimoTimestamp == old(ultimoTimestamp)
    {
      contador := contador + quantidade;
    }

    /**
     * `coletar`: with no time elapsed nothing happens; otherwise the rate of
     * the elapsed interval enters the bounded history, both metrics are
     * emitted and the counter restarts. With `janela_media == 0` the deque
     * keeps nothing and the moving average divides by zero: the call raises
     * before resetting anything.
     */
    method Coletar(now: real) returns (r: Result<seq<Metric>>)
      requires Valid()
      modifies this
      ensures Valid()
      ensures now - old(ultimoTimestamp) <= 0.0 ==> r == Ok([]) && unchanged(this)
      ensures now - old(ultimoTimestamp) > 0.0 && janelaMedia == 0 ==> r.Err? && unchanged(this)
      ensures now - old(ultimoTimestamp) > 0.0 && janelaMedia > 0 ==>
        var taxa := old(contador) as real / (now - old(ultimoTimestamp));
        && historico == Newest(old(historico) + [taxa], janelaMedia)
        && |historico| > 0
        && contador == 0 && ultimoTimestamp == now
        && r == Ok(ThroughputMetrics(nome, taxa, Mean(historico), now))
    {
      var deltaT := now - ultimoTimestamp;
      if deltaT > 0.0 {
        var taxa := contador as real / deltaT;
        if janelaMedia == 0 {
          return Err("ZeroDivisionError: division by zero");
        }
        historico := Newest(historico + [taxa], janelaMedia);
        var mediaMovel := Mean(historico);
        contador := 0;
        ultimoTimestamp := now;
        r := Ok(ThroughputMetrics(nome, taxa, mediaMovel, now));
      } else {
        r := Ok([]);
      }
    }
  }

  /** The categories a new `ColetorErros` starts with: `categorias or ["geral"]`, duplicates collapsed. */
  function InitialCategories(categorias: seq<string>): seq<string>
  {
    if |categorias| == 0 then ["geral"] else categorias
  }

  /** `{cat: v for cat in cats}`. */
  function AllTo<V>(cats: seq<string>, v: V): (d: Dict<string, V>)
    ensures DistinctKeys(d)
    ensures forall k :: HasKey(d, k) <==> k in cats
    ensures forall i :: 0 <= i < |d| ==> d[i].1 == v
  {
    if |cats| == 0 then []
    else
      var init := AllTo(cats[..|cats| - 1], v);
      PutKeys(init, cats[|cats| - 1], v);
      PutDistinct(init, cats[|cats| - 1], v);
      PutValues(init, cats[|cats| - 1], v, v);
      assert forall k :: k in cats <==> k in cats[..|cats| - 1] || k == cats[|cats| - 1];
      Put(init, cats[|cats| - 1], v)
  }

  /** If every value of `d` and the assigned value satisfy a bound, so do all values after assignment. */
  lemma {:induction false} PutValues<V>(d: Dict<string, V>, k: string, v: V, w: V)
    requires forall i :: 0 <= i < |d| ==> d[i].1 == w
    requires v == w
    ensures forall i :: 0 <= i < |Put(d, k, v)| ==> Put(d, k, v)[i].1 == w
  {
    if |d| > 0 && d[0].0 != k {
      PutValues(d[1..], k, v, w);
    }
  }

  function Count(n: int): int
  {
    n
  }

  function SumValores(ms: seq<Metric>): real
  {
    if |ms| == 0 then 0.0 else SumValores(ms[..|ms| - 1]) + ms[|ms| - 1].valor
  }

  /** The metric `ColetorErros.coletar` emits for one category. */
  function ErrorMetric(nome: string, categoria: string, count: int, now: real): Metric
  {
    NewMetric(nome + "_" + categoria, nome + "_" + categoria, count as real, now, "erros", "contagem")
  }

  class ErrorCollector {
    const nome: string
    var contadores: Dict<string, int>
    var contextos: Dict<string, seq<Ctx>>
    /** The number of errors registered since the last collection. */
    ghost var registrados: int

    ghost predicate Valid()
      reads this
    {
      && DistinctKeys(contadores)
      && Keys(contextos) == Keys(contadores)
      && Total(contadores, Count) == registrados
    }

    constructor (nome: string, categorias: seq<string>)
      ensures Valid() && this.nome == nome
      ensures contadores == AllTo(InitialCategories(categorias), 0)
      ensures contextos == AllTo<seq<Ctx>>(InitialCategories(categorias), [])
      ensures registrados == 0
    {
      this.nome := nome;
      var cats := InitialCategories(categorias);
      contadores := AllTo(cats, 0);
      contextos := AllTo<seq<Ctx>>(cats, []);
      registrados := 0;
      SameKeys(cats);
      SumZero(AllTo(cats, 0));
    }

    /**
     * `registrar_erro`: an unknown category is created at the end of both
     * dictionaries; the category's count grows by exactly one; a non-empty
     * context is kept as an example.
     */
    method RegistrarErro(categoria: string, contexto: Option<Ctx>)
      requires Valid()
      modifies this
      ensures Valid()
      ensures contadores == Put(old(contadores), categoria, GetOr(old(contadores), categoria, 0) + 1)
      ensures contextos == Put(old(contextos), categoria, GetOr(old(contextos), categoria, []) + Example(contexto))
      ensures registrados == old(registrados) + 1
    {
      // A category not seen before counts from 0 and starts with no examples.
      var atual := GetOr(contadores, categoria, 0);
      var exemplos := GetOr(contextos, categoria, []);
      var novosContadores := Put(contadores, categoria, atual + 1);
      var novosContextos := Put(contextos, categoria, exemplos + Example(contexto));
      RegisterKeeps(contadores, contextos, categoria, atual + 1, exemplos + Example(contexto));
      contadores, contextos := novosContadores, novosContextos;
      registrados := registrados + 1;
    }

    /**
     * `coletar`: one metric per category, in category order, whose value is
     * the category's count; afterwards every count is 0 and every example
     * list empty, with the categories kept.
     */
    method Coletar(now: real) returns (metricas: seq<Metric>)
      requires Valid()
      modifies this
      ensures Valid()
      ensures metricas == ErrorMetrics(nome, old(contadores), now)
      ensures contadores == Reset(old(contadores), 0) && contextos == Reset(old(contextos), [])
      ensures registrados == 0
    {
      ghost var inicial := contadores;
      ghost var iniciais := contextos;
      KeysAlike(contadores, contextos);
      var cs, xs;
      metricas, cs, xs := Zerar(nome, contadores, contextos, now);
      contadores, contextos := cs, xs;
      registrados := 0;
      ResetKeeps(inicial, iniciais);
    }
  }

  /** The loop of `coletar`: one metric per category, each count set to 0 and each example list emptied in place. */
  method Zerar(nome: string, contadores: Dict<string, int>, contextos: Dict<string, seq<Ctx>>, now: real)
    returns (metricas: seq<Metric>, cs: Dict<string, int>, xs: Dict<string, seq<Ctx>>)
    requires |contadores| == |contextos| && forall j :: 0 <= j < |contadores| ==> contadores[j].0 == contextos[j].0
    ensures metricas == ErrorMetrics(nome, contadores, now)
    ensures cs == Reset(contadores, 0) && xs == Reset(contextos, [])
  {
    cs, xs := contadores, contextos;
    metricas := [];
    var i := 0;
    while i < |cs|
      invariant 0 <= i <= |contadores| == |contextos| == |cs| == |xs|
      invariant forall j :: 0 <= j < |contadores| ==> cs[j].0 == contadores[j].0 == xs[j].0
      invariant forall j :: 0 <= j < i ==> cs[j].1 == 0 && xs[j].1 == []
      invariant forall j :: i <= j < |contadores| ==> cs[j].1 == contadores[j].1
      invariant metricas == ErrorMetrics(nome, contadores[..i], now)
    {
      var (categoria, contador) := cs[i];
      assert contadores[..i + 1][..i] == contadores[..i];
      metricas := metricas + [ErrorMetric(nome, categoria, contador, now)];
      // `categoria` is already a key of both: the assignments overwrite entry `i` in place.
      cs := cs[i := (categoria, 0)];
      xs := xs[i := (categoria, [])];
      i := i + 1;
    }
    assert contadores[..i] == contadores;
    assert cs == Reset(contadores, 0);
    assert xs == Reset(contextos, []);
  }

  /** The example a registration keeps: the context when it is non-empty (Python truthiness). */
  function Example(contexto: Option<Ctx>): seq<Ctx>
  {
    if contexto.Some? && |contexto.value| > 0 then [contexto.value] else []
  }

  /** The metrics one collection emits, one per category in dictionary order. */
  function ErrorMetrics(nome: string, contadores: Dict<string, int>, now: real): (ms: seq<Metric>)
    ensures |ms| == |contadores|
    ensures forall i :: 0 <= i < |ms| ==> ms[i] == ErrorMetric(nome, contadores[i].0, contadores[i].1, now)
  {
    if |contadores| == 0 then []
    else ErrorMetrics(nome, contadores[..|contadores| - 1], now)
         + [ErrorMetric(nome, contadores[|contadores| - 1].0, contadores[|contadores| - 1].1, now)]
  }

  /** Every category kept, every value set back to `v`. */
  function Reset<V>(d: Dict<string, V>, v: V): (r: Dict<string, V>)
    ensures |r| == |d|
    ensures forall i :: 0 <= i < |r| ==> r[i] == (d[i].0, v)
  {
    if |d| == 0 then [] else Reset(d[..|d| - 1], v) + [(d[|d| - 1].0, v)]
  }

  /** The two dictionaries of a valid collector have the same key at every position. */
  lemma KeysAlike(a: Dict<string, int>, b: Dict<string, seq<Ctx>>)
    requires Keys(b) == Keys(a)
    ensures |a| == |b| && forall j :: 0 <= j < |a| ==> a[j].0 == b[j].0
  {
    assert forall j :: 0 <= j < |a| ==> a[j].0 == Keys(a)[j] == Keys(b)[j] == b[j].0;
  }

  /** A reset keeps the invariant of the collector with nothing registered. */
  lemma ResetKeeps(a: Dict<string, int>, b: Dict<string, seq<Ctx>>)
    requires DistinctKeys(a) && Keys(b) == Keys(a)
    ensures DistinctKeys(Reset(a, 0)) && Keys(Reset(b, [])) == Keys(Reset(a, 0))
    ensures Total(Reset(a, 0), Count) == 0
  {
    SumZero(Reset(a, 0));
    ResetKeys(a, 0);
    ResetKeys(b, []);
    ResetDistinct(a, 0);
  }

  /** A reset keeps the keys distinct. */
  lemma ResetDistinct<V>(d: Dict<string, V>, v: V)
    requires DistinctKeys(d)
    ensures DistinctKeys(Reset(d, v))
  {
    var r := Reset(d, v);
    forall i, j | 0 <= i < j < |r| ensures r[i].0 != r[j].0 {
      assert r[i].0 == d[i].0 && r[j].0 == d[j].0;
    }
  }

  /** A reset keeps the keys in their order. */
  lemma ResetKeys<V>(d: Dict<string, V>, v: V)
    ensures Keys(Reset(d, v)) == Keys(d)
  {
    var r := Reset(d, v);
    assert forall j :: 0 <= j < |d| ==> Keys(r)[j] == r[j].0 == d[j].0 == Keys(d)[j];
  }

  /** A registration keeps both dictionaries' keys in step and adds one to the total. */
  lemma RegisterKeeps(a: Dict<string, int>, b: Dict<string, seq<Ctx>>, k: string, n: int, e: seq<Ctx>)
    requires DistinctKeys(a) && Keys(b) == Keys(a)
    ensures DistinctKeys(Put(a, k, n)) && Keys(Put(b, k, e)) == Keys(Put(a, k, n))
    ensures Total(Put(a, k, n), Count) == Total(a, Count) - GetOr(a, k, 0) + n
  {
    PutKeys(a, k, n);
    PutKeys(b, k, e);
    PutDistinct(a, k, n);
    TotalPut(a, k, n, Count);
    GetFinds(a, k);
  }

  /** The values one collection emits add up to the errors registered since the previous one. */
  lemma {:induction false} CollectedTotal(nome: string, d: Dict<string, int>, now: real)
    ensures SumValores(ErrorMetrics(nome, d, now)) == Total(d, Count) as real
  {
    if |d| > 0 {
      CollectedTotal(nome, d[..|d| - 1], now);
      var ms := ErrorMetrics(nome, d, now);
      assert ms[..|ms| - 1] == ErrorMetrics(nome, d[..|d| - 1], now);
    }
  }

  lemma SameKeys(cats: seq<string>)
    ensures Keys(AllTo<int>(cats, 0)) == Keys(AllTo<seq<Ctx>>(cats, []))
  {
    AllToKeys<int>(cats, 0);
    AllToKeys<seq<Ctx>>(cats, []);
  }

  lemma {:induction false} AllToKeys<V>(cats: seq<string>, v: V)
    ensures Keys(AllTo(cats, v)) == KeysOf(cats)
  {
    if |cats| > 0 {
      AllToKeys(cats[..|cats| - 1], v);
      PutKeys(AllTo(cats[..|cats| - 1], v), cats[|cats| - 1], v);
    }
  }

  /** The keys `{cat: ... for cat in cats}` ends up with: first occurrences, in order. */
  function KeysOf(cats: seq<string>): seq<string>
  {
    if |cats| == 0 then []
    else
      var init := KeysOf(cats[..|cats| - 1]);
      if cats[|cats| - 1] in init then init else init + [cats[|cats| - 1]]
  }

  lemma {:induction false} SumZero(d: Dict<string, int>)
    requires forall i :: 0 <= i < |d| ==> d[i].1 == 0
    ensures Total(d, Count) == 0
  {
    if |d| > 0 {
      SumZero(d[..|d| - 1]);
    }
  }


  /** The measurements `ColetorLatencia` has recorded: value and context (`contexto or {}`). */
  class LatencyCollector {
    const nome: string
    const percentis: seq<real>
    var medicoes: seq<(real, Ctx)>

    constructor (nome: string, percentis: seq<real>)
      ensures this.nome == nome && medicoes == []
      ensures this.percentis == if |percentis| == 0 then [50.0, 90.0, 95.0, 99.0] else percentis
    {
      this.nome := nome;
      this.percentis := if |percentis| == 0 then [50.0, 90.0, 95.0, 99.0] else percentis;
      medicoes := [];
    }

    /** `registrar_latencia`: one measurement appended. */
    method RegistrarLatencia(valor: real, contexto: Option<Ctx>)
      modifies this
      ensures medicoes == old(medicoes) + [(valor, if contexto.Some? then contexto.value else [])]
    {
      medicoes := medicoes + [(valor, if contexto.Some? then contexto.value else [])];
    }

    /**
     * `coletar`: nothing without measurements; a configured percentile
     * outside [0, 100] makes numpy's percentile raise `ValueError` before
     * any metric is built or any measurement cleared; otherwise the mean,
     * the median and one metric per configured percentile (numpy's
     * percentile, supplied as `percentile`; `percentText` renders `p` as
     * Python's `str`), after which the measurements are cleared.
     */
    method Coletar(now: real, percentile: (seq<real>, real) -> real, percentText: real -> string)
      returns (r: Result<seq<Metric>>)
      modifies this
      ensures old(medicoes) == [] ==> r == Ok([]) && medicoes == []
      ensures old(medicoes) != [] && !PercentisValidos(percentis) ==> r == Err(PercentileRangeError) && medicoes == old(medicoes)
      ensures old(medicoes) != [] && PercentisValidos(percentis) ==>
        var valores := Readings(old(medicoes));
        && r.Ok? && medicoes == []
        && |r.value| == 2 + |percentis|
        && r.value[0] == NewMetric(nome + "_media", nome + "_media", Mean(valores), now, "latencia", "ms")
        && r.value[1] == NewMetric(nome + "_mediana", nome + "_mediana", Stats.Median(valores), now, "latencia", "ms")
        && forall i :: 0 <= i < |percentis| ==>
             r.value[2 + i] == NewMetric(nome + "_p" + percentText(percentis[i]), nome + "_p" + percentText(percentis[i]),
                                         percentile(valores, percentis[i]), now, "latencia", "ms")
    {
      if medicoes == [] {
        return Ok([]);
      }
      if !PercentisValidos(percentis) {
        return Err(PercentileRangeError);
      }
      var valores := Readings(medicoes);
      var metricas := [
        NewMetric(nome + "_media", nome + "_media", Mean(valores), now, "latencia", "ms"),
        NewMetric(nome + "_mediana", nome + "_mediana", Stats.Median(valores), now, "latencia", "ms")];
      var i := 0;
      while i < |percentis|
        invariant 0 <= i <= |percentis|
        invariant |metricas| == 2 + i
        invariant metricas[0].nome == nome + "_media" && metricas[0].valor == Mean(valores)
        invariant metricas[0] == NewMetric(nome + "_media", nome + "_media", Mean(valores), now, "latencia", "ms")
        invariant metricas[1] == NewMetric(nome + "_mediana", nome + "_mediana", Stats.Median(valores), now, "latencia", "ms")
        invariant forall j :: 0 <= j < i ==>
          metricas[2 + j] == NewMetric(nome + "_p" + percentText(percentis[j]), nome + "_p" + percentText(percentis[j]),
                                       percentile(valores, percentis[j]), now, "latencia", "ms")
      {
        var p := percentis[i];
        metricas := metricas + [NewMetric(nome + "_p" + percentText(p), nome + "_p" + percentText(p),
                                          percentile(valores, p), now, "latencia", "ms")];
        i := i + 1;
      }
      medicoes := [];
      r := Ok(metricas);
    }
  }

  const PercentileRangeError := "ValueError: Percentiles must be in the range [0, 100]"

  /** numpy's percentile accepts only percentiles within [0, 100]. */
  predicate PercentisValidos(ps: seq<real>)
  {
    forall i :: 0 <= i < |ps| ==> 0.0 <= ps[i] <= 100.0
  }

  function Readings(medicoes: seq<(real, Ctx)>): (vs: seq<real>)
    ensures |vs| == |medicoes|
    ensures forall i :: 0 <= i < |vs| ==> vs[i] == medicoes[i].0
  {
    seq(|medicoes|, i requires 0 <= i < |medicoes| => medicoes[i].0)
  }
}
