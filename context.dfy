/**
 * `ProcessadorContexto` and `AnalisadorFluxoContínuo` of
 * src/monitoramento/monitoramento.py: context enrichment of a metric from
 * global values and per-dimension processors, and per-dimension sliding
 * windows of the newest metrics with per-name window statistics.
 */
module Context {
  import opened Wrappers
  import opened Dicts
  import opened Values
  import opened Seqs
  import opened Metric
  import Stats

  /** A context processor: `Err` stands for the exception it may raise. */
  type Processor = (Metric, Ctx) -> Result<Ctx>

  /** The loop over the global context: each global key absent from the context is added. */
  function AddGlobals(ctx: Ctx, globais: Ctx): Ctx
  {
    if |globais| == 0 then ctx
    else
      var before := AddGlobals(ctx, globais[..|globais| - 1]);
      var (chave, valor) := globais[|globais| - 1];
      if HasKey(before, chave) then before else Put(before, chave, valor)
  }

  /**
   * The loop over a dimension's processors: each is called on the ORIGINAL
   * metric and the global context; a non-empty result updates the context,
   * an empty one or an exception leaves it as it is.
   */
  function ApplyProcessors(ctx: Ctx, procs: seq<Processor>, original: Metric, globais: Ctx): Ctx
  {
    if |procs| == 0 then ctx
    else
      var before := ApplyProcessors(ctx, procs[..|procs| - 1], original, globais);
      match procs[|procs| - 1](original, globais)
      case Ok(adicional) => if |adicional| > 0 then Update(before, adicional) else before
      case Err(_) => before
  }

  /** The copy `processar` starts from: tags and metadados are not copied. */
  function Copy(m: Metric): Metric
  {
    NewMetric(m.id, m.nome, m.valor, m.timestamp, m.dimensao, m.unidade).(contexto := m.contexto, confianca := m.confianca)
  }

  class ContextProcessor {
    var globais: Ctx
    var processadores: map<string, seq<Processor>>

    /** The global context is a dictionary: no key appears twice. */
    ghost predicate Valid()
      reads this
    {
      DistinctKeys(globais)
    }

    constructor ()
      ensures Valid()
      ensures globais == [] && processadores == map[]
    {
      globais := [];
      processadores := map[];
    }

    /** `adicionar_contexto_global`. */
    method AdicionarContextoGlobal(chave: string, valor: Value)
      requires Valid()
      modifies this
      ensures Valid()
      ensures globais == Put(old(globais), chave, valor)
      ensures processadores == old(processadores)
    {
      PutDistinct(globais, chave, valor);
      globais := Put(globais, chave, valor);
    }

    /** `registrar_processador`: appended to the dimension's processors. */
    method RegistrarProcessador(dimensao: string, p: Processor)
      requires Valid()
      modifies this
      ensures Valid()
      ensures processadores == old(processadores)[dimensao :=
        (if dimensao in old(processadores) then old(processadores)[dimensao] else []) + [p]]
      ensures globais == old(globais)
    {
      var atuais := if dimensao in processadores then processadores[dimensao] else [];
      processadores := processadores[dimensao := atuais + [p]];
    }

    function ProcessorsFor(dimensao: string): seq<Processor>
      reads this
    {
      if dimensao in processadores then processadores[dimensao] else []
    }

    /**
     * `processar`: a copy of the metric whose context gets every global key
     * it lacks and then the non-empty outputs of the dimension's processors.
     */
    method Processar(m: Metric) returns (r: Metric)
      requires Valid()
      ensures r == Copy(m).(contexto := ApplyProcessors(AddGlobals(m.contexto, globais), ProcessorsFor(m.dimensao), m, globais))
      ensures forall k :: Get(AddGlobals(m.contexto, globais), k) == if HasKey(m.contexto, k) then Get(m.contexto, k) else Get(globais, k)
    {
      forall k ensures Get(AddGlobals(m.contexto, globais), k) == if HasKey(m.contexto, k) then Get(m.contexto, k) else Get(globais, k) {
        AddGlobalsGet(m.contexto, globais, k);
      }
      r := Copy(m);
      var i := 0;
      while i < |globais|
        invariant 0 <= i <= |globais|
        invariant r == Copy(m).(contexto := AddGlobals(m.contexto, globais[..i]))
      {
        var (chave, valor) := globais[i];
        assert globais[..i + 1][..i] == globais[..i];
        if !HasKey(r.contexto, chave) {
          r := r.(contexto := Put(r.contexto, chave, valor));
        }
        i := i + 1;
      }
      assert globais[..i] == globais;
      ghost var enriched := r.contexto;
      var procs := ProcessorsFor(m.dimensao);
      var j := 0;
      while j < |procs|
        invariant 0 <= j <= |procs|
        invariant r == Copy(m).(contexto := ApplyProcessors(enriched, procs[..j], m, globais))
      {
        assert procs[..j + 1][..j] == procs[..j];
        var resultado := procs[j](m, globais);
        if resultado.Ok? && |resultado.value| > 0 {
          r := r.(contexto := Update(r.contexto, resultado.value));
        }
        j := j + 1;
      }
      assert procs[..j] == procs;
    }
  }

  /**
   * Global values fill only the gaps: a key of the metric's own context
   * keeps its value, a missing key takes the global value.
   */
  lemma {:induction false} AddGlobalsGet(ctx: Ctx, globais: Ctx, k: string)
    requires DistinctKeys(globais)
    ensures Get(AddGlobals(ctx, globais), k) == if HasKey(ctx, k) then Get(ctx, k) else Get(globais, k)
  {
    GetFinds(ctx, k);
    if |globais| > 0 {
      var init := globais[..|globais| - 1];
      var (chave, valor) := globais[|globais| - 1];
      AddGlobalsGet(ctx, init, k);
      var before := AddGlobals(ctx, init);
      GetFinds(before, k);
      LastGet(globais, k);
      if chave == k && !HasKey(ctx, k) {
        GetFinds(init, k);
      }
    }
  }

  /** Keys no processor returned keep the value the global step gave them. */
  lemma {:induction false} ProcessorsKeepOthers(ctx: Ctx, procs: seq<Processor>, original: Metric, globais: Ctx, k: string)
    requires forall i :: 0 <= i < |procs| && procs[i](original, globais).Ok? ==> !HasKey(procs[i](original, globais).value, k)
    ensures Get(ApplyProcessors(ctx, procs, original, globais), k) == Get(ctx, k)
  {
    if |procs| > 0 {
      ProcessorsKeepOthers(ctx, procs[..|procs| - 1], original, globais, k);
    }
  }

  /** The last processor that returns a key decides its value. */
  lemma LastProcessorWins(ctx: Ctx, procs: seq<Processor>, original: Metric, globais: Ctx, k: string)
    requires |procs| > 0
    requires procs[|procs| - 1](original, globais).Ok?
    requires DistinctKeys(procs[|procs| - 1](original, globais).value)
    requires HasKey(procs[|procs| - 1](original, globais).value, k)
    ensures Get(ApplyProcessors(ctx, procs, original, globais), k) == Get(procs[|procs| - 1](original, globais).value, k)
  {
    var adicional := procs[|procs| - 1](original, globais).value;
    UpdateGet(ApplyProcessors(ctx, procs[..|procs| - 1], original, globais), adicional, k);
  }

  /** After an update, a key of the update has the update's value. */
  lemma {:induction false} UpdateGet(d: Ctx, e: Ctx, k: string)
    requires DistinctKeys(e) && HasKey(e, k)
    ensures Get(Update(d, e), k) == Get(e, k)
    decreases |e|
  {
    assert Keys(e) == [e[0].0] + Keys(e[1..]);
    if e[0].0 != k {
      UpdateGet(Put(d, e[0].0, e[0].1), e[1..], k);
    } else {
      GetFinds(e[1..], k);
    }
  }

  /** The processed metric keeps identity and measurement, drops tags and metadados. */
  lemma ProcessedFields(m: Metric, ctx: Ctx)
    ensures var r := Copy(m).(contexto := ctx);
      && r.id == m.id && r.nome == m.nome && r.valor == m.valor && r.timestamp == m.timestamp
      && r.dimensao == m.dimensao && r.unidade == m.unidade && r.confianca == m.confianca
      && r.tags == [] && r.metadados == [] && r.contexto == ctx
  {
  }

  /** The per-name statistics of `calcular_estatisticas_janela`. */
  datatype NameStats = NameStats(summary: Stats.Summary, ultimaAtualizacao: real)

  class StreamAnalyzer {
    const tamanhoJanela: nat
    var janelas: map<string, seq<Metric>>
    var callbacks: map<string, nat>

    ghost predicate Valid()
      reads this
    {
      forall d :: d in janelas ==> |janelas[d]| <= tamanhoJanela
    }

    constructor (tamanhoJanela: nat)
      ensures Valid() && this.tamanhoJanela == tamanhoJanela
      ensures janelas == map[] && callbacks == map[]
    {
      this.tamanhoJanela := tamanhoJanela;
      janelas := map[];
      callbacks := map[];
    }

    /** `registrar_callback`: one more callback for the dimension. */
    method RegistrarCallback(dimensao: string)
      modifies this
      ensures callbacks == old(callbacks)[dimensao := (if dimensao in old(callbacks) then old(callbacks)[dimensao] else 0) + 1]
      ensures janelas == old(janelas)
    {
      var n := if dimensao in callbacks then callbacks[dimensao] else 0;
      callbacks := callbacks[dimensao := n + 1];
    }

    /**
     * `processar_metrica`: the metric enters its dimension's bounded window
     * (a deque of `tamanho_janela`), and each of the dimension's callbacks
     * is handed the window as it now is; the calls made are returned.
     */
    method ProcessarMetrica(m: Metric) returns (chamadas: seq<seq<Metric>>)
      requires Valid()
      modifies this
      ensures Valid()
      ensures janelas == old(janelas)[m.dimensao :=
        Newest((if m.dimensao in old(janelas) then old(janelas)[m.dimensao] else []) + [m], tamanhoJanela)]
      ensures callbacks == old(callbacks)
      ensures |chamadas| == if m.dimensao in callbacks then callbacks[m.dimensao] else 0
      ensures forall i :: 0 <= i < |chamadas| ==> chamadas[i] == janelas[m.dimensao]
    {
      var atual := if m.dimensao in janelas then janelas[m.dimensao] else [];
      var nova := Newest(atual + [m], tamanhoJanela);
      janelas := janelas[m.dimensao := nova];
      chamadas := [];
      if m.dimensao in callbacks {
        var i := 0;
        while i < callbacks[m.dimensao]
          invariant 0 <= i <= callbacks[m.dimensao]
          invariant |chamadas| == i
          invariant forall j :: 0 <= j < i ==> chamadas[j] == nova
        {
          chamadas := chamadas + [nova];
          i := i + 1;
        }
      }
    }

    /** `obter_janela`: [] for a dimension never seen. */
    function ObterJanela(dimensao: string): (r: seq<Metric>)
      reads this
      ensures dimensao !in janelas ==> r == []
      ensures dimensao in janelas ==> r == janelas[dimensao]
    {
      if dimensao in janelas then janelas[dimensao] else []
    }
  }

  /** The window keeps the newest metrics, in arrival order, however many arrived. */
  lemma WindowNewest(antes: seq<Metric>, novos: seq<Metric>, cap: nat)
    ensures Newest(Newest(antes, cap) + novos, cap) == Newest(antes + novos, cap)
    ensures |Newest(antes + novos, cap)| <= cap
  {
    NewestAppend(antes, novos, cap);
  }

  /** Groups a window's metrics by name, in order of first appearance. */
  function GroupByName(ms: seq<Metric>): (g: Dict<string, seq<Metric>>)
    ensures DistinctKeys(g)
    ensures forall i :: 0 <= i < |g| ==> |g[i].1| > 0
  {
    if |ms| == 0 then []
    else
      var before := GroupByName(ms[..|ms| - 1]);
      var m := ms[|ms| - 1];
      PutDistinct(before, m.nome, GetOr(before, m.nome, []) + [m]);
      PutNonEmpty(before, m.nome, GetOr(before, m.nome, []) + [m]);
      Put(before, m.nome, GetOr(before, m.nome, []) + [m])
  }

  lemma {:induction false} PutNonEmpty(d: Dict<string, seq<Metric>>, k: string, v: seq<Metric>)
    requires forall i :: 0 <= i < |d| ==> |d[i].1| > 0
    requires |v| > 0
    ensures forall i :: 0 <= i < |Put(d, k, v)| ==> |Put(d, k, v)[i].1| > 0
  {
    if |d| > 0 && d[0].0 != k {
      PutNonEmpty(d[1..], k, v);
    }
  }

  function Size(ms: seq<Metric>): int
  {
    |ms|
  }

  /** The per-name counts add up to the window's length, and every group holds only its own name. */
  lemma {:induction false} GroupByNameSizes(ms: seq<Metric>)
    ensures Total(GroupByName(ms), Size) == |ms|
    ensures forall k, x :: Get(GroupByName(ms), k).Some? && x in Get(GroupByName(ms), k).value ==> x.nome == k && x in ms
  {
    GroupByNameTotal(ms);
    GroupByNameMembers(ms);
  }

  lemma {:induction false} GroupByNameTotal(ms: seq<Metric>)
    ensures Total(GroupByName(ms), Size) == |ms|
  {
    if |ms| > 0 {
      var init := ms[..|ms| - 1];
      var before := GroupByName(init);
      var m := ms[|ms| - 1];
      GroupByNameTotal(init);
      TotalPut(before, m.nome, GetOr(before, m.nome, []) + [m], Size);
    }
  }

  lemma {:induction false} GroupByNameMembers(ms: seq<Metric>)
    ensures forall k, x :: Get(GroupByName(ms), k).Some? && x in Get(GroupByName(ms), k).value ==> x.nome == k && x in ms
  {
    if |ms| > 0 {
      var init := ms[..|ms| - 1];
      var before := GroupByName(init);
      var m := ms[|ms| - 1];
      var v := GetOr(before, m.nome, []) + [m];
      GroupByNameMembers(init);
      assert GroupByName(ms) == Put(before, m.nome, v);
      forall k, x | Get(GroupByName(ms), k).Some? && x in Get(GroupByName(ms), k).value
        ensures x.nome == k && x in ms
      {
        if k != m.nome {
          assert Get(GroupByName(ms), k) == Get(before, k);
          assert x in init;
        } else {
          assert Get(GroupByName(ms), k).value == v;
        }
      }
    }
  }

  /** The statistics of one group: its summary and its latest timestamp. */
  function GroupStats(ms: seq<Metric>, stdDev: seq<real> -> real): (r: NameStats)
    requires |ms| > 0
    ensures r.summary.contagem == |ms|
  {
    var vs := seq(|ms|, i requires 0 <= i < |ms| => ms[i].valor);
    var ts := seq(|ms|, i requires 0 <= i < |ms| => ms[i].timestamp);
    NameStats(Stats.Summarize(vs, stdDev).value, Max(ts))
  }

  function StatsOf(g: Dict<string, seq<Metric>>, stdDev: seq<real> -> real): (r: Dict<string, NameStats>)
    requires forall i :: 0 <= i < |g| ==> |g[i].1| > 0
    ensures |r| == |g|
    ensures forall i :: 0 <= i < |g| ==> r[i].0 == g[i].0 && r[i].1 == GroupStats(g[i].1, stdDev)
  {
    seq(|g|, i requires 0 <= i < |g| => (g[i].0, GroupStats(g[i].1, stdDev)))
  }

  /** `calcular_estatisticas_janela` on a window: the statistics of each name's values, {} for an empty window. */
  function WindowStats(janela: seq<Metric>, stdDev: seq<real> -> real): (r: Dict<string, NameStats>)
  {
    StatsOf(GroupByName(janela), stdDev)
  }

  function Contagem(s: NameStats): int
  {
    s.summary.contagem
  }

  /** The per-name counts of the window statistics add up to the window's length. */
  lemma WindowStatsCounts(janela: seq<Metric>, stdDev: seq<real> -> real)
    ensures Total(WindowStats(janela, stdDev), Contagem) == |janela|
    ensures |janela| == 0 ==> WindowStats(janela, stdDev) == []
  {
    GroupByNameSizes(janela);
    StatsTotal(GroupByName(janela), stdDev);
  }

  lemma {:induction false} StatsTotal(g: Dict<string, seq<Metric>>, stdDev: seq<real> -> real)
    requires forall i :: 0 <= i < |g| ==> |g[i].1| > 0
    ensures Total(StatsOf(g, stdDev), Contagem) == Total(g, Size)
  {
    if |g| > 0 {
      StatsTotal(g[..|g| - 1], stdDev);
      var r := StatsOf(g, stdDev);
      var q := StatsOf(g[..|g| - 1], stdDev);
      assert forall i :: 0 <= i < |q| ==> r[..|r| - 1][i] == q[i];
      assert r[..|r| - 1] == q;
    }
  }
}
