/**
 * The first-generation diagnosis `RedeNeuralDiagnostico`: a fixed weighted
 * score over normalised metrics, a threshold, a first-match cascade that
 * names the anomaly, and a fixed table of recommendations.
 */
module BasicDiagnosis {
  import opened Dicts
  import opened Seqs
  import opened BasicMonitoring

  /** `Diagnostico` of the first generation. */
  datatype Diagnostico = Diagnostico(
    anomaliaDetectada: bool,
    tipoAnomalia: string,
    nivelGravidade: real,
    recomendacoes: seq<string>)

  /** The output of `normalizar_metricas`. */
  datatype Normalizadas = Normalizadas(throughput: real, taxaErro: real, latencia: real, recursos: real)

  /** `pesos`. */
  const PesoThroughput: real := 0.3
  const PesoTaxaErro: real := 0.4
  const PesoLatencia: real := 0.2
  const PesoRecursos: real := 0.1

  /** `normalizar_metricas`: throughput per 1000, error and latency per 100, the resource sum per 300. */
  function Normalizar(m: Metricas): Normalizadas
  {
    Normalizadas(m.throughput / 1000.0, m.taxaErro / 100.0, m.latencia / 100.0, Sum(ValuesOf(m.usoRecursos)) / 300.0)
  }

  /** `processar_metricas`: the weighted sum of the normalised metrics. */
  function Score(m: Metricas): real
  {
    var n := Normalizar(m);
    n.throughput * PesoThroughput + n.taxaErro * PesoTaxaErro + n.latencia * PesoLatencia + n.recursos * PesoRecursos
  }

  /** The weights add up to one, so normalised values within [lo, hi] give a score within [lo, hi]. */
  lemma ScoreBetween(m: Metricas, lo: real, hi: real)
    requires var n := Normalizar(m);
      && lo <= n.throughput <= hi && lo <= n.taxaErro <= hi && lo <= n.latencia <= hi && lo <= n.recursos <= hi
    ensures lo <= Score(m) <= hi
  {
    assert PesoThroughput + PesoTaxaErro + PesoLatencia + PesoRecursos == 1.0;
  }

  /** A sample drawn from the monitor's ranges has every normalised value, and so its score, within [0, 1]. */
  lemma SampleScore(m: Metricas)
    requires InRanges(m)
    ensures var n := Normalizar(m);
      && 0.0 <= n.throughput <= 1.0 && 0.0 <= n.taxaErro <= 1.0 && 0.0 <= n.latencia <= 1.0 && 0.0 <= n.recursos <= 1.0
    ensures 0.0 <= Score(m) <= 1.0
  {
    var a, b, c := m.usoRecursos[0].1, m.usoRecursos[1].1, m.usoRecursos[2].1;
    var vs: seq<real> := ValuesOf(m.usoRecursos);
    assert vs == [a, b, c];
    assert Sum(vs) == a + b + c by {
      assert vs[..2] == [a, b];
      assert [a, b][..1] == [a];
      assert [a][..0] == [];
      assert Sum([a]) == a;
      assert Sum([a, b]) == a + b;
    }
    ScoreBetween(m, 0.0, 1.0);
  }

  /** `_identificar_tipo_anomalia`: the first threshold exceeded names the anomaly. */
  function TipoAnomalia(m: Metricas): string
  {
    if m.taxaErro > 3.0 then "erro_sistema"
    else if m.latencia > 80.0 then "latencia_alta"
    else if m.throughput > 800.0 then "sobrecarga"
    else if SomeAbove(m.usoRecursos, 70.0) then "recursos_insuficientes"
    else "normal"
  }

  /**
   * The named anomaly is the first flag `detectar_anomalias` raises for the
   * same sample, in the order error rate, latency, throughput, resources;
   * "normal" exactly when it raises none.
   */
  lemma TipoMatchesFlags(m: Metricas)
    ensures var f := FlagsOf(m);
      && (TipoAnomalia(m) == "erro_sistema" <==> f.taxaErroAlta)
      && (TipoAnomalia(m) == "latencia_alta" <==> !f.taxaErroAlta && f.latenciaAlta)
      && (TipoAnomalia(m) == "sobrecarga" <==> !f.taxaErroAlta && !f.latenciaAlta && f.throughputAlto)
      && (TipoAnomalia(m) == "recursos_insuficientes" <==>
          !f.taxaErroAlta && !f.latenciaAlta && !f.throughputAlto && f.recursosAltos)
      && (TipoAnomalia(m) == "normal" <==> !f.taxaErroAlta && !f.latenciaAlta && !f.throughputAlto && !f.recursosAltos)
  {
  }

  const RecErroSistema: seq<string> :=
    ["Verificar logs de erro", "Avaliar integridade dos dados", "Considerar rollback da última atualização"]
  const RecLatencia: seq<string> :=
    ["Otimizar consultas ao banco de dados", "Avaliar necessidade de cache", "Considerar escalonamento horizontal"]
  const RecSobrecarga: seq<string> :=
    ["Implementar rate limiting", "Avaliar escalonamento automático", "Otimizar processamento em lote"]
  const RecRecursos: seq<string> :=
    ["Avaliar alocação de recursos", "Considerar otimização de memória", "Verificar vazamentos de recursos"]

  /** `_gerar_recomendacoes`: the fixed advice for each anomaly, none for any other type. */
  function Recomendacoes(tipo: string): seq<string>
  {
    if tipo == "erro_sistema" then RecErroSistema
    else if tipo == "latencia_alta" then RecLatencia
    else if tipo == "sobrecarga" then RecSobrecarga
    else if tipo == "recursos_insuficientes" then RecRecursos
    else []
  }

  /** Each of the four anomalies gets three recommendations, and every other type none. */
  lemma RecomendacoesCount(tipo: string)
    ensures |Recomendacoes(tipo)| == if tipo in {"erro_sistema", "latencia_alta", "sobrecarga", "recursos_insuficientes"} then 3 else 0
  {
  }

  /** `gerar_diagnostico`. */
  function GerarDiagnostico(m: Metricas): Diagnostico
  {
    var score := Score(m);
    var tipo := TipoAnomalia(m);
    Diagnostico(score > 0.7, tipo, if 1.0 <= score then 1.0 else score, Recomendacoes(tipo))
  }

  /**
   * An anomaly is reported exactly when the score exceeds 0.7; the severity
   * is the score capped at 1, so a reported anomaly has severity above 0.7;
   * there are recommendations exactly when some threshold is exceeded.
   */
  lemma GerarDiagnosticoProperties(m: Metricas)
    ensures var d := GerarDiagnostico(m);
      && (d.anomaliaDetectada <==> Score(m) > 0.7)
      && d.nivelGravidade <= 1.0
      && d.nivelGravidade <= Score(m)
      && (Score(m) <= 1.0 ==> d.nivelGravidade == Score(m))
      && (d.anomaliaDetectada ==> d.nivelGravidade > 0.7)
      && (|d.recomendacoes| == 3 <==> d.tipoAnomalia != "normal")
      && (|d.recomendacoes| == 0 <==> d.tipoAnomalia == "normal")
  {
    RecomendacoesCount(TipoAnomalia(m));
  }
}
