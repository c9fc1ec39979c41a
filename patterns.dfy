/**
 * `PadraoAnomalia.corresponde` and the dictionary form of `Diagnostico`
 * (src/diagnostico/diagnostico.py). A pattern's custom detection function
 * is a handle interpreted by `detect`; Pearson's correlation is supplied as
 * `pearson`.
 */
module Patterns {
  import opened Wrappers
  import opened Dicts
  import opened Values
  import opened Seqs
  import opened Sorting
  import opened Metric

  datatype Pattern = Pattern(
    id: string,
    nome: string,
    dimensoes: seq<string>,
    metricasRelacionadas: seq<string>,
    limiarConfianca: real,
    /** `padrao_temporal`; None and [] behave alike and are both []. */
    padraoTemporal: seq<real>,
    detector: Option<nat>,
    descricao: string)

  /** A custom detector: `Err` stands for the exception it may raise. */
  type Detector = (nat, seq<Metric>, Ctx) -> Result<(bool, real)>

  function Timestamp(m: Metric): real
  {
    m.timestamp
  }

  /** The metrics whose name is one of the pattern's related metrics, in order. */
  function Relevant(ms: seq<Metric>, nomes: seq<string>): (r: seq<Metric>)
    ensures |r| <= |ms|
    ensures forall m :: m in r <==> m in ms && m.nome in nomes
  {
    if |ms| == 0 then []
    else (if ms[0].nome in nomes then [ms[0]] else []) + Relevant(ms[1..], nomes)
  }

  predicate AllPresent(ms: seq<Metric>, nomes: seq<string>)
  {
    forall n :: n in nomes ==> exists m :: m in ms && m.nome == n
  }

  /** `(v - min) / (max - min + 1e-10)` for every value. */
  function Normalize(vs: seq<real>): (r: seq<real>)
    requires |vs| > 0
    ensures |r| == |vs|
  {
    var lo, hi := Min(vs), Max(vs);
    seq(|vs|, i requires 0 <= i < |vs| => (vs[i] - lo) / (hi - lo + 0.0000000001))
  }

  /** `k in limites`, for the kinds of value a context may hold there. */
  function InLimits(limites: Value, nome: string): Result<bool>
  {
    match limites
    case VDict(es) => Ok(HasKey(es, nome))
    case VList(items) => Ok(VStr(nome) in items)
    case VStr(s) => Ok(Text.Contains(s, nome))
    case _ => Err("TypeError: argument of type is not iterable")
  }

  /** `min_val, max_val = limites[nome]`: a pair of numbers is required. */
  function Bounds(limites: Value, nome: string): Result<(real, real)>
  {
    if !limites.VDict? then Err("TypeError: indices must be integers")
    else
      var b :- Field(limites.entries, nome);
      if b.VList? && |b.items| == 2 && NumOf(b.items[0]).Some? && NumOf(b.items[1]).Some? then
        Ok((NumOf(b.items[0]).value, NumOf(b.items[1]).value))
      else Err("TypeError: a pair of numbers is required")
  }

  /** The number of relevant metrics that have bounds and lie outside them. */
  function CountOutside(ms: seq<Metric>, limites: Value): (r: Result<nat>)
    ensures r.Ok? ==> r.value <= |ms|
  {
    if |ms| == 0 then Ok(0)
    else
      var m := ms[0];
      var dentro :- InLimits(limites, m.nome);
      var aqui :- if dentro then
          var (lo, hi) :- Bounds(limites, m.nome);
          Ok(if m.valor < lo || m.valor > hi then 1 else 0)
        else Ok(0);
      var resto :- CountOutside(ms[1..], limites);
      Ok(aqui + resto)
  }

  /** Whether the temporal shape applies: a non-empty shape and enough relevant metrics. */
  predicate TemporalApplies(p: Pattern, relevantes: seq<Metric>)
  {
    |p.padraoTemporal| > 0 && |relevantes| >= |p.padraoTemporal|
  }

  /** The shape comparison: newest values against the shape, both normalised, correlation mapped to [0, 1]. */
  function TemporalMatch(p: Pattern, relevantes: seq<Metric>, pearson: (seq<real>, seq<real>) -> real): Result<(bool, real)>
    requires TemporalApplies(p, relevantes)
  {
    SortByAscending(relevantes, Timestamp);
    var ordenadas := SortBy(relevantes, Timestamp);
    var n := |p.padraoTemporal|;
    var ultimas := ordenadas[|ordenadas| - n..];
    var valores := seq(n, i requires 0 <= i < n => ultimas[i].valor);
    if n < 2 then Err("ValueError: x and y must have length at least 2")
    else
      var corr := pearson(Normalize(valores), Normalize(p.padraoTemporal));
      var confianca := if (corr + 1.0) / 2.0 > 0.0 then (corr + 1.0) / 2.0 else 0.0;
      Ok((confianca >= p.limiarConfianca, confianca))
  }

  /** The limits check: the share of relevant metrics outside their bounds. */
  function LimitsMatch(p: Pattern, relevantes: seq<Metric>, limites: Value): Result<(bool, real)>
  {
    var fora :- CountOutside(relevantes, limites);
    var confianca := if |relevantes| > 0 then fora as real / |relevantes| as real else 0.0;
    Ok((confianca >= p.limiarConfianca, confianca))
  }

  /**
   * `corresponde`: a custom detector decides alone (an exception is no
   * match); otherwise every related metric must be present, then the
   * temporal shape is compared if it applies, else the context's
   * `limites`, else there is no match. An exception outside the custom
   * detector reaches the caller as `Err`.
   */
  function Corresponde(p: Pattern, ms: seq<Metric>, contexto: Ctx, detect: Detector,
                       pearson: (seq<real>, seq<real>) -> real): Result<(bool, real)>
  {
    if p.detector.Some? then
      match detect(p.detector.value, ms, contexto)
      case Ok(r) => Ok(r)
      case Err(_) => Ok((false, 0.0))
    else if !AllPresent(ms, p.metricasRelacionadas) then Ok((false, 0.0))
    else
      var relevantes := Relevant(ms, p.metricasRelacionadas);
      if TemporalApplies(p, relevantes) then TemporalMatch(p, relevantes, pearson)
      else
        // `contexto and "limites" in contexto`: a context holding the key is non-empty.
        match Get(contexto, "limites")
        case Some(limites) => LimitsMatch(p, relevantes, limites)
        case None => Ok((false, 0.0))
  }

  /** The three ways `corresponde` answers (False, 0.0). */
  lemma NoMatchCases(p: Pattern, ms: seq<Metric>, contexto: Ctx, detect: Detector, pearson: (seq<real>, seq<real>) -> real)
    ensures p.detector.Some? && detect(p.detector.value, ms, contexto).Err? ==>
      Corresponde(p, ms, contexto, detect, pearson) == Ok((false, 0.0))
    ensures p.detector.None? && (exists n :: n in p.metricasRelacionadas && forall m :: m in ms ==> m.nome != n) ==>
      Corresponde(p, ms, contexto, detect, pearson) == Ok((false, 0.0))
    ensures (p.detector.None? && AllPresent(ms, p.metricasRelacionadas)
             && !TemporalApplies(p, Relevant(ms, p.metricasRelacionadas)) && !HasKey(contexto, "limites")) ==>
      Corresponde(p, ms, contexto, detect, pearson) == Ok((false, 0.0))
  {
    GetFinds(contexto, "limites");
  }

  /**
   * On the limits path the confidence is a share of the relevant metrics,
   * so it lies in [0, 1], and the pattern matches exactly when the
   * confidence reaches the pattern's threshold.
   */
  lemma LimitsConfidence(p: Pattern, ms: seq<Metric>, contexto: Ctx, detect: Detector, pearson: (seq<real>, seq<real>) -> real)
    requires p.detector.None? && AllPresent(ms, p.metricasRelacionadas)
    requires !TemporalApplies(p, Relevant(ms, p.metricasRelacionadas)) && HasKey(contexto, "limites")
    ensures var r := Corresponde(p, ms, contexto, detect, pearson);
      r.Ok? ==> 0.0 <= r.value.1 <= 1.0 && (r.value.0 <==> r.value.1 >= p.limiarConfianca)
  {
    GetFinds(contexto, "limites");
    var relevantes := Relevant(ms, p.metricasRelacionadas);
    var limites := Get(contexto, "limites").value;
    assert Corresponde(p, ms, contexto, detect, pearson) == LimitsMatch(p, relevantes, limites);
    LimitsShare(p, relevantes, limites);
  }

  lemma LimitsShare(p: Pattern, relevantes: seq<Metric>, limites: Value)
    ensures var r := LimitsMatch(p, relevantes, limites);
      r.Ok? ==> 0.0 <= r.value.1 <= 1.0 && (r.value.0 <==> r.value.1 >= p.limiarConfianca)
  {
    var c := CountOutside(relevantes, limites);
    if c.Ok? && |relevantes| > 0 {
      DivBetween(c.value as real, |relevantes| as real, 0.0, 1.0);
    }
  }

  /** On the shape path the confidence is never negative and decides the match against the threshold. */
  lemma TemporalConfidence(p: Pattern, ms: seq<Metric>, contexto: Ctx, detect: Detector, pearson: (seq<real>, seq<real>) -> real)
    requires p.detector.None? && AllPresent(ms, p.metricasRelacionadas)
    requires TemporalApplies(p, Relevant(ms, p.metricasRelacionadas))
    ensures var r := Corresponde(p, ms, contexto, detect, pearson);
      && (r.Err? <==> |p.padraoTemporal| < 2)
      && (r.Ok? ==> 0.0 <= r.value.1 && (r.value.0 <==> r.value.1 >= p.limiarConfianca))
  {
  }

  /** A diagnosis: anomalies with their confidence, the metrics analysed, the root cause and advice. */
  datatype Diagnosis = Diagnosis(
    id: string,
    timestamp: real,
    anomalias: seq<(Pattern, real)>,
    metricas: seq<Metric>,
    causaRaiz: Option<string>,
    confianca: real,
    recomendacoes: seq<string>,
    contexto: Ctx)

  function AnomalyValue(a: (Pattern, real)): Value
  {
    VDict([("id", VStr(a.0.id)), ("nome", VStr(a.0.nome)), ("confianca", VReal(a.1))])
  }

  function AnomaliesValue(anoms: seq<(Pattern, real)>): (vs: seq<Value>)
    ensures |vs| == |anoms|
  {
    if |anoms| == 0 then [] else [AnomalyValue(anoms[0])] + AnomaliesValue(anoms[1..])
  }

  function MetricsValue(ms: seq<Metric>): (vs: seq<Value>)
    ensures |vs| == |ms|
  {
    if |ms| == 0 then [] else [ToValue(ms[0])] + MetricsValue(ms[1..])
  }

  function OptStrValue(o: Option<string>): Value
  {
    if o.Some? then VStr(o.value) else VNone
  }

  function AsOptStr(v: Value): Result<Option<string>>
  {
    match v
    case VNone => Ok(None)
    case VStr(s) => Ok(Some(s))
    case _ => Err("TypeError: a string or None is required")
  }

  /** `Diagnostico.to_dict`. */
  function DiagnosisToValue(d: Diagnosis): Value
  {
    VDict([
      ("id", VStr(d.id)),
      ("timestamp", VReal(d.timestamp)),
      ("anomalias", VList(AnomaliesValue(d.anomalias))),
      ("metricas_analisadas", VList(MetricsValue(d.metricas))),
      ("causa_raiz", OptStrValue(d.causaRaiz)),
      ("confianca", VReal(d.confianca)),
      ("recomendacoes", StrList(d.recomendacoes)),
      ("contexto", VDict(d.contexto))])
  }

  /** The anomalies of a dictionary whose id is in the catalogue, as the catalogue's patterns. */
  function AnomaliesFrom(vs: seq<Value>, catalogo: Dict<string, Pattern>): Result<seq<(Pattern, real)>>
  {
    if |vs| == 0 then Ok([])
    else
      var a :- AsDict(vs[0]);
      var id :- StrField(a, "id");
      var resto :- AnomaliesFrom(vs[1..], catalogo);
      match Get(catalogo, id)
      case Some(p) =>
        var c :- RealField(a, "confianca");
        Ok([(p, c)] + resto)
      case None => Ok(resto)
  }

  function MetricsFrom(vs: seq<Value>): Result<seq<Metric>>
  {
    if |vs| == 0 then Ok([])
    else
      var m :- FromValue(vs[0]);
      var resto :- MetricsFrom(vs[1..]);
      Ok([m] + resto)
  }

  /**
   * `Diagnostico.from_dict` against a catalogue: anomalies whose id is not
   * catalogued are dropped; causa_raiz, confianca, recomendacoes and
   * contexto default to None, 0.0, [] and {}.
   */
  function DiagnosisFromValue(v: Value, catalogo: Dict<string, Pattern>): Result<Diagnosis>
  {
    var d :- AsDict(v);
    var (id, timestamp, anomalias, metricas) :- DiagnosisRequired(d, catalogo);
    var (causa, confianca, recomendacoes, contexto) :- DiagnosisOptional(d);
    Ok(Diagnosis(id, timestamp, anomalias, metricas, causa, confianca, recomendacoes, contexto))
  }

  function DiagnosisRequired(d: Ctx, catalogo: Dict<string, Pattern>): Result<(string, real, seq<(Pattern, real)>, seq<Metric>)>
  {
    var anomalias :- DiagnosisAnomalies(d, catalogo);
    var metricas :- DiagnosisMetrics(d);
    var id :- StrField(d, "id");
    var timestamp :- RealField(d, "timestamp");
    Ok((id, timestamp, anomalias, metricas))
  }

  function DiagnosisOptional(d: Ctx): Result<(Option<string>, real, seq<string>, Ctx)>
  {
    var causa :- AsOptStr(FieldOr(d, "causa_raiz", VNone));
    var confianca :- AsReal(FieldOr(d, "confianca", VReal(0.0)));
    var recomendacoes :- FromStrList(FieldOr(d, "recomendacoes", VList([])));
    var contexto :- AsDict(FieldOr(d, "contexto", VDict([])));
    Ok((causa, confianca, recomendacoes, contexto))
  }

  function DiagnosisAnomalies(d: Ctx, catalogo: Dict<string, Pattern>): Result<seq<(Pattern, real)>>
  {
    var v :- Field(d, "anomalias");
    if v.VList? then AnomaliesFrom(v.items, catalogo) else Err("TypeError: a list is required")
  }

  function DiagnosisMetrics(d: Ctx): Result<seq<Metric>>
  {
    var v :- Field(d, "metricas_analisadas");
    if v.VList? then MetricsFrom(v.items) else Err("TypeError: a list is required")
  }

  /** The anomalies a catalogue knows, replaced by its pattern, in order. */
  function Catalogued(anoms: seq<(Pattern, real)>, catalogo: Dict<string, Pattern>): (r: seq<(Pattern, real)>)
    ensures |r| <= |anoms|
  {
    if |anoms| == 0 then []
    else
      match Get(catalogo, anoms[0].0.id)
      case Some(p) => [(p, anoms[0].1)] + Catalogued(anoms[1..], catalogo)
      case None => Catalogued(anoms[1..], catalogo)
  }

  lemma {:induction false} AnomaliesRoundTrip(anoms: seq<(Pattern, real)>, catalogo: Dict<string, Pattern>)
    ensures AnomaliesFrom(AnomaliesValue(anoms), catalogo) == Ok(Catalogued(anoms, catalogo))
  {
    if |anoms| > 0 {
      AnomaliesRoundTrip(anoms[1..], catalogo);
      var a: Ctx := [("id", VStr(anoms[0].0.id)), ("nome", VStr(anoms[0].0.nome)), ("confianca", VReal(anoms[0].1))];
      GetAt(a, 0);
      StrFieldOf(a, "id", anoms[0].0.id);
      GetAt(a, 2);
      RealFieldOf(a, "confianca", anoms[0].1);
      assert AnomaliesValue(anoms)[1..] == AnomaliesValue(anoms[1..]);
    }
  }

  lemma {:induction false} MetricsRoundTrip(ms: seq<Metric>)
    ensures MetricsFrom(MetricsValue(ms)) == Ok(ms)
  {
    if |ms| > 0 {
      MetricsRoundTrip(ms[1..]);
      RoundTrip(ms[0]);
      assert MetricsValue(ms)[1..] == MetricsValue(ms[1..]);
      assert [ms[0]] + ms[1..] == ms;
    }
  }

  /** Serialising and reading back against a catalogue keeps everything but the uncatalogued anomalies. */
  lemma DiagnosisRoundTrip(d: Diagnosis, catalogo: Dict<string, Pattern>)
    ensures DiagnosisFromValue(DiagnosisToValue(d), catalogo).Ok?
    ensures DiagnosisFromValue(DiagnosisToValue(d), catalogo).value == d.(anomalias := Catalogued(d.anomalias, catalogo))
  {
    var e := DiagnosisToValue(d).entries;
    RequiredRoundTrip(d, catalogo);
    OptionalRoundTrip(d);
    DiagnosisFromParts(e, catalogo);
  }

  /** `from_dict` builds the diagnosis from the required and the optional fields. */
  lemma DiagnosisFromParts(e: Ctx, catalogo: Dict<string, Pattern>)
    requires DiagnosisRequired(e, catalogo).Ok? && DiagnosisOptional(e).Ok?
    ensures DiagnosisFromValue(VDict(e), catalogo).Ok?
    ensures var (id, timestamp, anomalias, metricas) := DiagnosisRequired(e, catalogo).value;
      var (causa, confianca, recomendacoes, contexto) := DiagnosisOptional(e).value;
      DiagnosisFromValue(VDict(e), catalogo).value
        == Diagnosis(id, timestamp, anomalias, metricas, causa, confianca, recomendacoes, contexto)
  {
  }

  lemma RequiredRoundTrip(d: Diagnosis, catalogo: Dict<string, Pattern>)
    ensures DiagnosisRequired(DiagnosisToValue(d).entries, catalogo).Ok?
    ensures DiagnosisRequired(DiagnosisToValue(d).entries, catalogo).value
      == (d.id, d.timestamp, Catalogued(d.anomalias, catalogo), d.metricas)
  {
    var e := DiagnosisToValue(d).entries;
    GetAt(e, 0);
    StrFieldOf(e, "id", d.id);
    GetAt(e, 1);
    RealFieldOf(e, "timestamp", d.timestamp);
    GetAt(e, 2);
    AnomaliesRoundTrip(d.anomalias, catalogo);
    GetAt(e, 3);
    MetricsRoundTrip(d.metricas);
  }

  lemma OptionalRoundTrip(d: Diagnosis)
    ensures DiagnosisOptional(DiagnosisToValue(d).entries).Ok?
    ensures DiagnosisOptional(DiagnosisToValue(d).entries).value == (d.causaRaiz, d.confianca, d.recomendacoes, d.contexto)
  {
    var e := DiagnosisToValue(d).entries;
    GetAt(e, 4);
    GetAt(e, 5);
    GetAt(e, 6);
    GetAt(e, 7);
    OptionalFromFields(e, d);
  }

  /** The optional fields read back what was written into them. */
  lemma OptionalFromFields(e: Ctx, d: Diagnosis)
    requires FieldOr(e, "causa_raiz", VNone) == OptStrValue(d.causaRaiz)
    requires FieldOr(e, "confianca", VReal(0.0)) == VReal(d.confianca)
    requires FieldOr(e, "recomendacoes", VList([])) == StrList(d.recomendacoes)
    requires FieldOr(e, "contexto", VDict([])) == VDict(d.contexto)
    ensures DiagnosisOptional(e).Ok?
    ensures DiagnosisOptional(e).value == (d.causaRaiz, d.confianca, d.recomendacoes, d.contexto)
  {
    StrListRoundTrip(d.recomendacoes);
    assert AsReal(VReal(d.confianca)) == Ok(d.confianca);
  }

  /** A catalogue whose every pattern is filed under its own id. */
  predicate WellFiled(catalogo: Dict<string, Pattern>)
  {
    forall i :: 0 <= i < |catalogo| ==> catalogo[i].1.id == catalogo[i].0
  }

  function IdsAndConfidence(anoms: seq<(Pattern, real)>): (r: seq<(string, real)>)
    ensures |r| == |anoms|
    ensures forall i :: 0 <= i < |anoms| ==> r[i] == (anoms[i].0.id, anoms[i].1)
  {
    if |anoms| == 0 then [] else [(anoms[0].0.id, anoms[0].1)] + IdsAndConfidence(anoms[1..])
  }

  /**
   * With a well-filed catalogue that knows every anomaly, reading back
   * restores the (id, confidence) list in order; in general the anomalies
   * kept are exactly the catalogued ones.
   */
  lemma {:induction false} CataloguedIds(anoms: seq<(Pattern, real)>, catalogo: Dict<string, Pattern>)
    requires WellFiled(catalogo)
    ensures (forall i :: 0 <= i < |anoms| ==> HasKey(catalogo, anoms[i].0.id)) ==>
      IdsAndConfidence(Catalogued(anoms, catalogo)) == IdsAndConfidence(anoms)
    ensures forall i :: 0 <= i < |Catalogued(anoms, catalogo)| ==> HasKey(catalogo, Catalogued(anoms, catalogo)[i].0.id)
  {
    if |anoms| > 0 {
      CataloguedIds(anoms[1..], catalogo);
      GetFinds(catalogo, anoms[0].0.id);
      if Get(catalogo, anoms[0].0.id).Some? {
        var k := anoms[0].0.id;
        var i :| 0 <= i < |catalogo| && catalogo[i] == (k, Get(catalogo, k).value);
        assert Get(catalogo, k).value.id == k;
        assert Keys(catalogo)[i] == k;
      }
    }
  }
}
