/** `MetricaDimensional`, the measurement record every component exchanges, and its dictionary form. */
module Metric {
  import opened Wrappers
  import opened Dicts
  import opened Values

  datatype Metric = Metric(
    id: string,
    nome: string,
    valor: real,
    timestamp: real,
    dimensao: string,
    unidade: string,
    tags: Dict<string, string>,
    metadados: Ctx,
    contexto: Ctx,
    confianca: real)

  /** The record with the optional fields at their defaults. */
  function NewMetric(id: string, nome: string, valor: real, timestamp: real, dimensao: string, unidade: string): Metric
  {
    Metric(id, nome, valor, timestamp, dimensao, unidade, [], [], [], 1.0)
  }

  /** `MetricaDimensional.to_dict`. */
  function ToValue(m: Metric): Value
  {
    VDict(RequiredDict(m.id, m.nome, m.valor, m.timestamp, m.dimensao, m.unidade) + [
      ("tags", StrDict(m.tags)),
      ("metadados", VDict(m.metadados)),
      ("contexto", VDict(m.contexto)),
      ("confianca", VReal(m.confianca))])
  }

  /** The six identifying fields, in `to_dict`'s order. */
  function RequiredDict(id: string, nome: string, valor: real, timestamp: real, dimensao: string, unidade: string): Ctx
  {
    [("id", VStr(id)), ("nome", VStr(nome)), ("valor", VReal(valor)),
     ("timestamp", VReal(timestamp)), ("dimensao", VStr(dimensao)), ("unidade", VStr(unidade))]
  }

  /**
   * `MetricaDimensional.from_dict`: the six identifying fields are required
   * (a missing one raises `KeyError`); tags, metadados and contexto default
   * to empty dictionaries and confianca to 1.0.
   */
  function FromValue(v: Value): Result<Metric>
  {
    var d :- AsDict(v);
    var m :- Required(d);
    var (tags, metadados, contexto, confianca) :- Optional(d);
    Ok(m.(tags := tags, metadados := metadados, contexto := contexto, confianca := confianca))
  }

  /** The required fields, with the optional ones at their defaults. */
  function Required(d: Ctx): Result<Metric>
  {
    var id :- StrField(d, "id");
    var nome :- StrField(d, "nome");
    var valor :- RealField(d, "valor");
    var timestamp :- RealField(d, "timestamp");
    var dimensao :- StrField(d, "dimensao");
    var unidade :- StrField(d, "unidade");
    Ok(NewMetric(id, nome, valor, timestamp, dimensao, unidade))
  }

  function Optional(d: Ctx): Result<(Dict<string, string>, Ctx, Ctx, real)>
  {
    var tags :- FromStrDict(FieldOr(d, "tags", VDict([])));
    var metadados :- AsDict(FieldOr(d, "metadados", VDict([])));
    var contexto :- AsDict(FieldOr(d, "contexto", VDict([])));
    var confianca :- AsReal(FieldOr(d, "confianca", VReal(1.0)));
    Ok((tags, metadados, contexto, confianca))
  }

  /** Serialising and reading back gives the same record. */
  lemma RoundTrip(m: Metric)
    ensures FromValue(ToValue(m)).Ok? && FromValue(ToValue(m)).value == m
  {
    var d := ToValue(m).entries;
    assert d[..6] == RequiredDict(m.id, m.nome, m.valor, m.timestamp, m.dimensao, m.unidade);
    RequiredOf(d, m.id, m.nome, m.valor, m.timestamp, m.dimensao, m.unidade);
    OptionalRoundTrip(m);
    FromParts(d);
  }

  lemma OptionalRoundTrip(m: Metric)
    ensures Optional(ToValue(m).entries).Ok?
    ensures Optional(ToValue(m).entries).value == (m.tags, m.metadados, m.contexto, m.confianca)
  {
    var d := ToValue(m).entries;
    StrDictRoundTrip(m.tags);
    GetAt(d, 6);
    GetAt(d, 7);
    GetAt(d, 8);
    GetAt(d, 9);
  }

  /** `from_dict` puts the optional fields over the record built from the required ones. */
  lemma FromParts(d: Ctx)
    requires Required(d).Ok? && Optional(d).Ok?
    ensures FromValue(VDict(d)).Ok?
    ensures var (tags, metadados, contexto, confianca) := Optional(d).value;
      FromValue(VDict(d)).value
        == Required(d).value.(tags := tags, metadados := metadados, contexto := contexto, confianca := confianca)
  {
  }

  /** Reading the required fields from a dictionary that starts with them. */
  lemma RequiredOf(d: Ctx, id: string, nome: string, valor: real, timestamp: real, dimensao: string, unidade: string)
    requires |d| >= 6 && d[..6] == RequiredDict(id, nome, valor, timestamp, dimensao, unidade)
    ensures Required(d).Ok? && Required(d).value == NewMetric(id, nome, valor, timestamp, dimensao, unidade)
  {
    assert forall j :: 0 <= j < 6 ==> d[j] == d[..6][j];
    GetAt(d, 0);
    StrFieldOf(d, "id", id);
    GetAt(d, 1);
    StrFieldOf(d, "nome", nome);
    GetAt(d, 2);
    RealFieldOf(d, "valor", valor);
    GetAt(d, 3);
    RealFieldOf(d, "timestamp", timestamp);
    GetAt(d, 4);
    StrFieldOf(d, "dimensao", dimensao);
    GetAt(d, 5);
    StrFieldOf(d, "unidade", unidade);
  }

  /** Without the optional keys, the optional fields take their defaults. */
  lemma OptionalDefaults(d: Ctx)
    requires !HasKey(d, "tags") && !HasKey(d, "metadados") && !HasKey(d, "contexto") && !HasKey(d, "confianca")
    ensures Optional(d).Ok? && Optional(d).value == ([], [], [], 1.0)
  {
    GetFinds(d, "tags");
    GetFinds(d, "metadados");
    GetFinds(d, "contexto");
    GetFinds(d, "confianca");
    StrDictRoundTrip([]);
  }

  /** A dictionary with only the required fields reads back with the documented defaults. */
  lemma Defaults(id: string, nome: string, valor: real, timestamp: real, dimensao: string, unidade: string)
    ensures FromValue(VDict(RequiredDict(id, nome, valor, timestamp, dimensao, unidade))).Ok?
    ensures FromValue(VDict(RequiredDict(id, nome, valor, timestamp, dimensao, unidade))).value
      == NewMetric(id, nome, valor, timestamp, dimensao, unidade)
  {
    var d := RequiredDict(id, nome, valor, timestamp, dimensao, unidade);
    assert d[..6] == d;
    RequiredOf(d, id, nome, valor, timestamp, dimensao, unidade);
    var ks := Keys(d);
    assert forall i :: 0 <= i < |ks| ==> ks[i] == d[i].0;
    OptionalDefaults(d);
    FromParts(d);
  }

  /** A dictionary without one of the required fields is refused. */
  lemma MissingFieldFails(d: Ctx)
    requires !HasKey(d, "id") || !HasKey(d, "nome") || !HasKey(d, "valor") || !HasKey(d, "timestamp") || !HasKey(d, "dimensao") || !HasKey(d, "unidade")
    ensures FromValue(VDict(d)).Err?
  {
    GetFinds(d, "id");
    GetFinds(d, "nome");
    GetFinds(d, "valor");
    GetFinds(d, "timestamp");
    GetFinds(d, "dimensao");
    GetFinds(d, "unidade");
  }
}
