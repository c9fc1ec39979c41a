/** `EventoSistema`, a significant moment in the system's history, and its dictionary form. */
module Events {
  import opened Wrappers
  import opened Dicts
  import opened Values

  datatype Evento = Evento(
    id: string,
    /** "anomalia", "diagnostico", "plano_acao", "atualizacao_status", ... */
    tipo: string,
    timestamp: real,
    descricao: string,
    /** "info", "warning", "error" or "critical". */
    severidade: string,
    fonte: string,
    dados: Ctx)

  /** The six fields before `dados`, in `to_dict`'s order. */
  function RequiredDict(id: string, tipo: string, timestamp: real, descricao: string, severidade: string, fonte: string): Ctx
  {
    [("id", VStr(id)), ("tipo", VStr(tipo)), ("timestamp", VReal(timestamp)),
     ("descricao", VStr(descricao)), ("severidade", VStr(severidade)), ("fonte", VStr(fonte))]
  }

  /** `EventoSistema.to_dict`. */
  function ToValue(e: Evento): Value
  {
    VDict(RequiredDict(e.id, e.tipo, e.timestamp, e.descricao, e.severidade, e.fonte) + [("dados", VDict(e.dados))])
  }

  /** The six required fields of `from_dict` (a missing one raises `KeyError`). */
  function Required(d: Ctx): Result<Evento>
  {
    var id :- StrField(d, "id");
    var tipo :- StrField(d, "tipo");
    var timestamp :- RealField(d, "timestamp");
    var descricao :- StrField(d, "descricao");
    var severidade :- StrField(d, "severidade");
    var fonte :- StrField(d, "fonte");
    Ok(Evento(id, tipo, timestamp, descricao, severidade, fonte, []))
  }

  /** `EventoSistema.from_dict`: `dados` defaults to an empty dictionary. */
  function FromValue(v: Value): Result<Evento>
  {
    var d :- AsDict(v);
    var e :- Required(d);
    var dados :- AsDict(FieldOr(d, "dados", VDict([])));
    Ok(e.(dados := dados))
  }

  /** Reading the required fields from a dictionary that starts with them. */
  lemma RequiredOf(d: Ctx, id: string, tipo: string, timestamp: real, descricao: string, severidade: string, fonte: string)
    requires |d| >= 6 && d[..6] == RequiredDict(id, tipo, timestamp, descricao, severidade, fonte)
    ensures Required(d).Ok? && Required(d).value == Evento(id, tipo, timestamp, descricao, severidade, fonte, [])
  {
    assert forall j :: 0 <= j < 6 ==> d[j] == d[..6][j];
    GetAt(d, 0);
    StrFieldOf(d, "id", id);
    GetAt(d, 1);
    StrFieldOf(d, "tipo", tipo);
    GetAt(d, 2);
    RealFieldOf(d, "timestamp", timestamp);
    GetAt(d, 3);
    StrFieldOf(d, "descricao", descricao);
    GetAt(d, 4);
    StrFieldOf(d, "severidade", severidade);
    GetAt(d, 5);
    StrFieldOf(d, "fonte", fonte);
  }

  /** Serialising an event and reading it back gives the same event. */
  lemma RoundTrip(e: Evento)
    ensures FromValue(ToValue(e)).Ok? && FromValue(ToValue(e)).value == e
  {
    var d := ToValue(e).entries;
    assert d[..6] == RequiredDict(e.id, e.tipo, e.timestamp, e.descricao, e.severidade, e.fonte);
    RequiredOf(d, e.id, e.tipo, e.timestamp, e.descricao, e.severidade, e.fonte);
    GetAt(d, 6);
  }

  /** A dictionary with only the six required fields reads back with empty `dados`. */
  lemma DefaultData(id: string, tipo: string, timestamp: real, descricao: string, severidade: string, fonte: string)
    ensures FromValue(VDict(RequiredDict(id, tipo, timestamp, descricao, severidade, fonte))).Ok?
    ensures FromValue(VDict(RequiredDict(id, tipo, timestamp, descricao, severidade, fonte))).value
      == Evento(id, tipo, timestamp, descricao, severidade, fonte, [])
  {
    var d := RequiredDict(id, tipo, timestamp, descricao, severidade, fonte);
    assert d[..6] == d;
    RequiredOf(d, id, tipo, timestamp, descricao, severidade, fonte);
    GetFinds(d, "dados");
  }

  /** A dictionary without one of the required fields is refused. */
  lemma MissingFieldFails(d: Ctx)
    requires !HasKey(d, "id") || !HasKey(d, "tipo") || !HasKey(d, "timestamp") || !HasKey(d, "descricao") ||
      !HasKey(d, "severidade") || !HasKey(d, "fonte")
    ensures FromValue(VDict(d)).Err?
  {
    GetFinds(d, "id");
    GetFinds(d, "tipo");
    GetFinds(d, "timestamp");
    GetFinds(d, "descricao");
    GetFinds(d, "severidade");
    GetFinds(d, "fonte");
  }
}
