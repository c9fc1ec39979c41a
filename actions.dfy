/**
 * `AcaoCorretiva` and `PlanoAcao` of src/gerador_acoes/gerador_acoes.py:
 * a corrective action of one of three horizons, a plan of actions, and
 * their dictionary forms. The action type is written by its enum name.
 */
module Actions {
  import opened Wrappers
  import opened Dicts
  import opened Values

  /** `TipoAcao`: immediate fix, medium-term refactoring, long-term redesign. */
  datatype TipoAcao = Hotfix | Refatoracao | Redesign

  datatype Acao = Acao(
    id: string,
    tipo: TipoAcao,
    descricao: string,
    comandos: seq<string>,
    /** Estimated impact per dimension. */
    impacto: Dict<string, real>,
    /** Estimated duration in seconds. */
    tempo: real,
    recursos: Ctx,
    prioridade: real,
    dependencias: seq<string>,
    /** 0 is no risk, 1 the highest. */
    risco: real,
    reversivel: bool,
    contexto: Ctx)

  datatype Plano = Plano(
    id: string,
    diagnosticoId: string,
    acoes: seq<Acao>,
    timestamp: real,
    score: real,
    /** criado, em_execucao, concluido, falhou or cancelado. */
    status: string,
    resultado: Option<Ctx>,
    metricasImpactadas: seq<string>)

  /** `TipoAcao.name`. */
  function TipoName(t: TipoAcao): string
  {
    match t
    case Hotfix => "HOTFIX"
    case Refatoracao => "REFATORACAO"
    case Redesign => "REDESIGN"
  }

  /** `TipoAcao[name]`: an unknown name raises `KeyError`. */
  function TipoFromName(s: string): (r: Result<TipoAcao>)
    ensures r.Ok? <==> s in {"HOTFIX", "REFATORACAO", "REDESIGN"}
    ensures r.Ok? ==> TipoName(r.value) == s
  {
    if s == "HOTFIX" then Ok(Hotfix)
    else if s == "REFATORACAO" then Ok(Refatoracao)
    else if s == "REDESIGN" then Ok(Redesign)
    else Err("KeyError: " + s)
  }

  /** The action with the optional fields at their defaults. */
  function NewAcao(id: string, tipo: TipoAcao, descricao: string, comandos: seq<string>, impacto: Dict<string, real>,
                   tempo: real, recursos: Ctx): Acao
  {
    Acao(id, tipo, descricao, comandos, impacto, tempo, recursos, 0.0, [], 0.5, true, [])
  }

  /** `AcaoCorretiva.to_dict`. */
  function AcaoToValue(a: Acao): Value
  {
    VDict(AcaoRequiredDict(a.id, a.tipo, a.descricao, a.comandos, a.impacto, a.tempo, a.recursos) + [
      ("prioridade", VReal(a.prioridade)),
      ("dependencias", StrList(a.dependencias)),
      ("risco", VReal(a.risco)),
      ("reversivel", VBool(a.reversivel)),
      ("contexto", VDict(a.contexto))])
  }

  /**
   * `AcaoCorretiva.from_dict`: seven fields are required; prioridade,
   * dependencias, risco, reversivel and contexto default to 0.0, [], 0.5,
   * True and {}.
   */
  function AcaoFromValue(v: Value): Result<Acao>
  {
    var d :- AsDict(v);
    var a :- AcaoRequired(d);
    var (prioridade, dependencias, risco, reversivel, contexto) :- AcaoOptional(d);
    Ok(a.(prioridade := prioridade, dependencias := dependencias, risco := risco,
          reversivel := reversivel, contexto := contexto))
  }

  function AcaoRequired(d: Ctx): Result<Acao>
  {
    var (id, tipo, descricao) :- AcaoHeader(d);
    var (comandos, impacto, tempo, recursos) :- AcaoBody(d);
    Ok(NewAcao(id, tipo, descricao, comandos, impacto, tempo, recursos))
  }

  /** id, tipo and descricao, read in that order. */
  function AcaoHeader(d: Ctx): Result<(string, TipoAcao, string)>
  {
    var id :- StrField(d, "id");
    var nome :- StrField(d, "tipo");
    var tipo :- TipoFromName(nome);
    var descricao :- StrField(d, "descricao");
    Ok((id, tipo, descricao))
  }

  /** comandos, impacto_estimado, tempo_estimado and recursos_necessarios, read in that order. */
  function AcaoBody(d: Ctx): Result<(seq<string>, Dict<string, real>, real, Ctx)>
  {
    var comandos :- Field(d, "comandos");
    var comandos :- FromStrList(comandos);
    var impacto :- Field(d, "impacto_estimado");
    var impacto :- FromRealDict(impacto);
    var tempo :- RealField(d, "tempo_estimado");
    var recursos :- Field(d, "recursos_necessarios");
    var recursos :- AsDict(recursos);
    Ok((comandos, impacto, tempo, recursos))
  }

  function AcaoOptional(d: Ctx): Result<(real, seq<string>, real, bool, Ctx)>
  {
    var prioridade :- AsReal(FieldOr(d, "prioridade", VReal(0.0)));
    var dependencias :- FromStrList(FieldOr(d, "dependencias", VList([])));
    var risco :- AsReal(FieldOr(d, "risco", VReal(0.5)));
    var reversivel :- AsBool(FieldOr(d, "reversivel", VBool(true)));
    var contexto :- AsDict(FieldOr(d, "contexto", VDict([])));
    Ok((prioridade, dependencias, risco, reversivel, contexto))
  }

  /** Reading the required fields of a dictionary that starts with those of `a`. */
  lemma AcaoRequiredOf(d: Ctx, a: Acao)
    requires |d| >= 7 && d[..7] == AcaoRequiredDict(a.id, a.tipo, a.descricao, a.comandos, a.impacto, a.tempo, a.recursos)
    ensures AcaoRequired(d).Ok?
    ensures AcaoRequired(d).value == NewAcao(a.id, a.tipo, a.descricao, a.comandos, a.impacto, a.tempo, a.recursos)
  {
    AcaoHeaderOf(d, a);
    AcaoBodyOf(d, a);
  }

  /** The first seven entries, one by one. */
  lemma AcaoPrefix(d: Ctx, a: Acao)
    requires |d| >= 7 && d[..7] == AcaoRequiredDict(a.id, a.tipo, a.descricao, a.comandos, a.impacto, a.tempo, a.recursos)
    ensures d[0] == ("id", VStr(a.id)) && d[1] == ("tipo", VStr(TipoName(a.tipo)))
    ensures d[2] == ("descricao", VStr(a.descricao)) && d[3] == ("comandos", StrList(a.comandos))
    ensures d[4] == ("impacto_estimado", RealDict(a.impacto)) && d[5] == ("tempo_estimado", VReal(a.tempo))
    ensures d[6] == ("recursos_necessarios", VDict(a.recursos))
  {
    assert forall j :: 0 <= j < 7 ==> d[j] == d[..7][j];
  }

  lemma AcaoHeaderOf(d: Ctx, a: Acao)
    requires |d| >= 7 && d[..7] == AcaoRequiredDict(a.id, a.tipo, a.descricao, a.comandos, a.impacto, a.tempo, a.recursos)
    ensures AcaoHeader(d).Ok? && AcaoHeader(d).value == (a.id, a.tipo, a.descricao)
  {
    AcaoPrefix(d, a);
    GetAt(d, 0);
    StrFieldOf(d, "id", a.id);
    GetAt(d, 1);
    StrFieldOf(d, "tipo", TipoName(a.tipo));
    GetAt(d, 2);
    StrFieldOf(d, "descricao", a.descricao);
  }

  lemma AcaoBodyOf(d: Ctx, a: Acao)
    requires |d| >= 7 && d[..7] == AcaoRequiredDict(a.id, a.tipo, a.descricao, a.comandos, a.impacto, a.tempo, a.recursos)
    ensures AcaoBody(d).Ok? && AcaoBody(d).value == (a.comandos, a.impacto, a.tempo, a.recursos)
  {
    AcaoPrefix(d, a);
    GetAt(d, 3);
    StrListRoundTrip(a.comandos);
    GetAt(d, 4);
    RealDictRoundTrip(a.impacto);
    GetAt(d, 5);
    RealFieldOf(d, "tempo_estimado", a.tempo);
    GetAt(d, 6);
  }

  lemma AcaoOptionalRoundTrip(a: Acao)
    ensures AcaoOptional(AcaoToValue(a).entries).Ok?
    ensures AcaoOptional(AcaoToValue(a).entries).value == (a.prioridade, a.dependencias, a.risco, a.reversivel, a.contexto)
  {
    var d := AcaoToValue(a).entries;
    GetAt(d, 7);
    GetAt(d, 8);
    GetAt(d, 9);
    GetAt(d, 10);
    GetAt(d, 11);
    AcaoOptionalFromFields(d, a);
  }

  /** The optional fields of an action read back what was written into them. */
  lemma AcaoOptionalFromFields(d: Ctx, a: Acao)
    requires FieldOr(d, "prioridade", VReal(0.0)) == VReal(a.prioridade)
    requires FieldOr(d, "dependencias", VList([])) == StrList(a.dependencias)
    requires FieldOr(d, "risco", VReal(0.5)) == VReal(a.risco)
    requires FieldOr(d, "reversivel", VBool(true)) == VBool(a.reversivel)
    requires FieldOr(d, "contexto", VDict([])) == VDict(a.contexto)
    ensures AcaoOptional(d).Ok?
    ensures AcaoOptional(d).value == (a.prioridade, a.dependencias, a.risco, a.reversivel, a.contexto)
  {
    assert AsReal(VReal(a.prioridade)) == Ok(a.prioridade);
    StrListRoundTrip(a.dependencias);
    assert AsReal(VReal(a.risco)) == Ok(a.risco);
  }

  /** Serialising an action and reading it back gives the same action. */
  lemma AcaoRoundTrip(a: Acao)
    ensures AcaoFromValue(AcaoToValue(a)).Ok? && AcaoFromValue(AcaoToValue(a)).value == a
  {
    var d := AcaoToValue(a).entries;
    assert d[..7] == AcaoRequiredDict(a.id, a.tipo, a.descricao, a.comandos, a.impacto, a.tempo, a.recursos);
    AcaoRequiredOf(d, a);
    AcaoOptionalRoundTrip(a);
    AcaoFromParts(d);
  }

  /** The seven required fields of an action. */
  function AcaoRequiredDict(id: string, tipo: TipoAcao, descricao: string, comandos: seq<string>,
                            impacto: Dict<string, real>, tempo: real, recursos: Ctx): Ctx
  {
    [("id", VStr(id)), ("tipo", VStr(TipoName(tipo))), ("descricao", VStr(descricao)), ("comandos", StrList(comandos)),
     ("impacto_estimado", RealDict(impacto)), ("tempo_estimado", VReal(tempo)), ("recursos_necessarios", VDict(recursos))]
  }

  /** A dictionary with only the required fields reads back with the documented defaults. */
  lemma AcaoDefaults(id: string, tipo: TipoAcao, descricao: string, comandos: seq<string>,
                     impacto: Dict<string, real>, tempo: real, recursos: Ctx)
    ensures AcaoFromValue(VDict(AcaoRequiredDict(id, tipo, descricao, comandos, impacto, tempo, recursos))).Ok?
    ensures AcaoFromValue(VDict(AcaoRequiredDict(id, tipo, descricao, comandos, impacto, tempo, recursos))).value
      == NewAcao(id, tipo, descricao, comandos, impacto, tempo, recursos)
  {
    var a := NewAcao(id, tipo, descricao, comandos, impacto, tempo, recursos);
    var d := AcaoRequiredDict(id, tipo, descricao, comandos, impacto, tempo, recursos);
    assert d[..7] == d;
    AcaoRequiredOf(d, a);
    RequiredKeysOnly(id, tipo, descricao, comandos, impacto, tempo, recursos);
    AcaoOptionalDefaults(d);
    AcaoFromParts(d);
  }

  /** The seven required fields name none of the optional keys. */
  lemma RequiredKeysOnly(id: string, tipo: TipoAcao, descricao: string, comandos: seq<string>,
                         impacto: Dict<string, real>, tempo: real, recursos: Ctx)
    ensures var d := AcaoRequiredDict(id, tipo, descricao, comandos, impacto, tempo, recursos);
      !HasKey(d, "prioridade") && !HasKey(d, "dependencias") && !HasKey(d, "risco")
      && !HasKey(d, "reversivel") && !HasKey(d, "contexto")
  {
    var d := AcaoRequiredDict(id, tipo, descricao, comandos, impacto, tempo, recursos);
    var ks := Keys(d);
    assert forall i :: 0 <= i < |ks| ==> ks[i] == d[i].0;
  }

  /** `from_dict` puts the optional fields over the action built from the required ones. */
  lemma AcaoFromParts(d: Ctx)
    requires AcaoRequired(d).Ok? && AcaoOptional(d).Ok?
    ensures AcaoFromValue(VDict(d)).Ok?
    ensures var (p, dep, r, rv, c) := AcaoOptional(d).value;
      AcaoFromValue(VDict(d)).value
        == AcaoRequired(d).value.(prioridade := p, dependencias := dep, risco := r, reversivel := rv, contexto := c)
  {
  }

  /** Without the optional keys, the optional fields take their defaults. */
  lemma AcaoOptionalDefaults(d: Ctx)
    requires !HasKey(d, "prioridade") && !HasKey(d, "dependencias") && !HasKey(d, "risco")
    requires !HasKey(d, "reversivel") && !HasKey(d, "contexto")
    ensures AcaoOptional(d).Ok? && AcaoOptional(d).value == (0.0, [], 0.5, true, [])
  {
    GetFinds(d, "prioridade");
    GetFinds(d, "dependencias");
    GetFinds(d, "risco");
    GetFinds(d, "reversivel");
    GetFinds(d, "contexto");
    StrListRoundTrip([]);
  }

  /** A dictionary naming an unknown action type is refused. */
  lemma UnknownTipoFails(d: Ctx, nome: string)
    requires Get(d, "tipo") == Some(VStr(nome)) && nome !in {"HOTFIX", "REFATORACAO", "REDESIGN"}
    ensures AcaoFromValue(VDict(d)).Err?
  {
    StrFieldOf(d, "tipo", nome);
  }

  function AcoesValue(as_: seq<Acao>): (vs: seq<Value>)
    ensures |vs| == |as_|
  {
    if |as_| == 0 then [] else [AcaoToValue(as_[0])] + AcoesValue(as_[1..])
  }

  function AcoesFrom(vs: seq<Value>): Result<seq<Acao>>
  {
    if |vs| == 0 then Ok([])
    else
      var a :- AcaoFromValue(vs[0]);
      var resto :- AcoesFrom(vs[1..]);
      Ok([a] + resto)
  }

  lemma {:induction false} AcoesRoundTrip(as_: seq<Acao>)
    ensures AcoesFrom(AcoesValue(as_)) == Ok(as_)
  {
    if |as_| > 0 {
      AcoesRoundTrip(as_[1..]);
      AcaoRoundTrip(as_[0]);
      assert AcoesValue(as_)[1..] == AcoesValue(as_[1..]);
      assert [as_[0]] + as_[1..] == as_;
    }
  }

  function OptCtxValue(o: Option<Ctx>): Value
  {
    if o.Some? then VDict(o.value) else VNone
  }

  /** `data.get("resultado")`: None or a dictionary. */
  function AsOptCtx(v: Value): Result<Option<Ctx>>
  {
    match v
    case VNone => Ok(None)
    case VDict(d) => Ok(Some(d))
    case _ => Err("TypeError: a dict or None is required")
  }

  /** `PlanoAcao.to_dict`. */
  function PlanoToValue(p: Plano): Value
  {
    VDict(PlanoRequiredDict(p.id, p.diagnosticoId, p.acoes, p.timestamp) + [
      ("score", VReal(p.score)),
      ("status", VStr(p.status)),
      ("resultado", OptCtxValue(p.resultado)),
      ("metricas_impactadas", StrList(p.metricasImpactadas))])
  }

  /** The four required fields of a plan. */
  function PlanoRequiredDict(id: string, diag: string, acoes: seq<Acao>, ts: real): Ctx
  {
    [("id", VStr(id)), ("diagnostico_id", VStr(diag)), ("acoes", VList(AcoesValue(acoes))), ("timestamp", VReal(ts))]
  }

  /**
   * `PlanoAcao.from_dict`: id, diagnostico_id, acoes and timestamp are
   * required; score, status, resultado and metricas_impactadas default to
   * 0.0, "criado", None and [].
   */
  function PlanoFromValue(v: Value): Result<Plano>
  {
    var d :- AsDict(v);
    var (id, diag, acoes, ts) :- PlanoRequired(d);
    var (score, status, resultado, metricas) :- PlanoOptional(d);
    Ok(Plano(id, diag, acoes, ts, score, status, resultado, metricas))
  }

  function PlanoRequired(d: Ctx): Result<(string, string, seq<Acao>, real)>
  {
    var id :- StrField(d, "id");
    var diag :- StrField(d, "diagnostico_id");
    var acoes :- Field(d, "acoes");
    var acoes :- if acoes.VList? then AcoesFrom(acoes.items) else Err("TypeError: a list is required");
    var ts :- RealField(d, "timestamp");
    Ok((id, diag, acoes, ts))
  }

  function PlanoOptional(d: Ctx): Result<(real, string, Option<Ctx>, seq<string>)>
  {
    var score :- AsReal(FieldOr(d, "score", VReal(0.0)));
    var status :- AsStr(FieldOr(d, "status", VStr("criado")));
    var resultado :- AsOptCtx(FieldOr(d, "resultado", VNone));
    var metricas :- FromStrList(FieldOr(d, "metricas_impactadas", VList([])));
    Ok((score, status, resultado, metricas))
  }

  /** Reading the required fields of a dictionary that starts with the given ones. */
  lemma PlanoRequiredOf(d: Ctx, id: string, diag: string, acoes: seq<Acao>, ts: real)
    requires |d| >= 4 && d[..4] == PlanoRequiredDict(id, diag, acoes, ts)
    ensures PlanoRequired(d).Ok? && PlanoRequired(d).value == (id, diag, acoes, ts)
  {
    assert forall j :: 0 <= j < 4 ==> d[j] == d[..4][j];
    GetAt(d, 0);
    StrFieldOf(d, "id", id);
    GetAt(d, 1);
    StrFieldOf(d, "diagnostico_id", diag);
    GetAt(d, 2);
    AcoesRoundTrip(acoes);
    GetAt(d, 3);
    RealFieldOf(d, "timestamp", ts);
  }

  lemma PlanoOptionalRoundTrip(p: Plano)
    ensures PlanoOptional(PlanoToValue(p).entries).Ok?
    ensures PlanoOptional(PlanoToValue(p).entries).value == (p.score, p.status, p.resultado, p.metricasImpactadas)
  {
    var d := PlanoToValue(p).entries;
    GetAt(d, 4);
    GetAt(d, 5);
    GetAt(d, 6);
    GetAt(d, 7);
    PlanoOptionalFromFields(d, p);
  }

  /** The optional fields of a plan read back what was written into them. */
  lemma PlanoOptionalFromFields(d: Ctx, p: Plano)
    requires FieldOr(d, "score", VReal(0.0)) == VReal(p.score)
    requires FieldOr(d, "status", VStr("criado")) == VStr(p.status)
    requires FieldOr(d, "resultado", VNone) == OptCtxValue(p.resultado)
    requires FieldOr(d, "metricas_impactadas", VList([])) == StrList(p.metricasImpactadas)
    ensures PlanoOptional(d).Ok?
    ensures PlanoOptional(d).value == (p.score, p.status, p.resultado, p.metricasImpactadas)
  {
    assert AsReal(VReal(p.score)) == Ok(p.score);
    assert AsOptCtx(OptCtxValue(p.resultado)) == Ok(p.resultado);
    StrListRoundTrip(p.metricasImpactadas);
  }

  /** `from_dict` builds the plan from the required and the optional fields. */
  lemma PlanoFromParts(d: Ctx)
    requires PlanoRequired(d).Ok? && PlanoOptional(d).Ok?
    ensures PlanoFromValue(VDict(d)).Ok?
    ensures var (id, diag, acoes, ts) := PlanoRequired(d).value;
      var (score, status, resultado, metricas) := PlanoOptional(d).value;
      PlanoFromValue(VDict(d)).value == Plano(id, diag, acoes, ts, score, status, resultado, metricas)
  {
  }

  /** Serialising a plan and reading it back gives the same plan, actions included. */
  lemma PlanoRoundTrip(p: Plano)
    ensures PlanoFromValue(PlanoToValue(p)).Ok? && PlanoFromValue(PlanoToValue(p)).value == p
  {
    var d := PlanoToValue(p).entries;
    assert d[..4] == PlanoRequiredDict(p.id, p.diagnosticoId, p.acoes, p.timestamp);
    PlanoRequiredOf(d, p.id, p.diagnosticoId, p.acoes, p.timestamp);
    PlanoOptionalRoundTrip(p);
    PlanoFromParts(d);
  }

  /** Without the optional keys, the optional fields of a plan take their defaults. */
  lemma PlanoOptionalDefaults(d: Ctx)
    requires !HasKey(d, "score") && !HasKey(d, "status") && !HasKey(d, "resultado") && !HasKey(d, "metricas_impactadas")
    ensures PlanoOptional(d).Ok? && PlanoOptional(d).value == (0.0, "criado", None, [])
  {
    GetFinds(d, "score");
    GetFinds(d, "status");
    GetFinds(d, "resultado");
    GetFinds(d, "metricas_impactadas");
    StrListRoundTrip([]);
  }

  /** A plan dictionary with only the required fields reads back as a fresh plan: score 0, "criado", no result. */
  lemma PlanoDefaults(id: string, diag: string, acoes: seq<Acao>, ts: real)
    ensures PlanoFromValue(VDict(PlanoRequiredDict(id, diag, acoes, ts))).Ok?
    ensures PlanoFromValue(VDict(PlanoRequiredDict(id, diag, acoes, ts))).value
      == Plano(id, diag, acoes, ts, 0.0, "criado", None, [])
  {
    var d := PlanoRequiredDict(id, diag, acoes, ts);
    assert d[..4] == d;
    PlanoRequiredOf(d, id, diag, acoes, ts);
    var ks := Keys(d);
    assert forall i :: 0 <= i < |ks| ==> ks[i] == d[i].0;
    PlanoOptionalDefaults(d);
    PlanoFromParts(d);
  }
}
