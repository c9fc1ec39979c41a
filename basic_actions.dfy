/**
 * The first-generation action generator `GeradorAcoes`: a fixed table of
 * actions per anomaly type and horizon, a severity adjustment of the
 * priorities, and a stable ordering by priority and horizon.
 */
module BasicActions {
  import opened Wrappers
  import opened Dicts
  import opened Sorting
  import BasicMonitoring
  import BasicDiagnosis

  /** `Acao`: the horizon (hotfix, refatoracao or redesign), a description, a priority and what it needs. */
  datatype Acao = Acao(
    tipo: string,
    descricao: string,
    prioridade: int,
    tempoEstimado: string,
    recursos: seq<string>)

  /** One row of the table: description, priority, estimated time, resources. */
  type Entrada = (string, int, string, seq<string>)

  /** The horizons in the order actions are generated; `tipo_ordem` is the position in this list. */
  const Horizontes: seq<string> := ["hotfix", "refatoracao", "redesign"]

  const ErroSistema: Dict<string, seq<Entrada>> := [
    ("hotfix", [
      ("Reiniciar serviço afetado", 1, "5min", ["servidor"]),
      ("Reverter última atualização", 2, "15min", ["servidor", "banco_dados"]),
      ("Ativar modo de segurança", 3, "2min", ["servidor"])]),
    ("refatoracao", [
      ("Implementar tratamento de erros robusto", 2, "2h", ["desenvolvedor"]),
      ("Adicionar logging detalhado", 1, "1h", ["desenvolvedor"]),
      ("Melhorar validação de dados", 2, "3h", ["desenvolvedor", "qa"])]),
    ("redesign", [
      ("Redesenhar arquitetura de tratamento de erros", 3, "2sprints", ["arquiteto", "desenvolvedor"]),
      ("Implementar sistema de fallback distribuído", 2, "1sprint", ["arquiteto", "devops"])])]

  const LatenciaAlta: Dict<string, seq<Entrada>> := [
    ("hotfix", [
      ("Aumentar recursos de CPU", 1, "5min", ["infraestrutura"]),
      ("Limpar cache", 2, "2min", ["servidor"]),
      ("Reduzir nível de log", 3, "1min", ["servidor"])]),
    ("refatoracao", [
      ("Otimizar consultas ao banco", 1, "4h", ["desenvolvedor", "dba"]),
      ("Implementar cache distribuído", 2, "8h", ["desenvolvedor", "devops"]),
      ("Melhorar algoritmos de processamento", 2, "6h", ["desenvolvedor"])]),
    ("redesign", [
      ("Implementar arquitetura de microserviços", 3, "3sprints", ["arquiteto", "devops"]),
      ("Redesenhar modelo de dados", 2, "2sprints", ["arquiteto", "dba"])])]

  /** `acoes_base`: actions are known for system errors and high latency only. */
  const AcoesBase: Dict<string, Dict<string, seq<Entrada>>> :=
    [("erro_sistema", ErroSistema), ("latencia_alta", LatenciaAlta)]

  /** The actions of one horizon, one per row, in table order. */
  function FromEntries(h: string, es: seq<Entrada>): (r: seq<Acao>)
    ensures |r| == |es|
  {
    seq(|es|, i requires 0 <= i < |es| => Acao(h, es[i].0, es[i].1, es[i].2, es[i].3))
  }

  /** The actions of the horizons `hs`, in that order, skipping horizons the table lacks. */
  function Generated(tabela: Dict<string, seq<Entrada>>, hs: seq<string>): seq<Acao>
  {
    if |hs| == 0 then []
    else
      var h := hs[|hs| - 1];
      Generated(tabela, hs[..|hs| - 1]) + match Get(tabela, h) {
        case None => []
        case Some(es) => FromEntries(h, es)
      }
  }

  /** The actions listed for an anomaly type, before the severity adjustment. */
  function Geradas(tipo: string): seq<Acao>
  {
    match Get(AcoesBase, tipo)
    case None => []
    case Some(tabela) => Generated(tabela, Horizontes)
  }

  /** The severity adjustment of one action: one step more urgent-numbered, capped at 3, above severity 0.8. */
  function Ajustada(a: Acao, gravidade: real): Acao
  {
    if gravidade > 0.8 then a.(prioridade := if a.prioridade + 1 <= 3 then a.prioridade + 1 else 3) else a
  }

  function Ajustadas(s: seq<Acao>, gravidade: real): (r: seq<Acao>)
    ensures |r| == |s|
  {
    seq(|s|, i requires 0 <= i < |s| => Ajustada(s[i], gravidade))
  }

  /** Appends the actions of one horizon's rows. */
  method Acrescentar(acoes: seq<Acao>, h: string, linhas: seq<Entrada>) returns (r: seq<Acao>)
    ensures r == acoes + FromEntries(h, linhas)
  {
    r := acoes;
    var i := 0;
    while i < |linhas|
      invariant 0 <= i <= |linhas|
      invariant r == acoes + FromEntries(h, linhas[..i])
    {
      var (descricao, prioridade, tempo, recursos) := linhas[i];
      assert FromEntries(h, linhas[..i + 1]) == FromEntries(h, linhas[..i]) + [Acao(h, descricao, prioridade, tempo, recursos)];
      r := r + [Acao(h, descricao, prioridade, tempo, recursos)];
      i := i + 1;
    }
    assert linhas[..i] == linhas;
  }

  /** `gerar_acoes`: the table's actions for the diagnosed type, horizon by horizon, then adjusted for severity. */
  method GerarAcoes(d: BasicDiagnosis.Diagnostico, m: BasicMonitoring.Metricas) returns (acoes: seq<Acao>)
    ensures acoes == Ajustadas(Geradas(d.tipoAnomalia), d.nivelGravidade)
  {
    acoes := [];
    var tabela := Get(AcoesBase, d.tipoAnomalia);
    if tabela.Some? {
      var i := 0;
      while i < |Horizontes|
        invariant 0 <= i <= |Horizontes|
        invariant acoes == Generated(tabela.value, Horizontes[..i])
      {
        var h := Horizontes[i];
        assert Horizontes[..i + 1][..i] == Horizontes[..i];
        var linhas := Get(tabela.value, h);
        if linhas.Some? {
          acoes := Acrescentar(acoes, h, linhas.value);
        }
        i := i + 1;
      }
      assert Horizontes[..i] == Horizontes;
    }
    acoes := AjustarPrioridades(acoes, d.nivelGravidade);
  }

  /** The loop that raises each action's priority number when the severity exceeds 0.8. */
  method AjustarPrioridades(geradas: seq<Acao>, gravidade: real) returns (acoes: seq<Acao>)
    ensures acoes == Ajustadas(geradas, gravidade)
  {
    acoes := geradas;
    var j := 0;
    while j < |acoes|
      invariant 0 <= j <= |acoes| == |geradas|
      invariant forall k :: 0 <= k < j ==> acoes[k] == Ajustada(geradas[k], gravidade)
      invariant forall k :: j <= k < |acoes| ==> acoes[k] == geradas[k]
    {
      if gravidade > 0.8 {
        var p := acoes[j].prioridade;
        acoes := acoes[j := acoes[j].(prioridade := if p + 1 <= 3 then p + 1 else 3)];
      }
      j := j + 1;
    }
  }

  /** A type the table does not list gets no actions; only system errors and high latency are listed. */
  lemma GeradasUnknown(tipo: string)
    ensures HasKey(AcoesBase, tipo) <==> tipo == "erro_sistema" || tipo == "latencia_alta"
    ensures !HasKey(AcoesBase, tipo) ==> Geradas(tipo) == []
  {
    GetFinds(AcoesBase, tipo);
  }

  /**
   * A listed type gets its hotfixes, then its refactorings, then its
   * redesigns, each exactly as the table lists them: eight actions whose
   * priorities lie between 1 and 3.
   */
  lemma GeradasKnown(tipo: string)
    requires tipo == "erro_sistema" || tipo == "latencia_alta"
    ensures var tabela := if tipo == "erro_sistema" then ErroSistema else LatenciaAlta;
      Geradas(tipo) == FromEntries("hotfix", tabela[0].1) + FromEntries("refatoracao", tabela[1].1)
        + FromEntries("redesign", tabela[2].1)
    ensures |Geradas(tipo)| == 8
    ensures forall i :: 0 <= i < 3 ==> Geradas(tipo)[i].tipo == "hotfix"
    ensures forall i :: 3 <= i < 6 ==> Geradas(tipo)[i].tipo == "refatoracao"
    ensures forall i :: 6 <= i < 8 ==> Geradas(tipo)[i].tipo == "redesign"
    ensures forall i :: 0 <= i < 8 ==> 1 <= Geradas(tipo)[i].prioridade <= 3
  {
    var tabela := if tipo == "erro_sistema" then ErroSistema else LatenciaAlta;
    assert Get(AcoesBase, tipo) == Some(tabela);
    GeneratedThree(tabela);
    GeneratedKinds(tabela);
  }

  /** Each of the two tables yields three hotfixes, three refactorings and two redesigns, with priorities from 1 to 3. */
  lemma GeneratedKinds(tabela: Dict<string, seq<Entrada>>)
    requires tabela == ErroSistema || tabela == LatenciaAlta
    ensures var g := FromEntries("hotfix", tabela[0].1) + FromEntries("refatoracao", tabela[1].1)
        + FromEntries("redesign", tabela[2].1);
      && |g| == 8
      && (forall i :: 0 <= i < 3 ==> g[i].tipo == "hotfix")
      && (forall i :: 3 <= i < 6 ==> g[i].tipo == "refatoracao")
      && (forall i :: 6 <= i < 8 ==> g[i].tipo == "redesign")
      && (forall i :: 0 <= i < 8 ==> 1 <= g[i].prioridade <= 3)
  {
  }

  /** A table listing exactly the three horizons, in order, yields their rows in that order. */
  lemma GeneratedThree(tabela: Dict<string, seq<Entrada>>)
    requires |tabela| == 3 && tabela[0].0 == "hotfix" && tabela[1].0 == "refatoracao" && tabela[2].0 == "redesign"
    ensures Generated(tabela, Horizontes) == FromEntries("hotfix", tabela[0].1) + FromEntries("refatoracao", tabela[1].1)
        + FromEntries("redesign", tabela[2].1)
  {
    GetAt(tabela, 0);
    GetAt(tabela, 1);
    GetAt(tabela, 2);
    var hs := Horizontes;
    assert hs[..2] == ["hotfix", "refatoracao"];
    assert ["hotfix", "refatoracao"][..1] == ["hotfix"];
    assert ["hotfix"][..0] == [];
    assert Generated(tabela, ["hotfix"]) == FromEntries("hotfix", tabela[0].1);
    assert Generated(tabela, hs[..2]) == FromEntries("hotfix", tabela[0].1) + FromEntries("refatoracao", tabela[1].1);
  }

  /**
   * The adjustment keeps everything but the priority; above severity 0.8
   * the priority becomes `min(p + 1, 3)`, otherwise it is kept, so
   * priorities between 1 and 3 stay between 1 and 3.
   */
  lemma AjustadasProperties(s: seq<Acao>, gravidade: real)
    ensures |Ajustadas(s, gravidade)| == |s|
    ensures forall i :: 0 <= i < |s| ==>
      var a, b := s[i], Ajustadas(s, gravidade)[i];
      && b == a.(prioridade := b.prioridade)
      && (gravidade > 0.8 ==> b.prioridade == if a.prioridade + 1 < 3 then a.prioridade + 1 else 3)
      && (gravidade <= 0.8 ==> b.prioridade == a.prioridade)
      && (1 <= a.prioridade <= 3 ==> 1 <= b.prioridade <= 3)
  {
  }

  /** `tipo_ordem`: a horizon's position in generation order; any other type raises `KeyError`. */
  function Ordem(tipo: string): (r: Option<int>)
    ensures r.Some? <==> tipo in Horizontes
    ensures r.Some? ==> 0 <= r.value < |Horizontes| && Horizontes[r.value] == tipo
  {
    if tipo == "hotfix" then Some(0)
    else if tipo == "refatoracao" then Some(1)
    else if tipo == "redesign" then Some(2)
    else None
  }

  function Rank(a: Acao): int
  {
    match Ordem(a.tipo)
    case None => 0
    case Some(o) => o
  }

  /** The sort key `(prioridade, tipo_ordem[tipo])` as one number. */
  function Chave(a: Acao): real
  {
    (3 * a.prioridade + Rank(a)) as real
  }

  /** On actions of known horizons, comparing `Chave` is comparing `(prioridade, tipo_ordem)` lexicographically. */
  lemma ChaveOrder(a: Acao, b: Acao)
    requires a.tipo in Horizontes && b.tipo in Horizontes
    ensures Chave(a) <= Chave(b) <==>
      a.prioridade < b.prioridade || (a.prioridade == b.prioridade && Rank(a) <= Rank(b))
    ensures Chave(a) == Chave(b) <==> a.prioridade == b.prioridade && Rank(a) == Rank(b)
  {
  }

  /** `priorizar_acoes`: Python's stable `sorted` by (priority, horizon order); an unknown horizon raises `KeyError`. */
  function PriorizarAcoes(acoes: seq<Acao>): Result<seq<Acao>>
  {
    if forall i :: 0 <= i < |acoes| ==> acoes[i].tipo in Horizontes then Ok(SortBy(acoes, Chave))
    else Err("KeyError")
  }

  /**
   * Ordering succeeds exactly when every action has a known horizon; then it
   * rearranges the actions, puts lower priority numbers first and, among
   * equal priorities, hotfixes before refactorings before redesigns, and
   * keeps the given order of actions that tie on both.
   */
  lemma PriorizarAcoesProperties(acoes: seq<Acao>)
    ensures PriorizarAcoes(acoes).Ok? <==> forall i :: 0 <= i < |acoes| ==> acoes[i].tipo in Horizontes
    ensures PriorizarAcoes(acoes).Ok? ==>
      var r := PriorizarAcoes(acoes).value;
      && multiset(r) == multiset(acoes)
      && (forall i, j :: 0 <= i < j < |r| ==>
            r[i].prioridade < r[j].prioridade || (r[i].prioridade == r[j].prioridade && Rank(r[i]) <= Rank(r[j])))
      && SameOrderPerKey(acoes, r, Chave)
  {
    if forall i :: 0 <= i < |acoes| ==> acoes[i].tipo in Horizontes {
      var r := SortBy(acoes, Chave);
      SortByAscending(acoes, Chave);
      SortByPermutes(acoes, Chave);
      SortByStable(acoes, Chave);
      forall i, j | 0 <= i < j < |r|
        ensures r[i].prioridade < r[j].prioridade || (r[i].prioridade == r[j].prioridade && Rank(r[i]) <= Rank(r[j]))
      {
        assert r[i] in multiset(acoes) && r[j] in multiset(acoes);
        ChaveOrder(r[i], r[j]);
      }
    }
  }
}
