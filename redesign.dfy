/**
 * `ProjetistaEvolutivo` of src/gerador_acoes/gerador_acoes.py: redesign
 * strategies registered by name, a need score per strategy (targeted
 * anomalies present, metric trends confirmed by the short- and
 * medium-term gradients of the diagnosis, damped when the strategy was
 * applied in the last seven days, capped at 1), and one REDESIGN action per
 * strategy whose score reaches the threshold. The clock reading, the random
 * suffixes of action ids and float formatting are parameters.
 */
module Redesign {
  import opened Wrappers
  import opened Dicts
  import opened Values
  import opened Text
  import opened Seqs
  import opened Patterns
  import opened Actions
  import opened Fill
  import Hotfix
  import Refactor

  /** One entry of `tendencias_metricas`: a metric name and "crescente" or "decrescente". */
  datatype Tendencia = Tendencia(metrica: string, direcao: string)

  /** A redesign strategy: every key of the Python dictionary is optional. */
  datatype Estrategia = Estrategia(
    anomaliasAlvo: Option<seq<string>>,
    tendencias: Option<seq<Tendencia>>,
    descricao: Option<string>,
    comandos: Option<seq<string>>,
    impacto: Option<Dict<string, real>>,
    tempo: Option<real>,
    recursos: Option<Ctx>,
    prioridade: Option<real>,
    dependencias: Option<seq<string>>,
    risco: Option<real>,
    reversivel: Option<bool>)

  /** An entry of `historico_evolucoes`. */
  datatype Evolucao = Evolucao(estrategia: string, resultado: Ctx, timestamp: real)

  /** Seven days in seconds. */
  const Week: real := 604800.0
  const TrendBonus: real := 0.3
  const DefaultThreshold: real := 0.6

  function SetOf(s: seq<string>): (r: set<string>)
    ensures forall x :: x in r <==> x in s
  {
    set i | 0 <= i < |s| :: s[i]
  }

  /** `len(alvo ∩ presentes) / len(alvo) * 0.5` when the intersection is not empty, else nothing. */
  function TargetTerm(alvo: seq<string>, presentes: set<string>): real
  {
    var a := SetOf(alvo);
    var inter := a * presentes;
    if |inter| > 0 then (|inter| as real / |a| as real) * 0.5 else 0.0
  }

  lemma SubsetCard(a: set<string>, b: set<string>)
    requires a <= b
    ensures |a| <= |b|
  {
    assert b == a + (b - a);
  }

  /** The anomaly term lies in [0, 0.5], and is 0.5 exactly when every target anomaly is present. */
  lemma TargetTermBounds(alvo: seq<string>, presentes: set<string>)
    ensures 0.0 <= TargetTerm(alvo, presentes) <= 0.5
    ensures |alvo| > 0 ==> (TargetTerm(alvo, presentes) == 0.5 <==> forall i :: 0 <= i < |alvo| ==> alvo[i] in presentes)
  {
    var a := SetOf(alvo);
    var inter := a * presentes;
    SubsetCard(inter, a);
    if |inter| > 0 {
      assert |a| > 0;
      var q := |inter| as real / |a| as real;
      assert q <= 1.0;
      if q == 1.0 {
        assert |inter| == |a|;
        SameCard(inter, a);
        forall i | 0 <= i < |alvo| ensures alvo[i] in presentes {
          assert alvo[i] in a;
        }
      }
      if forall i :: 0 <= i < |alvo| ==> alvo[i] in presentes {
        assert inter == a;
      }
    } else if |alvo| > 0 {
      assert alvo[0] in a;
      assert alvo[0] !in inter;
    }
  }

  lemma SameCard(a: set<string>, b: set<string>)
    requires a <= b && |a| == |b|
    ensures a == b
  {
    if a != b {
      assert !(b <= a);
      var x :| x in b && x !in a;
      assert b == (b - {x}) + {x};
      SubsetCard(a, b - {x});
    }
  }

  /** `chave in v`: a key of a dictionary, an element of a list, a substring of a string; `in` on any other value raises. */
  function PyIn(chave: string, v: Value): (r: Result<bool>)
    ensures r.Ok? <==> v.VDict? || v.VList? || v.VStr?
    ensures v.VDict? ==> r == Ok(HasKey(v.entries, chave))
    ensures v.VList? ==> r == Ok(VStr(chave) in v.items)
    ensures v.VStr? ==> r == Ok(Contains(v.s, chave))
  {
    match v
    case VDict(e) => Ok(HasKey(e, chave))
    case VList(xs) => Ok(VStr(chave) in xs)
    case VStr(t) => Ok(Contains(t, chave))
    case _ => Err("TypeError: argument is not iterable")
  }

  /** `v[chave]`: a dictionary's value, `KeyError` when it lacks the key; a string key on any other value raises `TypeError`. */
  function PyItem(v: Value, chave: string): (r: Result<Value>)
    ensures r.Ok? <==> v.VDict? && HasKey(v.entries, chave)
    ensures r.Ok? ==> Get(v.entries, chave) == Some(r.value)
  {
    if v.VDict? then
      GetFinds(v.entries, chave);
      Field(v.entries, chave)
    else Err("TypeError: indices must be integers")
  }

  /**
   * The short- and medium-term slopes of one series' gradient entry, as
   * the values stored there: none unless both scales are members of the
   * entry (tested in that order, the second only when the first holds);
   * then `grad["curto_prazo"]["inclinacao"]` and `grad["medio_prazo"]["inclinacao"]`, in that order.
   */
  function Slopes(grad: Value): (r: Result<Option<(Value, Value)>>)
    ensures !(grad.VDict? || grad.VList? || grad.VStr?) ==> r.Err?
    ensures r.Ok? && r.value.Some? ==>
      && grad.VDict?
      && Get(grad.entries, "curto_prazo").Some? && Get(grad.entries, "curto_prazo").value.VDict? && Get(Get(grad.entries, "curto_prazo").value.entries, "inclinacao") == Some(r.value.value.0)
      && Get(grad.entries, "medio_prazo").Some? && Get(grad.entries, "medio_prazo").value.VDict? && Get(Get(grad.entries, "medio_prazo").value.entries, "inclinacao") == Some(r.value.value.1)
  {
    var temCurto :- PyIn("curto_prazo", grad);
    if !temCurto then Ok(None)
    else
      // `in` did not raise on this value once, so it does not raise again.
      var temMedio := PyIn("medio_prazo", grad).value;
      if !temMedio then Ok(None)
      else
        var curto :- PyItem(grad, "curto_prazo");
        var c :- PyItem(curto, "inclinacao");
        // `grad` is a dictionary by now, holding the key just tested.
        var medio := PyItem(grad, "medio_prazo").value;
        var m :- PyItem(medio, "inclinacao");
        Ok(Some((c, m)))
  }

  /** `x > 0` and `x < 0`: numbers (bools included) compare by value; anything else raises. */
  function PyPositive(x: Value): (r: Result<bool>)
    ensures r.Ok? <==> NumOf(x).Some?
    ensures r.Ok? ==> r.value == (NumOf(x).value > 0.0)
  {
    if NumOf(x).Some? then Ok(NumOf(x).value > 0.0) else Err("TypeError: '>' not supported")
  }

  function PyNegative(x: Value): (r: Result<bool>)
    ensures r.Ok? <==> NumOf(x).Some?
    ensures r.Ok? ==> r.value == (NumOf(x).value < 0.0)
  {
    if NumOf(x).Some? then Ok(NumOf(x).value < 0.0) else Err("TypeError: '<' not supported")
  }

  /** Both slopes have the sign the trend declares; any other direction never agrees. */
  predicate Agrees(direcao: string, s: (real, real))
  {
    (direcao == "crescente" && s.0 > 0.0 && s.1 > 0.0) || (direcao == "decrescente" && s.0 < 0.0 && s.1 < 0.0)
  }

  /**
   * The test `direcao == "crescente" and c > 0 and m > 0`, else the same
   * for "decrescente" with `< 0`, short-circuited as Python evaluates it:
   * a slope is compared only when the test reaches it.
   */
  function Verdict(direcao: string, c: Value, m: Value): Result<bool>
  {
    if direcao == "crescente" then
      var sobe :- PyPositive(c);
      if !sobe then Ok(false) else PyPositive(m)
    else if direcao == "decrescente" then
      var desce :- PyNegative(c);
      if !desce then Ok(false) else PyNegative(m)
    else Ok(false)
  }

  /** Whether one gradient entry earns the trend's bonus; raises as the membership tests, lookups and comparisons do. */
  function SlopeAgrees(direcao: string, grad: Value): Result<bool>
  {
    var sl :- Slopes(grad);
    if sl.None? then Ok(false) else Verdict(direcao, sl.value.0, sl.value.1)
  }

  /** On numeric slopes the verdict is `Agrees`; a direction other than the two never compares, so never raises. */
  lemma VerdictAgrees(direcao: string, c: Value, m: Value)
    ensures NumOf(c).Some? && NumOf(m).Some? ==> Verdict(direcao, c, m) == Ok(Agrees(direcao, (NumOf(c).value, NumOf(m).value)))
    ensures direcao != "crescente" && direcao != "decrescente" ==> Verdict(direcao, c, m) == Ok(false)
    ensures direcao == "crescente" && NumOf(c).Some? && NumOf(c).value <= 0.0 ==> Verdict(direcao, c, m) == Ok(false)
    ensures direcao == "decrescente" && NumOf(c).Some? && NumOf(c).value >= 0.0 ==> Verdict(direcao, c, m) == Ok(false)
  {
  }

  /**
   * The entry's verdict: a list or string lacking either scale earns nothing
   * without raising; a number, bool or None raises on `in`; a dictionary
   * with both scales holding numeric slopes earns exactly when they agree.
   */
  lemma SlopeAgreesCases(direcao: string, grad: Value)
    ensures (grad.VList? || grad.VStr?) && !(PyIn("curto_prazo", grad).value && PyIn("medio_prazo", grad).value) ==>
      SlopeAgrees(direcao, grad) == Ok(false)
    ensures !(grad.VDict? || grad.VList? || grad.VStr?) ==> SlopeAgrees(direcao, grad).Err?
    ensures grad.VDict? && !(HasKey(grad.entries, "curto_prazo") && HasKey(grad.entries, "medio_prazo")) ==>
      SlopeAgrees(direcao, grad) == Ok(false)
    ensures Slopes(grad).Ok? && Slopes(grad).value.Some? ==>
      var (c, m) := Slopes(grad).value.value;
      NumOf(c).Some? && NumOf(m).Some? ==> SlopeAgrees(direcao, grad) == Ok(Agrees(direcao, (NumOf(c).value, NumOf(m).value)))
  {
    if Slopes(grad).Ok? && Slopes(grad).value.Some? {
      var (c, m) := Slopes(grad).value.value;
      VerdictAgrees(direcao, c, m);
    }
  }

  /** 0.3 for every gradient series whose key contains the metric name and whose slopes agree, in series order. */
  function SeriesBonus(t: Tendencia, series: Ctx): Result<real>
  {
    if |series| == 0 then Ok(0.0)
    else
      var b :- SeriesBonus(t, series[..|series| - 1]);
      var (nome, grad) := series[|series| - 1];
      if !Contains(nome, t.metrica) then Ok(b)
      else
        var ganha :- SlopeAgrees(t.direcao, grad);
        Ok(b + if ganha then TrendBonus else 0.0)
  }

  /** `diagnostico.contexto["gradientes"].items()` needs a dictionary. */
  function SeriesBonusOf(t: Tendencia, gradientes: Value): Result<real>
  {
    if gradientes.VDict? then SeriesBonus(t, gradientes.entries) else Err("AttributeError: items")
  }

  /** The bonus of every declared trend, in order; the first error raised ends the evaluation. */
  function TrendsBonus(ts: seq<Tendencia>, gradientes: Value): Result<real>
  {
    if |ts| == 0 then Ok(0.0)
    else
      var b :- TrendsBonus(ts[..|ts| - 1], gradientes);
      var c :- SeriesBonusOf(ts[|ts| - 1], gradientes);
      Ok(b + c)
  }

  /** The bonus of one trend is 0.3 times some number of series, at most all of them. */
  lemma {:induction false} SeriesBonusBounds(t: Tendencia, series: Ctx)
    requires SeriesBonus(t, series).Ok?
    ensures 0.0 <= SeriesBonus(t, series).value <= TrendBonus * |series| as real
  {
    if |series| > 0 {
      SeriesBonusBounds(t, series[..|series| - 1]);
    }
  }

  /** A trend adds nothing unless some series key contains its metric name. */
  lemma {:induction false} SeriesBonusNeedsName(t: Tendencia, series: Ctx)
    requires forall i :: 0 <= i < |series| ==> !Contains(series[i].0, t.metrica)
    ensures SeriesBonus(t, series) == Ok(0.0)
  {
    if |series| > 0 {
      SeriesBonusNeedsName(t, series[..|series| - 1]);
    }
  }

  lemma {:induction false} TrendsBonusNonNegative(ts: seq<Tendencia>, gradientes: Value)
    requires TrendsBonus(ts, gradientes).Ok?
    ensures TrendsBonus(ts, gradientes).value >= 0.0
  {
    if |ts| > 0 {
      TrendsBonusNonNegative(ts[..|ts| - 1], gradientes);
      SeriesBonusBounds(ts[|ts| - 1], gradientes.entries);
    }
  }

  /** The timestamps of the recorded applications of a strategy, in order. */
  function AppliedAt(hist: seq<Evolucao>, nome: string): seq<real>
  {
    if |hist| == 0 then []
    else
      var init := AppliedAt(hist[..|hist| - 1], nome);
      var last := hist[|hist| - 1];
      if last.estrategia == nome then init + [last.timestamp] else init
  }

  /** `AppliedAt` lists exactly the timestamps of the applications of `nome`. */
  lemma {:induction false} AppliedAtSpec(hist: seq<Evolucao>, nome: string)
    ensures forall i :: 0 <= i < |AppliedAt(hist, nome)| ==>
      exists k :: 0 <= k < |hist| && hist[k].estrategia == nome && hist[k].timestamp == AppliedAt(hist, nome)[i]
    ensures forall k :: 0 <= k < |hist| && hist[k].estrategia == nome ==> hist[k].timestamp in AppliedAt(hist, nome)
  {
    if |hist| > 0 {
      var init := hist[..|hist| - 1];
      AppliedAtSpec(init, nome);
      var r := AppliedAt(hist, nome);
      var ri := AppliedAt(init, nome);
      var n := |hist| - 1;
      forall i | 0 <= i < |AppliedAt(hist, nome)|
        ensures exists k :: 0 <= k < |hist| && hist[k].estrategia == nome && hist[k].timestamp == AppliedAt(hist, nome)[i]
      {
        if i < |ri| {
          assert r[i] == ri[i];
          assert exists k :: 0 <= k < |init| && init[k].estrategia == nome && init[k].timestamp == AppliedAt(init, nome)[i];
          var k :| 0 <= k < |init| && init[k].estrategia == nome && init[k].timestamp == ri[i];
          assert hist[k] == init[k];
        } else {
          assert hist[n].estrategia == nome && hist[n].timestamp == r[i];
        }
      }
      forall k | 0 <= k < |hist| && hist[k].estrategia == nome
        ensures hist[k].timestamp in r
      {
        if k < n {
          assert init[k] == hist[k];
          assert hist[k].timestamp in ri;
        } else {
          assert r == ri + [hist[n].timestamp];
          assert r[|ri|] == hist[k].timestamp;
        }
      }
    } else {
      assert AppliedAt(hist, nome) == [];
    }
  }

  /** The recency factor: `elapsed / 7 days` when the last application is less than seven days old, else 1. */
  function Recency(hist: seq<Evolucao>, nome: string, now: real): real
  {
    var ts := AppliedAt(hist, nome);
    if |ts| == 0 then 1.0
    else
      var elapsed := now - Max(ts);
      if elapsed < Week then elapsed / Week else 1.0
  }

  /** The score before the recency factor and the cap. */
  function RawScore(e: Estrategia, diag: Diagnosis): Result<real>
  {
    var base := if e.anomaliasAlvo.Some? then TargetTerm(e.anomaliasAlvo.value, Refactor.PresentIds(diag)) else 0.0;
    if e.tendencias.Some? && HasKey(diag.contexto, "gradientes") then
      GetFinds(diag.contexto, "gradientes");
      var bonus :- TrendsBonus(e.tendencias.value, Get(diag.contexto, "gradientes").value);
      Ok(base + bonus)
    else Ok(base)
  }

  /** `_avaliar_necessidade_evolucao` for one strategy: the raw score, damped by recency and capped. */
  function Score(nome: string, e: Estrategia, diag: Diagnosis, hist: seq<Evolucao>, now: real): Result<real>
  {
    var raw :- RawScore(e, diag);
    Ok(Damped(raw, hist, nome, now))
  }

  /** A raw score multiplied by the recency factor of `nome`, then `min(1.0, ·)`. */
  function Damped(raw: real, hist: seq<Evolucao>, nome: string, now: real): real
  {
    Cap(raw * Recency(hist, nome, now))
  }

  /** `min(1.0, x)`. */
  function Cap(x: real): real
  {
    if 1.0 <= x then 1.0 else x
  }

  /** With raw score `raw` the score is `raw` damped. */
  lemma ScoreOf(nome: string, e: Estrategia, diag: Diagnosis, hist: seq<Evolucao>, now: real, raw: real)
    requires RawScore(e, diag) == Ok(raw)
    ensures Score(nome, e, diag, hist, now).Ok?
    ensures Score(nome, e, diag, hist, now).value == Damped(raw, hist, nome, now)
  {
  }

  /** The recency factor is 1 without a recorded application, and in [0, 1] when none lies in the future. */
  lemma RecencyBounds(hist: seq<Evolucao>, nome: string, now: real)
    ensures (forall k :: 0 <= k < |hist| ==> hist[k].estrategia != nome) ==> Recency(hist, nome, now) == 1.0
    ensures (forall k :: 0 <= k < |hist| ==> hist[k].timestamp <= now) ==> 0.0 <= Recency(hist, nome, now) <= 1.0
  {
    var ts := AppliedAt(hist, nome);
    AppliedAtSpec(hist, nome);
    if |ts| > 0 {
      var m := Max(ts);
      var i :| 0 <= i < |ts| && m == ts[i];
      var k :| 0 <= k < |hist| && hist[k].estrategia == nome && hist[k].timestamp == ts[i];
      assert hist[k].estrategia == nome;
      if forall j :: 0 <= j < |hist| ==> hist[j].timestamp <= now {
        assert m <= now;
      }
    }
  }

  /** The raw score is never negative. */
  lemma RawScoreNonNegative(e: Estrategia, diag: Diagnosis)
    requires RawScore(e, diag).Ok?
    ensures RawScore(e, diag).value >= 0.0
  {
    if e.anomaliasAlvo.Some? {
      TargetTermBounds(e.anomaliasAlvo.value, Refactor.PresentIds(diag));
    }
    if e.tendencias.Some? && HasKey(diag.contexto, "gradientes") {
      GetFinds(diag.contexto, "gradientes");
      TrendsBonusNonNegative(e.tendencias.value, Get(diag.contexto, "gradientes").value);
    }
  }

  /**
   * A damped score is capped at 1; without a recorded application it is the
   * raw score, capped; with applications no more recent than the clock it
   * stays non-negative and never exceeds the capped raw score.
   */
  lemma DampedProperties(raw: real, hist: seq<Evolucao>, nome: string, now: real)
    requires raw >= 0.0
    ensures Damped(raw, hist, nome, now) <= 1.0
    ensures (forall k :: 0 <= k < |hist| ==> hist[k].estrategia != nome) ==> Damped(raw, hist, nome, now) == Cap(raw)
    ensures (forall k :: 0 <= k < |hist| ==> hist[k].timestamp <= now) ==> 0.0 <= Damped(raw, hist, nome, now) <= Cap(raw)
  {
    var f := Recency(hist, nome, now);
    RecencyBounds(hist, nome, now);
    if 0.0 <= f <= 1.0 {
      MulBounds(raw, f);
    }
  }

  lemma MulBounds(x: real, f: real)
    requires x >= 0.0 && 0.0 <= f <= 1.0
    ensures 0.0 <= x * f <= x
  {
  }

  /** A strategy applied `elapsed` seconds ago (within the week) has its raw score scaled by `elapsed / 7 days`. */
  lemma RecentPenalty(nome: string, raw: real, r: Ctx, applied: real, now: real)
    requires 0.0 <= now - applied < Week
    ensures Damped(raw, [Evolucao(nome, r, applied)], nome, now) == Cap(raw * ((now - applied) / Week))
  {
    var hist := [Evolucao(nome, r, applied)];
    assert hist[..0] == [];
    assert AppliedAt(hist, nome) == [applied];
    assert Max([applied]) == applied;
    assert Recency(hist, nome, now) == (now - applied) / Week;
  }

  /**
   * `_gerar_acao_evolutiva`: the strategy's commands filled with the
   * anomalies (without confidence) and the scalar context values, and the
   * strategy's values where given, else priority 0.3, risk 0.7, 1800 s,
   * not reversible.
   */
  function RedesignAction(nome: string, e: Estrategia, diag: Diagnosis, id: string, now: real, fmt: real -> string): (a: Acao)
    ensures a.tipo == Redesign
    ensures |a.comandos| == |Hotfix.OrElse(e.comandos, [])|
    ensures e.prioridade.None? ==> a.prioridade == 0.3
    ensures e.risco.None? ==> a.risco == 0.7
    ensures e.tempo.None? ==> a.tempo == 1800.0
    ensures e.reversivel.None? ==> !a.reversivel
  {
    Acao(
      id, Redesign,
      Hotfix.OrElse(e.descricao, "Evolução usando estratégia " + nome),
      FillCommands(Hotfix.OrElse(e.comandos, []), diag.anomalias, diag.contexto, false, fmt),
      Hotfix.OrElse(e.impacto, []),
      Hotfix.OrElse(e.tempo, 1800.0),
      Hotfix.OrElse(e.recursos, []),
      Hotfix.OrElse(e.prioridade, 0.3),
      Hotfix.OrElse(e.dependencias, []),
      Hotfix.OrElse(e.risco, 0.7),
      Hotfix.OrElse(e.reversivel, false),
      [("diagnostico_id", VStr(diag.id)), ("estrategia", VStr(nome)), ("timestamp", VReal(now))])
  }

  /** The scores of all strategies, in registration order; the first error raised ends the evaluation. */
  function Scores(es: Dict<string, Estrategia>, diag: Diagnosis, hist: seq<Evolucao>, now: real): (r: Result<Dict<string, real>>)
    ensures r.Ok? ==> Keys(r.value) == Keys(es)
  {
    if |es| == 0 then Ok([])
    else
      var init :- Scores(es[..|es| - 1], diag, hist, now);
      var (nome, e) := es[|es| - 1];
      var s :- Score(nome, e, diag, hist, now);
      KeysAppend(init, nome, s);
      KeysAppend(es[..|es| - 1], nome, e);
      assert es == es[..|es| - 1] + [(nome, e)];
      Ok(init + [(nome, s)])
  }

  /** The strategies whose score reaches the threshold, in order. */
  function Selected(scores: Dict<string, real>, limiar: real): (r: seq<string>)
    ensures |r| <= |scores|
    ensures forall n :: n in r <==> exists i :: 0 <= i < |scores| && scores[i].0 == n && scores[i].1 >= limiar
  {
    if |scores| == 0 then []
    else
      var init := Selected(scores[..|scores| - 1], limiar);
      var last := scores[|scores| - 1];
      assert forall i :: 0 <= i < |scores| - 1 ==> scores[..|scores| - 1][i] == scores[i];
      init + if last.1 >= limiar then [last.0] else []
  }

  class ProjetistaEvolutivo {
    /** `estrategias_evolutivas`, in registration order. */
    var estrategias: Dict<string, Estrategia>
    /** `historico_evolucoes`, an unbounded list. */
    var historico: seq<Evolucao>

    constructor ()
      ensures estrategias == [] && historico == []
    {
      estrategias := [];
      historico := [];
    }

    /** `registrar_estrategia`: a new name joins the end, an existing one is replaced in place. */
    method RegistrarEstrategia(nome: string, e: Estrategia)
      modifies this
      ensures estrategias == Put(old(estrategias), nome, e)
      ensures historico == old(historico)
    {
      estrategias := Put(estrategias, nome, e);
    }

    /** `registrar_evolucao`: the application is appended with the clock reading. */
    method RegistrarEvolucao(nome: string, resultado: Ctx, now: real)
      modifies this
      ensures historico == old(historico) + [Evolucao(nome, resultado, now)]
      ensures estrategias == old(estrategias)
    {
      historico := historico + [Evolucao(nome, resultado, now)];
    }

    /** The score of one strategy, its trends and gradient series scanned in nested loops. */
    method PontuarEstrategia(nome: string, e: Estrategia, diag: Diagnosis, now: real) returns (r: Result<real>)
      ensures r == Score(nome, e, diag, historico, now)
    {
      var raw := PontuacaoBruta(e, diag);
      if raw.Err? {
        return Err(raw.error);
      }
      var score := raw.value;
      var hist := AppliedAt(historico, nome);
      ghost var f := 1.0;
      if |hist| > 0 {
        var elapsed := now - Max(hist);
        if elapsed < Week {
          f := elapsed / Week;
          score := score * (elapsed / Week);
        }
      }
      assert f == Recency(historico, nome, now);
      ScoreOf(nome, e, diag, historico, now, raw.value);
      r := Ok(Cap(score));
      assert r.value == Score(nome, e, diag, historico, now).value;
    }

    /** The targeted-anomaly term plus the bonus of the declared trends, before recency and cap. */
    method PontuacaoBruta(e: Estrategia, diag: Diagnosis) returns (r: Result<real>)
      ensures r == RawScore(e, diag)
    {
      var score := if e.anomaliasAlvo.Some? then TargetTerm(e.anomaliasAlvo.value, Refactor.PresentIds(diag)) else 0.0;
      if e.tendencias.Some? && HasKey(diag.contexto, "gradientes") {
        GetFinds(diag.contexto, "gradientes");
        var bonus := BonusDasTendencias(e.tendencias.value, Get(diag.contexto, "gradientes").value);
        if bonus.Err? {
          return Err(bonus.error);
        }
        score := score + bonus.value;
      }
      r := Ok(score);
    }

    /** The bonus of every declared trend, one trend at a time. */
    method BonusDasTendencias(ts: seq<Tendencia>, gradientes: Value) returns (r: Result<real>)
      ensures r == TrendsBonus(ts, gradientes)
    {
      var bonus := 0.0;
      var i := 0;
      while i < |ts|
        invariant 0 <= i <= |ts|
        invariant TrendsBonus(ts[..i], gradientes) == Ok(bonus)
      {
        assert ts[..i + 1][..i] == ts[..i];
        var c := BonusDaTendencia(ts[i], gradientes);
        if c.Err? {
          TrendsBonusStop(ts, i + 1, gradientes);
          return Err(c.error);
        }
        bonus := bonus + c.value;
        i := i + 1;
      }
      assert ts[..i] == ts;
      r := Ok(bonus);
    }

    /** The bonus of one trend, the gradient series scanned in order. */
    method BonusDaTendencia(t: Tendencia, gradientes: Value) returns (r: Result<real>)
      ensures r == SeriesBonusOf(t, gradientes)
    {
      if !gradientes.VDict? {
        return Err("AttributeError: items");
      }
      var series := gradientes.entries;
      var bonus := 0.0;
      var j := 0;
      while j < |series|
        invariant 0 <= j <= |series|
        invariant SeriesBonus(t, series[..j]) == Ok(bonus)
      {
        SeriesBonusNext(t, series, j, bonus);
        var (nome, grad) := series[j];
        if Contains(nome, t.metrica) {
          var ganha := SlopeAgrees(t.direcao, grad);
          if ganha.Err? {
            SeriesBonusStop(t, series, j + 1);
            return Err(ganha.error);
          }
          if ganha.value {
            bonus := bonus + TrendBonus;
          }
        }
        j := j + 1;
      }
      assert series[..j] == series;
      r := Ok(bonus);
    }

    /** `_avaliar_necessidade_evolucao`: the score of every strategy, in registration order. */
    method AvaliarNecessidade(diag: Diagnosis, now: real) returns (r: Result<Dict<string, real>>)
      ensures r == Scores(estrategias, diag, historico, now)
    {
      var scores: Dict<string, real> := [];
      var i := 0;
      while i < |estrategias|
        invariant 0 <= i <= |estrategias|
        invariant Scores(estrategias[..i], diag, historico, now) == Ok(scores)
      {
        var (nome, e) := estrategias[i];
        var s := PontuarEstrategia(nome, e, diag, now);
        if s.Err? {
          ScoresStop(estrategias, i + 1, diag, historico, now);
          return Err(s.error);
        }
        ScoresNext(estrategias, i, diag, historico, now, scores);
        scores := scores + [(nome, s.value)];
        i := i + 1;
      }
      assert estrategias[..i] == estrategias;
      r := Ok(scores);
    }

    /**
     * `gerar_acoes`: one REDESIGN action per strategy whose score is at
     * least `limiar` (0.6 by default), in registration order; an error
     * raised while scoring propagates.
     */
    method GerarAcoes(diag: Diagnosis, now: real, limiar: real, sorteios: nat -> int, fmt: real -> string)
      returns (r: Result<seq<Acao>>)
      ensures var scores := Scores(estrategias, diag, historico, now);
        && (r.Ok? <==> scores.Ok?)
        && (r.Err? ==> r.error == scores.error)
        && (r.Ok? ==>
             var nomes := Selected(scores.value, limiar);
             && |r.value| == |nomes|
             && forall k :: 0 <= k < |nomes| ==> r.value[k] == Planned(estrategias, nomes[k], diag, now, sorteios(k), fmt))
    {
      var scores := AvaliarNecessidade(diag, now);
      if scores.Err? {
        return Err(scores.error);
      }
      var nomes := Selected(scores.value, limiar);
      var acoes := AcoesPara(estrategias, nomes, diag, now, sorteios, fmt);
      MapIndexedAt(nomes, Planner(estrategias, diag, now, sorteios, fmt));
      r := Ok(acoes);
    }

  }

  /** The registered strategy of a name (`estrategias_evolutivas[nome]`; every selected name is registered). */
  function StrategyIn(es: Dict<string, Estrategia>, nome: string): Estrategia
  {
    GetOr(es, nome, Estrategia(None, None, None, None, None, None, None, None, None, None, None))
  }

  /** The action `gerar_acoes` makes for the selected strategy `nome`. */
  function Planned(es: Dict<string, Estrategia>, nome: string, diag: Diagnosis, now: real, sorteio: int, fmt: real -> string): Acao
  {
    RedesignAction(nome, StrategyIn(es, nome), diag, Hotfix.ActionId("evol", now, sorteio), now, fmt)
  }

  /** `_gerar_acao_evolutiva`: the strategy's commands filled one by one, then the action. */
  method AcaoEvolutiva(es: Dict<string, Estrategia>, nome: string, diag: Diagnosis, now: real, sorteio: int, fmt: real -> string)
    returns (a: Acao)
    ensures a == Planned(es, nome, diag, now, sorteio, fmt)
  {
    var e := StrategyIn(es, nome);
    var cmds := PreencherComandos(Hotfix.OrElse(e.comandos, []), diag.anomalias, diag.contexto, false, fmt);
    a := RedesignAction(nome, e, diag, Hotfix.ActionId("evol", now, sorteio), now, fmt).(comandos := cmds);
  }

  /** The action of the selected strategy `nome` at position `k`, with random suffix `sorteios(k)`. */
  function Planner(es: Dict<string, Estrategia>, diag: Diagnosis, now: real, sorteios: nat -> int, fmt: real -> string)
    : (string, nat) -> Acao
  {
    (nome: string, k: nat) => Planned(es, nome, diag, now, sorteios(k), fmt)
  }

  /** One action per selected strategy, in order. */
  method AcoesPara(es: Dict<string, Estrategia>, nomes: seq<string>, diag: Diagnosis, now: real, sorteios: nat -> int, fmt: real -> string)
    returns (acoes: seq<Acao>)
    ensures acoes == MapIndexed(nomes, Planner(es, diag, now, sorteios, fmt))
  {
    acoes := [];
    var k := 0;
    while k < |nomes|
      invariant 0 <= k <= |nomes|
      invariant acoes == MapIndexed(nomes[..k], Planner(es, diag, now, sorteios, fmt))
    {
      var acao := AcaoEvolutiva(es, nomes[k], diag, now, sorteios(k), fmt);
      assert nomes[..k + 1][..k] == nomes[..k];
      acoes := acoes + [acao];
      k := k + 1;
    }
    assert nomes[..k] == nomes;
  }

  lemma {:induction false} TrendsBonusStop(ts: seq<Tendencia>, k: nat, gradientes: Value)
    requires 0 < k <= |ts|
    requires TrendsBonus(ts[..k - 1], gradientes).Ok? && SeriesBonusOf(ts[k - 1], gradientes).Err?
    ensures TrendsBonus(ts, gradientes) == Err(SeriesBonusOf(ts[k - 1], gradientes).error)
    decreases |ts| - k
  {
    assert ts[..k][..k - 1] == ts[..k - 1];
    TrendsBonusFails(ts, k, gradientes);
  }

  lemma {:induction false} TrendsBonusFails(ts: seq<Tendencia>, k: nat, gradientes: Value)
    requires 0 < k <= |ts| && TrendsBonus(ts[..k], gradientes).Err?
    ensures TrendsBonus(ts, gradientes) == TrendsBonus(ts[..k], gradientes)
    decreases |ts| - k
  {
    if k < |ts| {
      assert ts[..k + 1][..k] == ts[..k];
      TrendsBonusFails(ts, k + 1, gradientes);
    } else {
      assert ts[..k] == ts;
    }
  }

  /** One more series scanned: a series without the metric name adds nothing, a matching one adds its bonus. */
  lemma SeriesBonusNext(t: Tendencia, series: Ctx, j: nat, b: real)
    requires j < |series| && SeriesBonus(t, series[..j]) == Ok(b)
    ensures !Contains(series[j].0, t.metrica) ==> SeriesBonus(t, series[..j + 1]) == Ok(b)
    ensures Contains(series[j].0, t.metrica) && SlopeAgrees(t.direcao, series[j].1).Ok? ==>
      SeriesBonus(t, series[..j + 1]) == Ok(b + if SlopeAgrees(t.direcao, series[j].1).value then TrendBonus else 0.0)
  {
    assert series[..j + 1][..j] == series[..j];
  }

  lemma {:induction false} SeriesBonusStop(t: Tendencia, series: Ctx, k: nat)
    requires 0 < k <= |series|
    requires SeriesBonus(t, series[..k - 1]).Ok? && Contains(series[k - 1].0, t.metrica) && SlopeAgrees(t.direcao, series[k - 1].1).Err?
    ensures SeriesBonus(t, series) == Err(SlopeAgrees(t.direcao, series[k - 1].1).error)
    decreases |series| - k
  {
    assert series[..k][..k - 1] == series[..k - 1];
    SeriesBonusFails(t, series, k);
  }

  lemma {:induction false} SeriesBonusFails(t: Tendencia, series: Ctx, k: nat)
    requires 0 < k <= |series| && SeriesBonus(t, series[..k]).Err?
    ensures SeriesBonus(t, series) == SeriesBonus(t, series[..k])
    decreases |series| - k
  {
    if k < |series| {
      assert series[..k + 1][..k] == series[..k];
      SeriesBonusFails(t, series, k + 1);
    } else {
      assert series[..k] == series;
    }
  }

  /** One more strategy scored without error: its score is appended under its name. */
  lemma ScoresNext(es: Dict<string, Estrategia>, i: nat, diag: Diagnosis, hist: seq<Evolucao>, now: real, sc: Dict<string, real>)
    requires i < |es| && Scores(es[..i], diag, hist, now) == Ok(sc)
    requires Score(es[i].0, es[i].1, diag, hist, now).Ok?
    ensures Scores(es[..i + 1], diag, hist, now) == Ok(sc + [(es[i].0, Score(es[i].0, es[i].1, diag, hist, now).value)])
  {
    assert es[..i + 1][..i] == es[..i];
  }

  lemma {:induction false} ScoresStop(es: Dict<string, Estrategia>, k: nat, diag: Diagnosis, hist: seq<Evolucao>, now: real)
    requires 0 < k <= |es|
    requires Scores(es[..k - 1], diag, hist, now).Ok? && Score(es[k - 1].0, es[k - 1].1, diag, hist, now).Err?
    ensures Scores(es, diag, hist, now) == Err(Score(es[k - 1].0, es[k - 1].1, diag, hist, now).error)
    decreases |es| - k
  {
    assert es[..k][..k - 1] == es[..k - 1];
    ScoresFail(es, k, diag, hist, now);
  }

  lemma {:induction false} ScoresFail(es: Dict<string, Estrategia>, k: nat, diag: Diagnosis, hist: seq<Evolucao>, now: real)
    requires 0 < k <= |es| && Scores(es[..k], diag, hist, now).Err?
    ensures Scores(es, diag, hist, now) == Scores(es[..k], diag, hist, now)
    decreases |es| - k
  {
    if k < |es| {
      assert es[..k + 1][..k] == es[..k];
      ScoresFail(es, k + 1, diag, hist, now);
    } else {
      assert es[..k] == es;
    }
  }
}
