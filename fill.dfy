/**
 * Placeholder substitution in the command templates of
 * src/gerador_acoes/gerador_acoes.py: every command is rewritten by
 * `str.replace`, first with the detected anomalies (`{anomalia_id}`,
 * `{anomalia_nome}` and, for hotfixes only, `{confianca}`), then with every
 * context entry whose value is a str, int, float or bool (`{chave}`).
 */
module Fill {
  import opened Values
  import opened Text
  import opened Patterns

  /** The replacements one anomaly makes, in order. */
  function FillAnomaly(cmd: string, a: (Pattern, real), comConfianca: bool, fmt: real -> string): string
  {
    var c := Replace(Replace(cmd, "{anomalia_id}", a.0.id), "{anomalia_nome}", a.0.nome);
    if comConfianca then Replace(c, "{confianca}", fmt(a.1)) else c
  }

  /** `for anomalia, conf in diagnostico.anomalias_detectadas: cmd = cmd.replace(...)`. */
  function FillAnomalies(cmd: string, anoms: seq<(Pattern, real)>, comConfianca: bool, fmt: real -> string): string
    decreases |anoms|
  {
    if |anoms| == 0 then cmd else FillAnomalies(FillAnomaly(cmd, anoms[0], comConfianca, fmt), anoms[1..], comConfianca, fmt)
  }

  function Placeholder(chave: string): string
  {
    "{" + chave + "}"
  }

  /** `for chave, valor in contexto.items(): if isinstance(valor, (str, int, float, bool)): cmd = cmd.replace(...)`. */
  function FillContext(cmd: string, ctx: Ctx, fmt: real -> string): string
    decreases |ctx|
  {
    if |ctx| == 0 then cmd
    else if IsScalar(ctx[0].1) then FillContext(Replace(cmd, Placeholder(ctx[0].0), ScalarText(ctx[0].1, fmt)), ctx[1..], fmt)
    else FillContext(cmd, ctx[1..], fmt)
  }

  /** One command after both rounds of substitution. */
  function FillCommand(cmd: string, anoms: seq<(Pattern, real)>, ctx: Ctx, comConfianca: bool, fmt: real -> string): string
  {
    FillContext(FillAnomalies(cmd, anoms, comConfianca, fmt), ctx, fmt)
  }

  /** Every command of a list filled. */
  function FillCommands(cmds: seq<string>, anoms: seq<(Pattern, real)>, ctx: Ctx, comConfianca: bool, fmt: real -> string): (r: seq<string>)
    ensures |r| == |cmds|
    ensures forall i :: 0 <= i < |cmds| ==> r[i] == FillCommand(cmds[i], anoms, ctx, comConfianca, fmt)
  {
    seq(|cmds|, i requires 0 <= i < |cmds| => FillCommand(cmds[i], anoms, ctx, comConfianca, fmt))
  }

  /** The template's command list, each command filled in place; the list keeps its length. */
  method PreencherComandos(cmds: seq<string>, anoms: seq<(Pattern, real)>, ctx: Ctx, comConfianca: bool, fmt: real -> string)
    returns (r: seq<string>)
    ensures |r| == |cmds|
    ensures r == FillCommands(cmds, anoms, ctx, comConfianca, fmt)
  {
    r := cmds;
    var i := 0;
    while i < |r|
      invariant 0 <= i <= |r| == |cmds|
      invariant forall k :: 0 <= k < i ==> r[k] == FillCommand(cmds[k], anoms, ctx, comConfianca, fmt)
      invariant forall k :: i <= k < |r| ==> r[k] == cmds[k]
    {
      var cmd := r[i];
      var j := 0;
      while j < |anoms|
        invariant 0 <= j <= |anoms|
        invariant FillAnomalies(cmd, anoms[j..], comConfianca, fmt) == FillAnomalies(cmds[i], anoms, comConfianca, fmt)
      {
        cmd := FillAnomaly(cmd, anoms[j], comConfianca, fmt);
        assert anoms[j..][1..] == anoms[j + 1..];
        j := j + 1;
      }
      var k := 0;
      while k < |ctx|
        invariant 0 <= k <= |ctx|
        invariant FillContext(cmd, ctx[k..], fmt) == FillCommand(cmds[i], anoms, ctx, comConfianca, fmt)
      {
        assert ctx[k..][1..] == ctx[k + 1..];
        var (chave, valor) := ctx[k];
        if IsScalar(valor) {
          cmd := Replace(cmd, Placeholder(chave), ScalarText(valor, fmt));
        }
        k := k + 1;
      }
      r := r[i := cmd];
      i := i + 1;
    }
  }

  /** Only scalar context values are substituted: the others could as well be absent. */
  lemma {:induction false} OnlyScalarsFilled(cmd: string, ctx: Ctx, fmt: real -> string)
    ensures FillContext(cmd, ctx, fmt) == FillContext(cmd, ScalarsOnly(ctx), fmt)
    decreases |ctx|
  {
    if |ctx| > 0 {
      if IsScalar(ctx[0].1) {
        OnlyScalarsFilled(Replace(cmd, Placeholder(ctx[0].0), ScalarText(ctx[0].1, fmt)), ctx[1..], fmt);
      } else {
        OnlyScalarsFilled(cmd, ctx[1..], fmt);
      }
    }
  }

  /** Every placeholder the substitution looks for, given the anomalies and the context. */
  predicate Substituted(p: string, anoms: seq<(Pattern, real)>, ctx: Ctx, comConfianca: bool)
  {
    || (|anoms| > 0 && (p == "{anomalia_id}" || p == "{anomalia_nome}" || (comConfianca && p == "{confianca}")))
    || exists i :: 0 <= i < |ctx| && IsScalar(ctx[i].1) && p == Placeholder(ctx[i].0)
  }

  /**
   * A command whose placeholders are all unmatched comes back unchanged:
   * if none of the substituted placeholders occurs in it, nothing is replaced.
   */
  lemma UnmatchedUnchanged(cmd: string, anoms: seq<(Pattern, real)>, ctx: Ctx, comConfianca: bool, fmt: real -> string)
    requires forall p :: Substituted(p, anoms, ctx, comConfianca) ==> !Contains(cmd, p)
    ensures FillCommand(cmd, anoms, ctx, comConfianca, fmt) == cmd
  {
    AnomaliesUnchanged(cmd, anoms, comConfianca, fmt);
    ContextUnchanged(cmd, ctx, fmt);
  }

  lemma {:induction false} AnomaliesUnchanged(cmd: string, anoms: seq<(Pattern, real)>, comConfianca: bool, fmt: real -> string)
    requires |anoms| > 0 ==> !Contains(cmd, "{anomalia_id}") && !Contains(cmd, "{anomalia_nome}")
    requires |anoms| > 0 && comConfianca ==> !Contains(cmd, "{confianca}")
    ensures FillAnomalies(cmd, anoms, comConfianca, fmt) == cmd
  {
    if |anoms| > 0 {
      ReplaceAbsent(cmd, "{anomalia_id}", anoms[0].0.id);
      ReplaceAbsent(cmd, "{anomalia_nome}", anoms[0].0.nome);
      if comConfianca {
        ReplaceAbsent(cmd, "{confianca}", fmt(anoms[0].1));
      }
      AnomaliesUnchanged(cmd, anoms[1..], comConfianca, fmt);
    }
  }

  lemma {:induction false} ContextUnchanged(cmd: string, ctx: Ctx, fmt: real -> string)
    requires forall i :: 0 <= i < |ctx| && IsScalar(ctx[i].1) ==> !Contains(cmd, Placeholder(ctx[i].0))
    ensures FillContext(cmd, ctx, fmt) == cmd
  {
    if |ctx| > 0 {
      if IsScalar(ctx[0].1) {
        ReplaceAbsent(cmd, Placeholder(ctx[0].0), ScalarText(ctx[0].1, fmt));
      }
      forall i | 0 <= i < |ctx[1..]| && IsScalar(ctx[1..][i].1) ensures !Contains(cmd, Placeholder(ctx[1..][i].0)) {
        assert ctx[1..][i] == ctx[i + 1];
      }
      ContextUnchanged(cmd, ctx[1..], fmt);
    }
  }

  /** Every placeholder begins with a brace, so a command without braces is never rewritten. */
  lemma BraceFreeUnchanged(cmd: string, anoms: seq<(Pattern, real)>, ctx: Ctx, comConfianca: bool, fmt: real -> string)
    requires '{' !in cmd
    ensures FillCommand(cmd, anoms, ctx, comConfianca, fmt) == cmd
  {
    forall p | Substituted(p, anoms, ctx, comConfianca) ensures !Contains(cmd, p) {
      assert |p| > 0 && p[0] == '{';
      ContainsFirst(cmd, p);
    }
    UnmatchedUnchanged(cmd, anoms, ctx, comConfianca, fmt);
  }

  lemma ContainsFirst(s: string, p: string)
    requires |p| > 0
    ensures Contains(s, p) ==> p[0] in s
  {
    if Contains(s, p) {
      var i :| 0 <= i <= |s| && OccursAt(s, p, i);
      assert s[i..i + |p|][0] == s[i];
    }
  }

  /** One scalar entry whose placeholder is the whole command: the command becomes the value's text. */
  lemma SinglePlaceholder(chave: string, v: Value, fmt: real -> string)
    requires IsScalar(v)
    ensures FillContext(Placeholder(chave), [(chave, v)], fmt) == ScalarText(v, fmt)
  {
    ReplaceFront(Placeholder(chave), ScalarText(v, fmt), "");
    assert Placeholder(chave) + "" == Placeholder(chave);
    assert Replace("", Placeholder(chave), ScalarText(v, fmt)) == "";
    assert ScalarText(v, fmt) + "" == ScalarText(v, fmt);
  }
}
