/**
 * Templates with `{{name}}` markers, as read from the templates directory.
 * A template is described by its pieces: literal text and markers. The
 * lemmas here say what chains of `replace(/{{name}}/g, …)` and of
 * `replace('{{name}}', …)` do to such a template, piece by piece.
 */
module Placeholders {
  import opened JsString

  datatype Piece = Lit(text: string) | Marker(name: string)

  /** The text of a marker: `{{name}}`. */
  function Mk(name: string): string
  {
    "{{" + name + "}}"
  }

  /** Text in which no `{{` can start: every `{` is followed, inside the text, by another character. */
  predicate GoodText(t: string)
  {
    (|t| > 0 ==> t[|t| - 1] != '{') &&
    forall i, j :: 0 <= i < |t| && 0 <= j < |t| && j == i + 1 ==> t[i] != '{' || t[j] != '{'
  }

  predicate GoodName(n: string)
  {
    |n| > 0 && '{' !in n && '}' !in n
  }

  predicate GoodPiece(pc: Piece)
  {
    match pc
    case Lit(t) => GoodText(t)
    case Marker(n) => GoodName(n)
  }

  predicate GoodTemplate(ps: seq<Piece>)
  {
    forall i :: 0 <= i < |ps| ==> GoodPiece(ps[i])
  }

  function RenderPiece(pc: Piece): string
  {
    match pc
    case Lit(t) => t
    case Marker(n) => Mk(n)
  }

  /** The template's text. */
  function Render(ps: seq<Piece>): string
    decreases |ps|
  {
    if ps == [] then "" else RenderPiece(ps[0]) + Render(ps[1..])
  }

  /** Every marker whose name `env` defines becomes that text. */
  function Fill(ps: seq<Piece>, env: map<string, string>): (r: seq<Piece>)
    ensures |r| == |ps|
    decreases |ps|
  {
    if ps == [] then []
    else
      var pc := if ps[0].Marker? && ps[0].name in env then Lit(env[ps[0].name]) else ps[0];
      [pc] + Fill(ps[1..], env)
  }

  /** Only the first marker called `n` becomes `r`. */
  function FillFirst(ps: seq<Piece>, n: string, r: string): seq<Piece>
    decreases |ps|
  {
    if ps == [] then []
    else if ps[0] == Marker(n) then [Lit(r)] + ps[1..]
    else [ps[0]] + FillFirst(ps[1..], n, r)
  }

  // ------------------------------------------------------------ no stray match

  /** One differing character rules a match out. */
  lemma Differ(s: string, p: string, k: int, j: int)
    requires 0 <= j < |p|
    requires 0 <= k + j < |s| ==> s[k + j] != p[j]
    ensures !MatchAt(s, p, k)
  {
    if 0 <= k && k + |p| <= |s| {
      assert s[k..k + |p|][j] == s[k + j];
    }
  }

  lemma MkChars(n: string)
    ensures |Mk(n)| == |n| + 4
    ensures Mk(n)[0] == '{' && Mk(n)[1] == '{'
    ensures forall j :: 0 <= j < |n| ==> Mk(n)[j + 2] == n[j]
    ensures Mk(n)[|n| + 2] == '}' && Mk(n)[|n| + 3] == '}'
  {
  }

  /** A marker for `n` cannot start inside any piece other than a marker for `n`. */
  lemma NoEarlyMatch(pc: Piece, b: string, n: string, k: int)
    requires GoodPiece(pc) && GoodName(n) && pc != Marker(n)
    requires 0 <= k < |RenderPiece(pc)|
    ensures !MatchAt(RenderPiece(pc) + b, Mk(n), k)
  {
    match pc
    case Lit(t) => LitNoMatch(t, b, n, k);
    case Marker(m) =>
      if k == 0 {
        OtherMarkerNoMatch(m, b, n);
      } else {
        MarkerInsideNoMatch(m, b, n, k);
      }
  }

  /** In a literal, every `{` is followed by another character, so no marker starts there. */
  lemma LitNoMatch(t: string, b: string, n: string, k: int)
    requires GoodText(t) && GoodName(n) && 0 <= k < |t|
    ensures !MatchAt(t + b, Mk(n), k)
  {
    var s := t + b;
    var p := Mk(n);
    MkChars(n);
    if t[k] != '{' {
      Differ(s, p, k, 0);
    } else {
      assert k + 1 < |t|;
      assert s[k + 1] == t[k + 1];
      Differ(s, p, k, 1);
    }
  }

  /** Past its first character, a marker holds no `{{`. */
  lemma MarkerInsideNoMatch(m: string, b: string, n: string, k: int)
    requires GoodName(m) && GoodName(n) && 0 < k < |Mk(m)|
    ensures !MatchAt(Mk(m) + b, Mk(n), k)
  {
    var s := Mk(m) + b;
    var p := Mk(n);
    MkChars(n);
    MkChars(m);
    if k >= 2 {
      assert s[k] != '{' by {
        if k < |m| + 2 {
          assert s[k] == m[k - 2];
        }
      }
      Differ(s, p, k, 0);
    } else {
      assert s[2] == m[0];
      Differ(s, p, k, 1);
    }
  }

  /** A marker for another name differs from the marker for `n` at its start. */
  lemma OtherMarkerNoMatch(m: string, b: string, n: string)
    requires GoodName(m) && GoodName(n) && m != n
    ensures !MatchAt(Mk(m) + b, Mk(n), 0)
  {
    var s := Mk(m) + b;
    var p := Mk(n);
    MkChars(n);
    MkChars(m);
    if |m| < |n| {
      assert s[|m| + 2] == '}';
      assert p[|m| + 2] == n[|m|];
      Differ(s, p, 0, |m| + 2);
    } else if |m| > |n| {
      assert s[|n| + 2] == m[|n|];
      Differ(s, p, 0, |n| + 2);
    } else {
      var i :| 0 <= i < |m| && m[i] != n[i];
      assert s[i + 2] == m[i];
      Differ(s, p, 0, i + 2);
    }
  }


  lemma RenderAppend(xs: seq<Piece>, ys: seq<Piece>)
    ensures Render(xs + ys) == Render(xs) + Render(ys)
    decreases |xs|
  {
    if xs == [] {
      assert xs + ys == ys;
    } else {
      assert (xs + ys)[1..] == xs[1..] + ys;
      RenderAppend(xs[1..], ys);
    }
  }

  /** Text rendered from pieces without a marker for `n` starts no occurrence of `{{n}}`. */
  lemma {:induction false} PrefixNoMatch(qs: seq<Piece>, b: string, n: string)
    requires GoodTemplate(qs) && GoodName(n) && Marker(n) !in qs
    ensures forall k :: 0 <= k < |Render(qs)| ==> !MatchAt(Render(qs) + b, Mk(n), k)
    decreases |qs|
  {
    if qs != [] {
      var a := RenderPiece(qs[0]);
      var rest := Render(qs[1..]);
      assert Render(qs) + b == a + (rest + b);
      assert qs[0] in qs;
      PrefixNoMatch(qs[1..], b, n);
      forall k | 0 <= k < |Render(qs)|
        ensures !MatchAt(Render(qs) + b, Mk(n), k)
      {
        if k < |a| {
          NoEarlyMatch(qs[0], rest + b, n, k);
        } else {
          MatchAtAppend(a, rest + b, Mk(n), k - |a|);
        }
      }
    }
  }

  /** A template with no marker for `n` does not contain `{{n}}` at all. */
  lemma NoMarkerNoMatch(ps: seq<Piece>, n: string)
    requires GoodTemplate(ps) && GoodName(n) && Marker(n) !in ps
    ensures !Includes(Render(ps), Mk(n))
  {
    PrefixNoMatch(ps, "", n);
    assert Render(ps) + "" == Render(ps);
  }

  lemma {:induction false} MarkerIncluded(ps: seq<Piece>, n: string)
    requires Marker(n) in ps
    ensures Includes(Render(ps), Mk(n))
    decreases |ps|
  {
    if ps[0] == Marker(n) {
      IncludesHead(Mk(n), Render(ps[1..]));
    } else {
      assert Marker(n) in ps[1..];
      MarkerIncluded(ps[1..], n);
      IncludesTail(RenderPiece(ps[0]), Render(ps[1..]), Mk(n));
    }
  }

  // ------------------------------------------------------ one replace, rendered

  /** `replace(/{{n}}/g, r)` turns every marker for `n` into `r` and touches nothing else. */
  lemma {:induction false} ReplaceAllRender(ps: seq<Piece>, n: string, r: string)
    requires GoodTemplate(ps) && GoodName(n)
    ensures ReplaceAll(Render(ps), Mk(n), r) == Render(Fill(ps, map[n := r]))
    decreases |ps|
  {
    if ps != [] {
      var rest := Render(ps[1..]);
      ReplaceAllRender(ps[1..], n, r);
      if ps[0] == Marker(n) {
        ReplaceAllHead(Mk(n), rest, r);
      } else {
        forall k | 0 <= k < |RenderPiece(ps[0])|
          ensures !MatchAt(RenderPiece(ps[0]) + rest, Mk(n), k)
        {
          NoEarlyMatch(ps[0], rest, n, k);
        }
        ReplaceAllShift(RenderPiece(ps[0]), rest, Mk(n), r);
      }
    }
  }

  /** `replace('{{n}}', r)` turns only the first marker for `n` into `r`. */
  lemma {:induction false} ReplaceFirstRender(ps: seq<Piece>, n: string, r: string)
    requires GoodTemplate(ps) && GoodName(n)
    ensures ReplaceFirst(Render(ps), Mk(n), r) == Render(FillFirst(ps, n, r))
    decreases |ps|
  {
    if ps == [] {
    } else if ps[0] == Marker(n) {
      ReplaceFirstHead(Mk(n), Render(ps[1..]), r);
    } else {
      var rest := Render(ps[1..]);
      ReplaceFirstRender(ps[1..], n, r);
      forall k | 0 <= k < |RenderPiece(ps[0])|
        ensures !MatchAt(RenderPiece(ps[0]) + rest, Mk(n), k)
      {
        NoEarlyMatch(ps[0], rest, n, k);
      }
      ReplaceFirstShift(RenderPiece(ps[0]), rest, Mk(n), r);
    }
  }

  /** With two markers for `n`, a first-occurrence replace leaves `{{n}}` in the output. */
  lemma SecondMarkerSurvives(xs: seq<Piece>, ys: seq<Piece>, zs: seq<Piece>, n: string, r: string)
    requires GoodTemplate(xs + [Marker(n)] + ys + [Marker(n)] + zs) && GoodName(n)
    ensures Includes(ReplaceFirst(Render(xs + [Marker(n)] + ys + [Marker(n)] + zs), Mk(n), r), Mk(n))
  {
    var ps := xs + [Marker(n)] + ys + [Marker(n)] + zs;
    ReplaceFirstRender(ps, n, r);
    SurvivesAfterFirst(ps, |xs|, |xs| + 1 + |ys|, n, r);
    MarkerIncluded(FillFirst(ps, n, r), n);
  }

  lemma {:induction false} SurvivesAfterFirst(ps: seq<Piece>, i: nat, j: nat, n: string, r: string)
    requires i < j < |ps| && ps[i] == Marker(n) && ps[j] == Marker(n)
    ensures Marker(n) in FillFirst(ps, n, r)
    decreases |ps|
  {
    if ps[0] == Marker(n) {
      assert FillFirst(ps, n, r)[j] == ps[j];
    } else {
      SurvivesAfterFirst(ps[1..], i - 1, j - 1, n, r);
      assert FillFirst(ps, n, r)[1..] == FillFirst(ps[1..], n, r);
    }
  }

  // ------------------------------------------------------------ Fill algebra

  lemma {:induction false} FillGood(ps: seq<Piece>, env: map<string, string>)
    requires GoodTemplate(ps)
    requires forall k :: k in env ==> GoodText(env[k])
    ensures GoodTemplate(Fill(ps, env))
    decreases |ps|
  {
    if ps != [] {
      FillGood(ps[1..], env);
      var f := Fill(ps, env);
      assert GoodPiece(f[0]);
      assert f[1..] == Fill(ps[1..], env);
      assert forall i :: 1 <= i < |f| ==> f[i] == f[1..][i - 1];
    }
  }

  /** Filling `n` first and then `env` is filling with `env` overridden at `n`. */
  lemma {:induction false} FillFill(ps: seq<Piece>, n: string, r: string, env: map<string, string>)
    ensures Fill(Fill(ps, map[n := r]), env) == Fill(ps, env[n := r])
    decreases |ps|
  {
    if ps != [] {
      FillFill(ps[1..], n, r, env);
      var f := Fill(ps, map[n := r]);
      assert f[1..] == Fill(ps[1..], map[n := r]);
    }
  }

  lemma {:induction false} FillNothing(ps: seq<Piece>)
    ensures Fill(ps, map[]) == ps
    decreases |ps|
  {
    if ps != [] {
      FillNothing(ps[1..]);
    }
  }

  /** Filling works piece by piece: each marker `env` defines becomes its text, everything else stays. */
  lemma {:induction false} FillAt(ps: seq<Piece>, env: map<string, string>, i: int)
    requires 0 <= i < |ps|
    ensures |Fill(ps, env)| == |ps|
    ensures Fill(ps, env)[i] == if ps[i].Marker? && ps[i].name in env then Lit(env[ps[i].name]) else ps[i]
    decreases |ps|
  {
    if i > 0 {
      FillAt(ps[1..], env, i - 1);
    } else if |ps| > 1 {
      FillAt(ps[1..], env, 0);
    }
  }

  /** A definition for a name the template has no marker for plays no part in the fill. */
  lemma {:induction false} FillIgnoresAbsent(ps: seq<Piece>, env: map<string, string>, n: string, r: string)
    requires Marker(n) !in ps
    ensures Fill(ps, env[n := r]) == Fill(ps, env)
    decreases |ps|
  {
    if ps != [] {
      assert Marker(n) !in ps[1..];
      FillIgnoresAbsent(ps[1..], env, n, r);
    }
  }

  /** Filling with a definition for `n` leaves no marker for `n`. */
  lemma {:induction false} FillRemoves(ps: seq<Piece>, env: map<string, string>, n: string)
    requires n in env
    ensures Marker(n) !in Fill(ps, env)
    decreases |ps|
  {
    if ps != [] {
      FillRemoves(ps[1..], env, n);
      assert Fill(ps, env) == [Fill(ps, env)[0]] + Fill(ps[1..], env);
    }
  }

  // ------------------------------------------------------------------ chains

  /** One link of a chain: `.replace(/{{name}}/g, replacement)`. */
  datatype Step = Step(name: string, replacement: string)

  predicate GoodSteps(steps: seq<Step>)
  {
    forall i :: 0 <= i < |steps| ==> GoodName(steps[i].name) && GoodText(steps[i].replacement)
  }

  /** The chained global replaces, applied left to right. */
  function Chain(s: string, steps: seq<Step>): string
    decreases |steps|
  {
    if steps == [] then s
    else Chain(ReplaceAll(s, Mk(steps[0].name), steps[0].replacement), steps[1..])
  }

  /** For each name, the replacement of the first step that names it. */
  function FirstWins(steps: seq<Step>): map<string, string>
    decreases |steps|
  {
    if steps == [] then map[] else FirstWins(steps[1..])[steps[0].name := steps[0].replacement]
  }

  /**
   * A chain of global replaces over a template fills each marker with the
   * replacement of the FIRST step naming it: a later step for the same name
   * finds nothing left to replace.
   */
  lemma {:induction false} ChainRender(ps: seq<Piece>, steps: seq<Step>)
    requires GoodTemplate(ps) && GoodSteps(steps)
    ensures Chain(Render(ps), steps) == Render(Fill(ps, FirstWins(steps)))
    decreases |steps|
  {
    if steps == [] {
      FillNothing(ps);
    } else {
      var st := steps[0];
      ReplaceAllRender(ps, st.name, st.replacement);
      var ps1 := Fill(ps, map[st.name := st.replacement]);
      FillGood(ps, map[st.name := st.replacement]);
      ChainRender(ps1, steps[1..]);
      FillFill(ps, st.name, st.replacement, FirstWins(steps[1..]));
    }
  }

  lemma {:induction false} FirstWinsValues(steps: seq<Step>)
    requires GoodSteps(steps)
    ensures forall k :: k in FirstWins(steps) ==> GoodText(FirstWins(steps)[k])
    decreases |steps|
  {
    if steps != [] {
      FirstWinsValues(steps[1..]);
    }
  }

  /** After a chain, no marker named by any of its steps is left in the output. */
  lemma ChainLeavesNoMarker(ps: seq<Piece>, steps: seq<Step>, n: string)
    requires GoodTemplate(ps) && GoodSteps(steps)
    requires n in FirstWins(steps)
    ensures !Includes(Chain(Render(ps), steps), Mk(n))
  {
    ChainRender(ps, steps);
    FirstWinsValues(steps);
    FillGood(ps, FirstWins(steps));
    FillRemoves(ps, FirstWins(steps), n);
    FirstWinsNames(steps, n);
    NoMarkerNoMatch(Fill(ps, FirstWins(steps)), n);
  }

  lemma {:induction false} FirstWinsNames(steps: seq<Step>, n: string)
    requires GoodSteps(steps) && n in FirstWins(steps)
    ensures GoodName(n)
    decreases |steps|
  {
    if steps[0].name != n {
      FirstWinsNames(steps[1..], n);
    }
  }

  lemma {:induction false} ChainAppend(s: string, xs: seq<Step>, ys: seq<Step>)
    ensures Chain(s, xs + ys) == Chain(Chain(s, xs), ys)
    decreases |xs|
  {
    if xs == [] {
      assert xs + ys == ys;
    } else {
      assert (xs + ys)[1..] == xs[1..] + ys;
      ChainAppend(ReplaceAll(s, Mk(xs[0].name), xs[0].replacement), xs[1..], ys);
    }
  }

  /** A first step whose marker the template does not hold changes nothing, whatever its replacement. */
  lemma ChainSkipAbsent(ps: seq<Piece>, st: Step, rest: seq<Step>)
    requires GoodTemplate(ps) && GoodName(st.name) && Marker(st.name) !in ps
    ensures Chain(Render(ps), [st] + rest) == Chain(Render(ps), rest)
  {
    NoMarkerNoMatch(ps, st.name);
    ReplaceAllAbsent(Render(ps), Mk(st.name), st.replacement);
    assert ([st] + rest)[1..] == rest;
  }

  lemma GoodStepsAppend(xs: seq<Step>, ys: seq<Step>)
    requires GoodSteps(xs) && GoodSteps(ys)
    ensures GoodSteps(xs + ys)
  {
    forall i | 0 <= i < |xs + ys|
      ensures GoodName((xs + ys)[i].name) && GoodText((xs + ys)[i].replacement)
    {
      if i >= |xs| {
        assert (xs + ys)[i] == ys[i - |xs|];
      }
    }
  }

  lemma GoodStepsSplit(xs: seq<Step>, ys: seq<Step>)
    requires GoodSteps(xs + ys)
    ensures GoodSteps(xs) && GoodSteps(ys)
  {
    assert forall i :: 0 <= i < |xs| ==> xs[i] == (xs + ys)[i];
    assert forall i :: 0 <= i < |ys| ==> ys[i] == (xs + ys)[i + |xs|];
  }

  lemma RenderThree(a: Piece, b: Piece, c: Piece)
    ensures Render([a, b, c]) == RenderPiece(a) + RenderPiece(b) + RenderPiece(c)
  {
    assert [a, b, c][1..] == [b, c];
    assert [b, c][1..] == [c];
    assert [c][1..] == [];
    assert Render([c]) == RenderPiece(c) + "" == RenderPiece(c);
  }

  /** Every name some step mentions is defined by `FirstWins`. */
  lemma {:induction false} FirstWinsHas(steps: seq<Step>, i: int)
    requires 0 <= i < |steps|
    ensures steps[i].name in FirstWins(steps)
    decreases i
  {
    if i > 0 {
      FirstWinsHas(steps[1..], i - 1);
    }
  }

  /** A step whose name no earlier step uses decides what that name becomes. */
  lemma {:induction false} FirstWinsAt(steps: seq<Step>, i: int)
    requires 0 <= i < |steps|
    requires forall j :: 0 <= j < i ==> steps[j].name != steps[i].name
    ensures steps[i].name in FirstWins(steps)
    ensures FirstWins(steps)[steps[i].name] == steps[i].replacement
    decreases i
  {
    if i > 0 {
      FirstWinsAt(steps[1..], i - 1);
    }
  }

  /**
   * In a chain over a template, a step for a name an earlier step already
   * replaced finds nothing and can be dropped.
   */
  lemma ChainDropShadowed(ps: seq<Piece>, steps: seq<Step>, i: int, j: int)
    requires GoodTemplate(ps) && GoodSteps(steps)
    requires 0 <= i < j < |steps| && steps[i].name == steps[j].name
    ensures Chain(Render(ps), steps) == Chain(Render(ps), steps[..j] + steps[j + 1..])
  {
    var pre, post := steps[..j], steps[j + 1..];
    var n := steps[j].name;
    assert steps == pre + ([steps[j]] + post);
    ChainAppend(Render(ps), pre, [steps[j]] + post);
    ChainAppend(Render(ps), pre, post);
    assert GoodSteps(pre) by {
      assert forall k :: 0 <= k < |pre| ==> pre[k] == steps[k];
    }
    ChainRender(ps, pre);
    var qs := Fill(ps, FirstWins(pre));
    FirstWinsValues(pre);
    FillGood(ps, FirstWins(pre));
    assert pre[i].name == n;
    FirstWinsHas(pre, i);
    FillRemoves(ps, FirstWins(pre), n);
    NoMarkerNoMatch(qs, n);
    ReplaceAllAbsent(Render(qs), Mk(n), steps[j].replacement);
    assert ([steps[j]] + post)[1..] == post;
  }

  /** The steps that do not name `n`, in order. */
  function Without(steps: seq<Step>, n: string): seq<Step>
    decreases |steps|
  {
    if steps == [] then []
    else (if steps[0].name == n then [] else [steps[0]]) + Without(steps[1..], n)
  }

  /** Filling only turns markers into text, so it never brings back a marker. */
  lemma {:induction false} FillKeepsAbsent(ps: seq<Piece>, env: map<string, string>, n: string)
    requires Marker(n) !in ps
    ensures Marker(n) !in Fill(ps, env)
    decreases |ps|
  {
    if ps != [] {
      assert ps[0] != Marker(n);
      assert Marker(n) !in ps[1..];
      FillKeepsAbsent(ps[1..], env, n);
      assert Fill(ps, env) == [Fill(ps, env)[0]] + Fill(ps[1..], env);
    }
  }

  /** Once a template has no marker `n`, every step for `n` in a chain over it is a no-op. */
  lemma {:induction false} ChainWithout(ps: seq<Piece>, steps: seq<Step>, n: string)
    requires GoodTemplate(ps) && GoodSteps(steps) && GoodName(n) && Marker(n) !in ps
    ensures Chain(Render(ps), steps) == Chain(Render(ps), Without(steps, n))
    decreases |steps|
  {
    if steps != [] {
      var st := steps[0];
      assert GoodSteps(steps[1..]) by {
        assert forall i :: 0 <= i < |steps[1..]| ==> steps[1..][i] == steps[i + 1];
      }
      if st.name == n {
        NoMarkerNoMatch(ps, n);
        ReplaceAllAbsent(Render(ps), Mk(n), st.replacement);
        ChainWithout(ps, steps[1..], n);
        assert Without(steps, n) == [] + Without(steps[1..], n) == Without(steps[1..], n);
      } else {
        ReplaceAllRender(ps, st.name, st.replacement);
        var qs := Fill(ps, map[st.name := st.replacement]);
        FillGood(ps, map[st.name := st.replacement]);
        FillKeepsAbsent(ps, map[st.name := st.replacement], n);
        ChainWithout(qs, steps[1..], n);
        assert Without(steps, n) == [st] + Without(steps[1..], n);
        assert ([st] + Without(steps[1..], n))[1..] == Without(steps[1..], n);
      }
    }
  }

  // ------------------------------------------- chains as JavaScript runs them

  /** The chained global replaces with each replacement's `$` patterns expanded, as JavaScript runs them. */
  function ChainExpanding(s: string, steps: seq<Step>): string
    decreases |steps|
  {
    if steps == [] then s
    else ChainExpanding(ReplaceAllExpanding(s, Mk(steps[0].name), steps[0].replacement), steps[1..])
  }

  /** No replacement of the chain holds a `$`. */
  predicate DollarFree(steps: seq<Step>)
  {
    forall i :: 0 <= i < |steps| ==> '$' !in steps[i].replacement
  }

  /** Without `$` in the replacements, the literal `Chain` is the chain JavaScript runs. */
  lemma {:induction false} ChainLiteral(s: string, steps: seq<Step>)
    requires DollarFree(steps)
    ensures ChainExpanding(s, steps) == Chain(s, steps)
    decreases |steps|
  {
    if steps != [] {
      ReplaceAllLiteral(s, Mk(steps[0].name), steps[0].replacement);
      assert DollarFree(steps[1..]) by {
        assert forall i :: 0 <= i < |steps[1..]| ==> steps[1..][i] == steps[i + 1];
      }
      ChainLiteral(ReplaceAllExpanding(s, Mk(steps[0].name), steps[0].replacement), steps[1..]);
    }
  }

  /** `ChainRender` for the chain JavaScript runs, on replacements without `$`. */
  lemma ChainExpandingRender(ps: seq<Piece>, steps: seq<Step>)
    requires GoodTemplate(ps) && GoodSteps(steps) && DollarFree(steps)
    ensures ChainExpanding(Render(ps), steps) == Render(Fill(ps, FirstWins(steps)))
  {
    ChainLiteral(Render(ps), steps);
    ChainRender(ps, steps);
  }

  /**
   * A first step whose replacement is `$&` puts every marker it matches
   * back, so a template marker for its name survives the whole chain when
   * no later step names it.
   */
  lemma MatchedReplacementKeepsMarker(ps: seq<Piece>, n: string, rest: seq<Step>)
    requires GoodTemplate(ps) && GoodName(n) && Marker(n) in ps
    requires GoodSteps(rest) && DollarFree(rest) && n !in FirstWins(rest)
    ensures Includes(ChainExpanding(Render(ps), [Step(n, "$&")] + rest), Mk(n))
  {
    var steps := [Step(n, "$&")] + rest;
    assert steps[1..] == rest;
    ReplaceAllMatched(Render(ps), Mk(n));
    ChainExpandingRender(ps, rest);
    var i :| 0 <= i < |ps| && ps[i] == Marker(n);
    FillAt(ps, FirstWins(rest), i);
    assert Fill(ps, FirstWins(rest))[i] == Marker(n);
    MarkerIncluded(Fill(ps, FirstWins(rest)), n);
  }
}
