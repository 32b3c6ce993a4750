/**
 * `setupBasicStructure` as src/commands/generators.ts and src/utils/generator.ts
 * both write it: pom.xml, application.properties and Application.java made
 * from the templates shipped with the tool, through chains of global
 * `replace(/{{…}}/g, …)` calls. The two files differ only in how they decide
 * which conditional sections are on; that decision is a `Sections` value.
 */
module BackendTemplate {
  import opened Wrappers
  import opened JsString
  import opened Placeholders
  import opened Files

  /** Which `{{#if …}}` sections of the templates are switched on. */
  datatype Sections = Sections(mysql: bool, postgresql: bool, mongodb: bool, h2: bool, authentication: bool)

  /** In pom.xml a section that is off is opened as an XML comment … */
  function PomOpen(on: bool): string
  {
    if on then "" else "<!--"
  }

  /** … and closed as one. */
  function PomClose(on: bool): string
  {
    if on then "" else "-->"
  }

  /** In application.properties a section that is off has its first line commented out. */
  function PropsOpen(on: bool): string
  {
    if on then "" else "# "
  }

  /** A conditional section's opening marker (`#if mysql` for `{{#if mysql}}`) and whether it is on. */
  datatype Cond = Cond(opener: string, on: bool)

  /** The sections in the order both chains treat them. */
  function Conds(s: Sections): seq<Cond>
  {
    [Cond("#if mysql", s.mysql), Cond("#if postgresql", s.postgresql), Cond("#if mongodb", s.mongodb),
     Cond("#if h2", s.h2), Cond("#if authentication", s.authentication)]
  }

  /** For each section in turn, its pom.xml opener replacement, then a closer replacement. */
  function PomSections(cs: seq<Cond>): seq<Step>
    decreases |cs|
  {
    if cs == [] then []
    else [Step(cs[0].opener, PomOpen(cs[0].on)), Step("/if", PomClose(cs[0].on))] + PomSections(cs[1..])
  }

  /** For each section in turn, its properties opener replacement, then removal of the closers. */
  function PropsSections(cs: seq<Cond>): seq<Step>
    decreases |cs|
  {
    if cs == [] then []
    else [Step(cs[0].opener, PropsOpen(cs[0].on)), Step("/if", "")] + PropsSections(cs[1..])
  }

  /** The pom.xml chain, one step per `.replace` call, in call order. */
  function PomSteps(name: string, s: Sections): seq<Step>
  {
    [Step("projectName", name)] + PomSections(Conds(s))
  }

  /** The application.properties chain. */
  function PropsSteps(name: string, s: Sections): seq<Step>
  {
    [Step("projectName", name)] + PropsSections(Conds(s))
  }

  function PomContent(template: string, name: string, s: Sections): string
  {
    Chain(template, PomSteps(name, s))
  }

  function PropsContent(template: string, name: string, s: Sections): string
  {
    Chain(template, PropsSteps(name, s))
  }

  /** `mainClass.replace(/{{projectName}}/g, projectName)`. */
  function MainClassContent(template: string, name: string): string
  {
    ReplaceAll(template, Mk("projectName"), name)
  }

  /** The opener replacements of the pom.xml sections alone. */
  function PomOpeners(cs: seq<Cond>): seq<Step>
    decreases |cs|
  {
    if cs == [] then [] else [Step(cs[0].opener, PomOpen(cs[0].on))] + PomOpeners(cs[1..])
  }

  /** The pom.xml chain keeping only its first closer replacement (the MySQL one). */
  function PomStepsFirstCloser(name: string, s: Sections): seq<Step>
  {
    [Step("projectName", name)] + PomSections(Conds(s)[..1]) + PomOpeners(Conds(s)[1..])
  }

  predicate GoodTags(cs: seq<Cond>)
  {
    forall i :: 0 <= i < |cs| ==> GoodName(cs[i].opener) && cs[i].opener != "/if"
  }

  lemma {:induction false} PomSectionsGood(cs: seq<Cond>)
    requires GoodTags(cs)
    ensures GoodSteps(PomSections(cs))
    decreases |cs|
  {
    if cs != [] {
      PomSectionsGood(cs[1..]);
      var head := [Step(cs[0].opener, PomOpen(cs[0].on)), Step("/if", PomClose(cs[0].on))];
      assert GoodSteps(head);
      GoodStepsAppend(head, PomSections(cs[1..]));
    }
  }

  lemma {:induction false} PropsSectionsGood(cs: seq<Cond>)
    requires GoodTags(cs)
    ensures GoodSteps(PropsSections(cs))
    decreases |cs|
  {
    if cs != [] {
      PropsSectionsGood(cs[1..]);
      var head := [Step(cs[0].opener, PropsOpen(cs[0].on)), Step("/if", "")];
      assert GoodSteps(head);
      GoodStepsAppend(head, PropsSections(cs[1..]));
    }
  }

  lemma CondsGood(s: Sections)
    ensures GoodTags(Conds(s))
  {
    assert GoodName("#if mysql") && "#if mysql" != "/if";
    assert GoodName("#if postgresql") && "#if postgresql" != "/if";
    assert GoodName("#if mongodb") && "#if mongodb" != "/if";
    assert GoodName("#if h2") && "#if h2" != "/if";
    assert GoodName("#if authentication") && "#if authentication" != "/if";
  }

  lemma PomStepsGood(name: string, s: Sections)
    requires GoodText(name)
    ensures GoodSteps(PomSteps(name, s))
  {
    CondsGood(s);
    PomSectionsGood(Conds(s));
    GoodStepsAppend([Step("projectName", name)], PomSections(Conds(s)));
  }

  lemma PropsStepsGood(name: string, s: Sections)
    requires GoodText(name)
    ensures GoodSteps(PropsSteps(name, s))
  {
    CondsGood(s);
    PropsSectionsGood(Conds(s));
    GoodStepsAppend([Step("projectName", name)], PropsSections(Conds(s)));
  }

  /** Taking the closers out of the sections leaves their openers. */
  lemma {:induction false} PomSectionsWithoutClosers(cs: seq<Cond>)
    requires GoodTags(cs)
    ensures Without(PomSections(cs), "/if") == PomOpeners(cs)
    decreases |cs|
  {
    if cs != [] {
      var op := Step(cs[0].opener, PomOpen(cs[0].on));
      var cl := Step("/if", PomClose(cs[0].on));
      PomSectionsWithoutClosers(cs[1..]);
      var rest := PomSections(cs[1..]);
      assert PomSections(cs) == [op, cl] + rest;
      assert ([op, cl] + rest)[1..] == [cl] + rest;
      assert ([cl] + rest)[1..] == rest;
      assert Without([cl] + rest, "/if") == Without(rest, "/if");
    }
  }

  /**
   * Every `{{/if}}` of the pom becomes `''` when MySQL is chosen and `-->`
   * otherwise, whatever section it closes: the first closer replacement
   * consumes them all. Each opener follows its own section's test.
   */
  lemma PomClosersFollowMysql(ps: seq<Piece>, name: string, s: Sections)
    requires GoodTemplate(ps) && GoodText(name)
    ensures PomContent(Render(ps), name, s) == Render(Fill(ps, FirstWins(PomSteps(name, s))))
    ensures forall i :: 0 <= i < |ps| && ps[i] == Marker("/if") ==>
      Fill(ps, FirstWins(PomSteps(name, s)))[i] == Lit(PomClose(s.mysql))
    ensures forall i :: 0 <= i < |ps| && ps[i] == Marker("#if postgresql") ==>
      Fill(ps, FirstWins(PomSteps(name, s)))[i] == Lit(PomOpen(s.postgresql))
  {
    var steps := PomSteps(name, s);
    PomStepsGood(name, s);
    ChainRender(ps, steps);
    PomEnvValues(name, s);
    forall i | 0 <= i < |ps| && (ps[i] == Marker("/if") || ps[i] == Marker("#if postgresql"))
      ensures Fill(ps, FirstWins(steps))[i] == Lit(FirstWins(steps)[ps[i].name])
    {
      FillAt(ps, FirstWins(steps), i);
    }
  }

  /** What the chain makes of `{{/if}}` and of `{{#if postgresql}}`. */
  lemma PomEnvValues(name: string, s: Sections)
    ensures "/if" in FirstWins(PomSteps(name, s)) && "#if postgresql" in FirstWins(PomSteps(name, s))
    ensures FirstWins(PomSteps(name, s))["/if"] == PomClose(s.mysql)
    ensures FirstWins(PomSteps(name, s))["#if postgresql"] == PomOpen(s.postgresql)
  {
    PomStepsHead(name, s);
    FirstWinsAt(PomSteps(name, s), 2);
    FirstWinsAt(PomSteps(name, s), 3);
  }

  /** The first four steps of the pom.xml chain. */
  lemma PomStepsHead(name: string, s: Sections)
    ensures |PomSteps(name, s)| > 3
    ensures PomSteps(name, s)[0] == Step("projectName", name)
    ensures PomSteps(name, s)[1] == Step("#if mysql", PomOpen(s.mysql))
    ensures PomSteps(name, s)[2] == Step("/if", PomClose(s.mysql))
    ensures PomSteps(name, s)[3] == Step("#if postgresql", PomOpen(s.postgresql))
  {
    var cs := Conds(s);
    assert PomSections(cs) == [Step(cs[0].opener, PomOpen(cs[0].on)), Step("/if", PomClose(cs[0].on))] + PomSections(cs[1..]);
    assert PomSections(cs[1..])[0] == Step(cs[1].opener, PomOpen(cs[1].on));
  }

  /** Dropping the four later closer replacements changes nothing: they find no `{{/if}}` left. */
  lemma PomLaterClosersNoOp(ps: seq<Piece>, name: string, s: Sections)
    requires GoodTemplate(ps) && GoodText(name)
    ensures PomContent(Render(ps), name, s) == Chain(Render(ps), PomStepsFirstCloser(name, s))
  {
    var cs := Conds(s);
    CondsGood(s);
    var first := [Step("projectName", name)] + PomSections(cs[..1]);
    var rest := PomSections(cs[1..]);
    assert PomSections(cs[..1]) == [Step(cs[0].opener, PomOpen(cs[0].on)), Step("/if", PomClose(cs[0].on))];
    assert PomSteps(name, s) == first + rest;
    PomStepsGood(name, s);
    GoodStepsSplit(first, rest);
    ChainAppend(Render(ps), first, rest);
    ChainAppend(Render(ps), first, PomOpeners(cs[1..]));
    ChainRender(ps, first);
    FirstWinsValues(first);
    FillGood(ps, FirstWins(first));
    assert first[2].name == "/if";
    FirstWinsHas(first, 2);
    var qs := Fill(ps, FirstWins(first));
    FillRemoves(ps, FirstWins(first), "/if");
    ChainWithout(qs, rest, "/if");
    assert GoodTags(cs[1..]) by {
      assert forall i :: 0 <= i < |cs[1..]| ==> cs[1..][i] == cs[i + 1];
    }
    PomSectionsWithoutClosers(cs[1..]);
  }

  /**
   * Over a template without `{{projectName}}` the pom.xml chain is the
   * first-wins fill for every project name: the name never enters the text.
   */
  lemma PomWithoutName(ps: seq<Piece>, name: string, s: Sections)
    requires GoodTemplate(ps) && Marker("projectName") !in ps
    ensures PomContent(Render(ps), name, s) == Render(Fill(ps, FirstWins(PomSteps(name, s))))
  {
    var rest := PomSections(Conds(s));
    CondsGood(s);
    PomSectionsGood(Conds(s));
    ChainSkipAbsent(ps, Step("projectName", name), rest);
    ChainRender(ps, rest);
    assert FirstWins(PomSteps(name, s)) == FirstWins(rest)["projectName" := name] by {
      assert PomSteps(name, s)[1..] == rest;
    }
    FillIgnoresAbsent(ps, FirstWins(rest), "projectName", name);
  }

  /** The same for the application.properties chain. */
  lemma PropsWithoutName(ps: seq<Piece>, name: string, s: Sections)
    requires GoodTemplate(ps) && Marker("projectName") !in ps
    ensures PropsContent(Render(ps), name, s) == Render(Fill(ps, FirstWins(PropsSteps(name, s))))
  {
    var rest := PropsSections(Conds(s));
    CondsGood(s);
    PropsSectionsGood(Conds(s));
    ChainSkipAbsent(ps, Step("projectName", name), rest);
    ChainRender(ps, rest);
    assert FirstWins(PropsSteps(name, s)) == FirstWins(rest)["projectName" := name] by {
      assert PropsSteps(name, s)[1..] == rest;
    }
    FillIgnoresAbsent(ps, FirstWins(rest), "projectName", name);
  }

  /**
   * With PostgreSQL chosen, a PostgreSQL-only section keeps its content but
   * ends in a stray `-->`, because its closer follows the MySQL test. This
   * holds for every project name: the section holds no `{{projectName}}`.
   */
  lemma PostgresSectionStrayCloser(body: string, name: string)
    requires GoodText(body)
    ensures PomContent(Mk("#if postgresql") + body + Mk("/if"), name, Sections(false, true, false, false, true))
         == body + "-->"
  {
    var s := Sections(false, true, false, false, true);
    var ps := [Marker("#if postgresql"), Lit(body), Marker("/if")];
    assert Render(ps) == Mk("#if postgresql") + body + Mk("/if") by {
      RenderThree(ps[0], ps[1], ps[2]);
    }
    assert PomContent(Render(ps), name, s) == Render(Fill(ps, FirstWins(PomSteps(name, s)))) by {
      assert GoodTemplate(ps);
      PomWithoutName(ps, name, s);
    }
    PostgresSectionFilled(body, name);
  }

  lemma PostgresSectionFilled(body: string, name: string)
    ensures Render(Fill([Marker("#if postgresql"), Lit(body), Marker("/if")],
                        FirstWins(PomSteps(name, Sections(false, true, false, false, true))))) == body + "-->"
  {
    var env := FirstWins(PomSteps(name, Sections(false, true, false, false, true)));
    var ps := [Marker("#if postgresql"), Lit(body), Marker("/if")];
    PomEnvValues(name, Sections(false, true, false, false, true));
    var f := Fill(ps, env);
    FillAt(ps, env, 0);
    FillAt(ps, env, 1);
    FillAt(ps, env, 2);
    assert f == [Lit(""), Lit(body), Lit("-->")];
    RenderThree(f[0], f[1], f[2]);
  }

  /** The first three steps of the properties chain. */
  lemma PropsStepsHead(name: string, s: Sections)
    ensures |PropsSteps(name, s)| > 2
    ensures PropsSteps(name, s)[0] == Step("projectName", name)
    ensures PropsSteps(name, s)[1] == Step("#if mysql", PropsOpen(s.mysql))
    ensures PropsSteps(name, s)[2] == Step("/if", "")
  {
    var cs := Conds(s);
    assert PropsSections(cs) == [Step(cs[0].opener, PropsOpen(cs[0].on)), Step("/if", "")] + PropsSections(cs[1..]);
  }

  /** The properties chain leaves no `{{/if}}`, no `{{#if mysql}}` and no `{{projectName}}` in the output. */
  lemma PropsLeaveNoMarkers(ps: seq<Piece>, name: string, s: Sections)
    requires GoodTemplate(ps) && GoodText(name)
    ensures !Includes(PropsContent(Render(ps), name, s), Mk("/if"))
    ensures !Includes(PropsContent(Render(ps), name, s), Mk("#if mysql"))
    ensures !Includes(PropsContent(Render(ps), name, s), Mk("projectName"))
  {
    var steps := PropsSteps(name, s);
    PropsStepsGood(name, s);
    PropsStepsHead(name, s);
    FirstWinsHas(steps, 0);
    FirstWinsHas(steps, 1);
    FirstWinsHas(steps, 2);
    ChainLeavesNoMarker(ps, steps, "/if");
    ChainLeavesNoMarker(ps, steps, "#if mysql");
    ChainLeavesNoMarker(ps, steps, "projectName");
  }

  /** A properties section that is off gets `# ` at its start and nothing at its end, for every project name. */
  lemma PropsSectionOff(body: string, name: string)
    requires GoodText(body)
    ensures PropsContent(Mk("#if mysql") + body + Mk("/if"), name, Sections(false, true, false, false, false))
         == "# " + body
  {
    var s := Sections(false, true, false, false, false);
    var ps := [Marker("#if mysql"), Lit(body), Marker("/if")];
    assert Render(ps) == Mk("#if mysql") + body + Mk("/if") by {
      RenderThree(ps[0], ps[1], ps[2]);
    }
    assert PropsContent(Render(ps), name, s) == Render(Fill(ps, FirstWins(PropsSteps(name, s)))) by {
      assert GoodTemplate(ps);
      PropsWithoutName(ps, name, s);
    }
    MysqlSectionFilled(body, name);
  }

  lemma MysqlSectionFilled(body: string, name: string)
    ensures Render(Fill([Marker("#if mysql"), Lit(body), Marker("/if")],
                        FirstWins(PropsSteps(name, Sections(false, true, false, false, false))))) == "# " + body
  {
    var steps := PropsSteps(name, Sections(false, true, false, false, false));
    var ps := [Marker("#if mysql"), Lit(body), Marker("/if")];
    PropsStepsHead(name, Sections(false, true, false, false, false));
    FirstWinsAt(steps, 1);
    FirstWinsAt(steps, 2);
    var f := Fill(ps, FirstWins(steps));
    FillAt(ps, FirstWins(steps), 0);
    FillAt(ps, FirstWins(steps), 1);
    FillAt(ps, FirstWins(steps), 2);
    assert f == [Lit("# "), Lit(body), Lit("")];
    RenderThree(f[0], f[1], f[2]);
  }

  /**
   * The name goes into the text before the section replacements run, so a
   * name that spells a marker is itself replaced: a pom.xml template that is
   * just `{{projectName}}`, given the name `{{/if}}`, comes out as the
   * closer the MySQL test picks, not as the name.
   */
  lemma PomNameSpellsCloser(s: Sections)
    ensures PomContent(Mk("projectName"), Mk("/if"), s) == PomClose(s.mysql)
  {
    var rest := PomSections(Conds(s));
    CondsGood(s);
    PomSectionsGood(Conds(s));
    assert PomSteps(Mk("/if"), s)[1..] == rest;
    assert ReplaceAll(Mk("projectName"), Mk("projectName"), Mk("/if")) == Mk("/if") by {
      ReplaceAllHead(Mk("projectName"), "", Mk("/if"));
      assert Mk("projectName") + "" == Mk("projectName");
    }
    var ps := [Marker("/if")];
    assert Render(ps) == Mk("/if");
    ChainRender(ps, rest);
    PomStepsHead(Mk("/if"), s);
    FirstWinsAt(rest, 1);
    FillAt(ps, FirstWins(rest), 0);
    assert Fill(ps, FirstWins(rest)) == [Lit(PomClose(s.mysql))];
  }

  /**
   * Likewise the name `{{projectName}}` comes out of the properties chain
   * as the marker itself.
   */
  lemma PropsNameSpellsMarker(s: Sections)
    ensures Includes(PropsContent(Mk("projectName"), Mk("projectName"), s), Mk("projectName"))
  {
    var cs := Conds(s);
    var rest := PropsSections(cs);
    CondsGood(s);
    PropsSectionsGood(cs);
    assert PropsSteps(Mk("projectName"), s)[1..] == rest;
    assert ReplaceAll(Mk("projectName"), Mk("projectName"), Mk("projectName")) == Mk("projectName") by {
      ReplaceAllHead(Mk("projectName"), "", Mk("projectName"));
      assert Mk("projectName") + "" == Mk("projectName");
    }
    var ps := [Marker("projectName")];
    assert Render(ps) == Mk("projectName");
    ChainRender(ps, rest);
    PropsSectionsOmit(cs, "projectName");
    FillAt(ps, FirstWins(rest), 0);
    assert Fill(ps, FirstWins(rest)) == ps;
    IncludesRefl(Mk("projectName"));
  }

  // ------------------------------------------ the chains as JavaScript runs them

  /** The pom.xml chain with the `$` patterns of each replacement expanded. */
  function PomContentExpanding(template: string, name: string, s: Sections): string
  {
    ChainExpanding(template, PomSteps(name, s))
  }

  /** The application.properties chain with the `$` patterns of each replacement expanded. */
  function PropsContentExpanding(template: string, name: string, s: Sections): string
  {
    ChainExpanding(template, PropsSteps(name, s))
  }

  lemma {:induction false} PomSectionsDollarFree(cs: seq<Cond>)
    ensures DollarFree(PomSections(cs))
    decreases |cs|
  {
    if cs != [] {
      PomSectionsDollarFree(cs[1..]);
      var head := [Step(cs[0].opener, PomOpen(cs[0].on)), Step("/if", PomClose(cs[0].on))];
      assert PomSections(cs) == head + PomSections(cs[1..]);
      assert forall i :: 2 <= i < |PomSections(cs)| ==> PomSections(cs)[i] == PomSections(cs[1..])[i - 2];
    }
  }

  lemma {:induction false} PropsSectionsDollarFree(cs: seq<Cond>)
    ensures DollarFree(PropsSections(cs))
    decreases |cs|
  {
    if cs != [] {
      PropsSectionsDollarFree(cs[1..]);
      var head := [Step(cs[0].opener, PropsOpen(cs[0].on)), Step("/if", "")];
      assert PropsSections(cs) == head + PropsSections(cs[1..]);
      assert forall i :: 2 <= i < |PropsSections(cs)| ==> PropsSections(cs)[i] == PropsSections(cs[1..])[i - 2];
    }
  }

  /** For a project name without `$`, the pom.xml the source writes is `PomContent`. */
  lemma PomContentLiteral(template: string, name: string, s: Sections)
    requires '$' !in name
    ensures PomContentExpanding(template, name, s) == PomContent(template, name, s)
  {
    PomSectionsDollarFree(Conds(s));
    var steps := PomSteps(name, s);
    assert forall i :: 1 <= i < |steps| ==> steps[i] == PomSections(Conds(s))[i - 1];
    ChainLiteral(template, steps);
  }

  /** For a project name without `$`, the application.properties the source writes is `PropsContent`. */
  lemma PropsContentLiteral(template: string, name: string, s: Sections)
    requires '$' !in name
    ensures PropsContentExpanding(template, name, s) == PropsContent(template, name, s)
  {
    PropsSectionsDollarFree(Conds(s));
    var steps := PropsSteps(name, s);
    assert forall i :: 1 <= i < |steps| ==> steps[i] == PropsSections(Conds(s))[i - 1];
    ChainLiteral(template, steps);
  }

  /** The section steps of the properties chain give no value to a name other than their openers and `/if`. */
  lemma {:induction false} PropsSectionsOmit(cs: seq<Cond>, n: string)
    requires n != "/if" && forall i :: 0 <= i < |cs| ==> cs[i].opener != n
    ensures n !in FirstWins(PropsSections(cs))
    decreases |cs|
  {
    if cs != [] {
      var op := Step(cs[0].opener, PropsOpen(cs[0].on));
      var cl := Step("/if", "");
      var rest := PropsSections(cs[1..]);
      PropsSectionsOmit(cs[1..], n);
      assert PropsSections(cs) == [op, cl] + rest;
      assert ([op, cl] + rest)[1..] == [cl] + rest;
      assert ([cl] + rest)[1..] == rest;
    }
  }

  /**
   * As the source runs it, a project name `$&` leaves `{{projectName}}` in
   * application.properties: the global replace puts each match back.
   */
  lemma PropsNameMatchedKept(ps: seq<Piece>, s: Sections)
    requires GoodTemplate(ps) && Marker("projectName") in ps
    ensures Includes(PropsContentExpanding(Render(ps), "$&", s), Mk("projectName"))
  {
    var cs := Conds(s);
    CondsGood(s);
    PropsSectionsGood(cs);
    PropsSectionsDollarFree(cs);
    PropsSectionsOmit(cs, "projectName");
    MatchedReplacementKeepsMarker(ps, "projectName", PropsSections(cs));
  }

  // --------------------------------------------------------------- the files

  function SrcDir(projectPath: string): string
  {
    JoinPath(projectPath, "src/main/java")
  }

  function ResourcesDir(projectPath: string): string
  {
    JoinPath(projectPath, "src/main/resources")
  }

  /** `src/main/java/com/example/<lower-cased name>`. */
  function MainClassDir(projectPath: string, name: string): string
  {
    JoinPath(JoinPath(JoinPath(SrcDir(projectPath), "com"), "example"), Lower(name))
  }

  function MainClassPath(projectPath: string, name: string): string
  {
    JoinPath(MainClassDir(projectPath, name), "Application.java")
  }

  /** The templates read from the tool's own templates/backend directory. */
  datatype Templates = Templates(pom: string, props: string, mainClass: string)

  /**
   * Makes src/main/java and src/main/resources, then writes pom.xml and
   * application.properties (both always succeed) and Application.java, whose
   * directory under com/example is never created: that write fails unless
   * the directory was already there.
   */
  method SetupBasicStructure(disk: Disk, projectPath: string, name: string, s: Sections, t: Templates)
    returns (r: Outcome)
    requires |projectPath| > 0
    modifies disk
    ensures r == if MainClassDir(projectPath, name) in old(disk.dirs) then Pass
                 else Fail(EnoentOpen(MainClassPath(projectPath, name)))
    ensures disk.dirs == old(disk.dirs) + Ancestors(SrcDir(projectPath)) + Ancestors(ResourcesDir(projectPath))
    ensures disk.files == (old(disk.files)
      [JoinPath(projectPath, "pom.xml") := Text(PomContent(t.pom, name, s))]
      [JoinPath(ResourcesDir(projectPath), "application.properties") := Text(PropsContent(t.props, name, s))]
      + if r.Pass? then map[MainClassPath(projectPath, name) := Text(MainClassContent(t.mainClass, name))] else map[])
  {
    disk.EnsureDir(SrcDir(projectPath));
    disk.EnsureDir(ResourcesDir(projectPath));
    assert projectPath in disk.dirs by {
      AncestorsJoin(projectPath, "src/main/java");
    }
    assert ResourcesDir(projectPath) in disk.dirs;
    assert MainClassDir(projectPath, name) in disk.dirs <==> MainClassDir(projectPath, name) in old(disk.dirs) by {
      MainClassDirIsNew(projectPath, name);
    }
    WriteBuildFiles(disk, projectPath, name, s, t);
    assert Parent(MainClassPath(projectPath, name)) == MainClassDir(projectPath, name) by {
      ParentJoin(MainClassDir(projectPath, name), "Application.java");
    }
    r := disk.WriteFile(MainClassPath(projectPath, name), Text(MainClassContent(t.mainClass, name)));
  }

  /** pom.xml at the project root and application.properties in src/main/resources, both existing. */
  method WriteBuildFiles(disk: Disk, projectPath: string, name: string, s: Sections, t: Templates)
    requires projectPath in disk.dirs && ResourcesDir(projectPath) in disk.dirs
    modifies disk
    ensures disk.dirs == old(disk.dirs)
    ensures disk.files == old(disk.files)
      [JoinPath(projectPath, "pom.xml") := Text(PomContent(t.pom, name, s))]
      [JoinPath(ResourcesDir(projectPath), "application.properties") := Text(PropsContent(t.props, name, s))]
  {
    ParentJoin(projectPath, "pom.xml");
    var r1 := disk.WriteFile(JoinPath(projectPath, "pom.xml"), Text(PomContent(t.pom, name, s)));
    ParentJoin(ResourcesDir(projectPath), "application.properties");
    var r2 := disk.WriteFile(JoinPath(ResourcesDir(projectPath), "application.properties"), Text(PropsContent(t.props, name, s)));
  }

  /** Neither `ensureDir` call makes the Application.java directory. */
  lemma MainClassDirIsNew(projectPath: string, name: string)
    ensures MainClassDir(projectPath, name) !in Ancestors(SrcDir(projectPath))
    ensures MainClassDir(projectPath, name) !in Ancestors(ResourcesDir(projectPath))
  {
    var d := MainClassDir(projectPath, name);
    assert |d| == |projectPath| + 27 + |Lower(name)|;
    if d in Ancestors(SrcDir(projectPath)) {
      AncestorsShorter(SrcDir(projectPath), d);
    }
    if d in Ancestors(ResourcesDir(projectPath)) {
      AncestorsShorter(ResourcesDir(projectPath), d);
    }
  }

  /**
   * The Application.java directory is named after the lower-cased project
   * name (the package line inside the file keeps the name as typed).
   */
  lemma MainClassPathShape(projectPath: string, name: string)
    requires '/' !in name
    ensures Parent(MainClassPath(projectPath, name)) == MainClassDir(projectPath, name)
    ensures Basename(MainClassDir(projectPath, name)) == Lower(name)
    ensures Lower(Basename(MainClassDir(projectPath, name))) == Basename(MainClassDir(projectPath, name))
  {
    LowerKeepsAbsent(name, '/');
    ParentJoin(MainClassDir(projectPath, name), "Application.java");
    ParentJoin(JoinPath(JoinPath(SrcDir(projectPath), "com"), "example"), Lower(name));
    LowerIdempotent(name);
  }
}
