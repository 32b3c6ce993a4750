/**
 * src/utils/generator.ts: the README feature list, the sections its
 * `setupBasicStructure` switches on (capitalised database names, optional
 * fields) and the gated steps of `generateProject`.
 */
module UtilGenerator {
  import opened Wrappers
  import opened JsString
  import opened GatedList
  import opened Placeholders
  import opened BackendTemplate
  import opened Files

  /** The part of `ProjectConfig` this file reads; `?.` reads become options. */
  datatype UtilConfig = UtilConfig(
    projectName: string,
    databaseType: Option<string>,
    authentication: bool,
    framework: Option<string>,
    testing: bool,
    docker: bool,
    i18n: bool,
    migrations: bool,
    multiModule: bool,
    emailEnabled: bool)

  // ------------------------------------------------------------ feature list

  /** `${config.database?.type} database integration`: "undefined" when there is no database. */
  function DatabaseEntry(databaseType: Option<string>): string
  {
    Interp(databaseType) + " database integration"
  }

  function FrontendEntry(framework: Option<string>): string
  {
    Interp(framework) + " frontend"
  }

  const RestFeature: string := "REST API with Swagger documentation"
  const AuthFeature: string := "Authentication and authorization"
  const TestingFeature: string := "Comprehensive testing setup"
  const DockerFeature: string := "Docker containerization"
  const I18nFeature: string := "Internationalization support"
  const MigrationsFeature: string := "Database migration support"
  const MultiModuleFeature: string := "Multi-module project structure"

  /** The pushes of `getFeaturesList`, in order, each with its condition. */
  function FeatureGates(c: UtilConfig): seq<Gate>
  {
    LeadGates(c) + ExtraGates(c)
  }

  /** The two fixed entries and the pushes for authentication, frontend and testing. */
  function LeadGates(c: UtilConfig): seq<Gate>
  {
    [ Gate(true, DatabaseEntry(c.databaseType)),
      Gate(true, RestFeature),
      Gate(c.authentication, AuthFeature),
      Gate(c.framework != Some("None"), FrontendEntry(c.framework)),
      Gate(c.testing, TestingFeature) ]
  }

  /** The pushes for Docker, i18n, migrations and the multi-module layout. */
  function ExtraGates(c: UtilConfig): seq<Gate>
  {
    [ Gate(c.docker, DockerFeature),
      Gate(c.i18n, I18nFeature),
      Gate(c.migrations, MigrationsFeature),
      Gate(c.multiModule, MultiModuleFeature) ]
  }

  /** `getFeaturesList`: two entries, then one push per enabled option. */
  method FeaturesList(c: UtilConfig) returns (features: seq<string>)
    ensures features == Enabled(FeatureGates(c))
  {
    features := LeadFeatures(c);
    var more := ExtraFeatures(c);
    features := features + more;
    EnabledAppend(LeadGates(c), ExtraGates(c));
  }

  /** The first half of `getFeaturesList`, up to the testing push. */
  method LeadFeatures(c: UtilConfig) returns (features: seq<string>)
    ensures features == Enabled(LeadGates(c))
  {
    ghost var gs := LeadGates(c);
    features := [DatabaseEntry(c.databaseType), RestFeature];
    PushStep(gs, 0, [], [DatabaseEntry(c.databaseType)]);
    PushStep(gs, 1, [DatabaseEntry(c.databaseType)], features);
    ghost var before := features;
    if c.authentication {
      features := features + [AuthFeature];
    }
    PushStep(gs, 2, before, features);
    before := features;
    if c.framework != Some("None") {
      features := features + [FrontendEntry(c.framework)];
    }
    PushStep(gs, 3, before, features);
    before := features;
    if c.testing {
      features := features + [TestingFeature];
    }
    PushStep(gs, 4, before, features);
    assert gs[..5] == gs;
  }

  /** The second half of `getFeaturesList`: the entries the remaining pushes add. */
  method ExtraFeatures(c: UtilConfig) returns (more: seq<string>)
    ensures more == Enabled(ExtraGates(c))
  {
    ghost var gs := ExtraGates(c);
    more := [];
    if c.docker {
      more := more + [DockerFeature];
    }
    PushStep(gs, 0, [], more);
    ghost var before := more;
    if c.i18n {
      more := more + [I18nFeature];
    }
    PushStep(gs, 1, before, more);
    before := more;
    if c.migrations {
      more := more + [MigrationsFeature];
    }
    PushStep(gs, 2, before, more);
    before := more;
    if c.multiModule {
      more := more + [MultiModuleFeature];
    }
    PushStep(gs, 3, before, more);
    assert gs[..4] == gs;
  }

  /** The list always opens with the database entry and then the REST API entry. */
  lemma FeaturesStart(c: UtilConfig)
    ensures |Enabled(FeatureGates(c))| >= 2
    ensures Enabled(FeatureGates(c))[0] == DatabaseEntry(c.databaseType)
    ensures Enabled(FeatureGates(c))[1] == RestFeature
  {
    var gs := FeatureGates(c);
    assert Enabled(gs) == [gs[0].entry] + Enabled(gs[1..]);
    assert Enabled(gs[1..]) == [gs[1].entry] + Enabled(gs[2..]);
  }

  /** Two fixed entries plus one per enabled option, so never more than nine. */
  lemma FeaturesCount(c: UtilConfig)
    ensures |Enabled(FeatureGates(c))| == 2 + CountOn(FeatureGates(c)[2..])
    ensures |Enabled(FeatureGates(c))| <= 9
  {
    var gs := FeatureGates(c);
    EnabledLength(gs);
    EnabledLength(gs[2..]);
    assert CountOn(gs) == 2 + CountOn(gs[2..]) by {
      assert gs[1..][1..] == gs[2..];
    }
  }

  /**
   * The frontend entry is listed exactly when the framework is not the
   * string 'None'; a missing framework is listed, as "undefined frontend".
   */
  lemma FrontendEntryIff(c: UtilConfig)
    ensures FrontendEntry(c.framework) in Enabled(FeatureGates(c)) <==> c.framework != Some("None")
    ensures c.framework.None? ==> "undefined frontend" in Enabled(FeatureGates(c))
  {
    var gs := FeatureGates(c);
    var e := FrontendEntry(c.framework);
    EnabledMember(gs, e);
    if c.framework != Some("None") {
      assert gs[3].on && gs[3].entry == e;
    }
    if c.framework.None? {
      assert e == "undefined frontend";
    }
    if e in Enabled(gs) {
      var i :| 0 <= i < |gs| && gs[i].on && gs[i].entry == e;
      assert Last(e) == 'd' by {
        LastOfEntries(c);
      }
      OnlyFrontendEndsInD(c, i);
    }
  }

  /** The last character of every entry of the list. */
  lemma LastOfEntries(c: UtilConfig)
    ensures Last(DatabaseEntry(c.databaseType)) == 'n' && Last(FrontendEntry(c.framework)) == 'd'
    ensures Last(RestFeature) == 'n' && Last(AuthFeature) == 'n' && Last(TestingFeature) == 'p'
    ensures Last(DockerFeature) == 'n' && Last(I18nFeature) == 't'
    ensures Last(MigrationsFeature) == 't' && Last(MultiModuleFeature) == 'e'
  {
  }

  /** The frontend entry is the only one ending in `d`. */
  lemma OnlyFrontendEndsInD(c: UtilConfig, i: nat)
    requires i < |FeatureGates(c)| && Last(FeatureGates(c)[i].entry) == 'd'
    ensures i == 3
  {
    LastOfEntries(c);
  }

  // ---------------------------------------------------- setupBasicStructure

  /**
   * The sections `setupBasicStructure` switches on: each database section
   * when the type is exactly its capitalised name, authentication when set.
   */
  function UtilSections(c: UtilConfig): Sections
  {
    Sections(c.databaseType == Some("MySQL"), c.databaseType == Some("PostgreSQL"),
      c.databaseType == Some("MongoDB"), c.databaseType == Some("H2"), c.authentication)
  }

  /**
   * Every `{{/if}}` in the pom becomes `''` for MySQL and `-->` for every
   * other type, because the later closer replacements find nothing.
   */
  lemma UtilPomClosers(ps: seq<Piece>, c: UtilConfig)
    requires GoodTemplate(ps) && GoodText(c.projectName)
    ensures forall i :: 0 <= i < |ps| && ps[i] == Marker("/if") ==>
      Fill(ps, FirstWins(PomSteps(c.projectName, UtilSections(c))))[i]
        == Lit(if c.databaseType == Some("MySQL") then "" else "-->")
    ensures PomContent(Render(ps), c.projectName, UtilSections(c))
         == Chain(Render(ps), PomStepsFirstCloser(c.projectName, UtilSections(c)))
  {
    PomClosersFollowMysql(ps, c.projectName, UtilSections(c));
    PomLaterClosersNoOp(ps, c.projectName, UtilSections(c));
  }

  /** The properties chain removes every closer, whatever the configuration. */
  lemma UtilPropsNoClosers(ps: seq<Piece>, c: UtilConfig)
    requires GoodTemplate(ps) && GoodText(c.projectName)
    ensures !Includes(PropsContent(Render(ps), c.projectName, UtilSections(c)), Mk("/if"))
  {
    PropsLeaveNoMarkers(ps, c.projectName, UtilSections(c));
  }

  // --------------------------------------------------------- generateProject

  /**
   * The steps of `generateProject`, each with its condition: the database
   * step needs a truthy `database?.type`, Docker a truthy
   * `deployment?.docker`, email `emailEnabled`; the README has no condition.
   */
  function ProjectGates(c: UtilConfig): seq<Gate>
  {
    [ Gate(true, "ensureDir"),
      Gate(true, "setupBasicStructure"),
      Gate(Truthy(c.databaseType), "setupDatabase"),
      Gate(c.authentication, "setupAuthentication"),
      Gate(c.docker, "setupDocker"),
      Gate(c.emailEnabled, "setupEmail"),
      Gate(true, "generateReadme") ]
  }

  /**
   * The steps `generateProject` attempts, in order. When `setupBasicStructure`
   * fails, the `catch` rethrows and nothing after it runs; otherwise every
   * enabled step runs and the README is written last.
   */
  function ProjectSteps(c: UtilConfig, structureOk: bool): seq<string>
  {
    if structureOk then Enabled(ProjectGates(c)) else Enabled(ProjectGates(c)[..2])
  }

  /**
   * `generateProject` on the project path `projectPath`: `ensureDir`, then
   * `setupBasicStructure`, whose Application.java write fails unless
   * `com/example/<lower-cased name>` already existed; the error is rethrown.
   * The later steps are modelled on their own: they are listed, not run here.
   */
  method GenerateProject(disk: Disk, projectPath: string, c: UtilConfig, t: Templates)
    returns (steps: seq<string>, r: Outcome)
    requires |projectPath| > 0
    modifies disk
    ensures r == if MainClassDir(projectPath, c.projectName) in old(disk.dirs) then Pass
                 else Fail(EnoentOpen(MainClassPath(projectPath, c.projectName)))
    ensures steps == ProjectSteps(c, r.Pass?)
    ensures disk.dirs == old(disk.dirs) + Ancestors(projectPath) + Ancestors(SrcDir(projectPath))
                       + Ancestors(ResourcesDir(projectPath))
    ensures disk.files == (old(disk.files)
      [JoinPath(projectPath, "pom.xml") := Text(PomContent(t.pom, c.projectName, UtilSections(c)))]
      [JoinPath(ResourcesDir(projectPath), "application.properties") :=
         Text(PropsContent(t.props, c.projectName, UtilSections(c)))]
      + if r.Pass? then map[MainClassPath(projectPath, c.projectName) :=
                              Text(MainClassContent(t.mainClass, c.projectName))] else map[])
  {
    r := MakeStructure(disk, projectPath, c, t);
    steps := AttemptSteps(c, r.Pass?);
  }

  /** The `ensureDir` and `setupBasicStructure` calls of `generateProject`, with their disk effect. */
  method MakeStructure(disk: Disk, projectPath: string, c: UtilConfig, t: Templates)
    returns (r: Outcome)
    requires |projectPath| > 0
    modifies disk
    ensures r == if MainClassDir(projectPath, c.projectName) in old(disk.dirs) then Pass
                 else Fail(EnoentOpen(MainClassPath(projectPath, c.projectName)))
    ensures disk.dirs == old(disk.dirs) + Ancestors(projectPath) + Ancestors(SrcDir(projectPath))
                       + Ancestors(ResourcesDir(projectPath))
    ensures disk.files == (old(disk.files)
      [JoinPath(projectPath, "pom.xml") := Text(PomContent(t.pom, c.projectName, UtilSections(c)))]
      [JoinPath(ResourcesDir(projectPath), "application.properties") :=
         Text(PropsContent(t.props, c.projectName, UtilSections(c)))]
      + if r.Pass? then map[MainClassPath(projectPath, c.projectName) :=
                              Text(MainClassContent(t.mainClass, c.projectName))] else map[])
  {
    disk.EnsureDir(projectPath);
    MainClassDirBelow(projectPath, c.projectName);
    r := SetupBasicStructure(disk, projectPath, c.projectName, UtilSections(c), t);
  }

  /**
   * The steps of `generateProject` pushed one by one: the first two always,
   * the rest only when `setupBasicStructure` succeeded.
   */
  method AttemptSteps(c: UtilConfig, structureOk: bool) returns (steps: seq<string>)
    ensures steps == ProjectSteps(c, structureOk)
  {
    ghost var gs := ProjectGates(c);
    steps := ["ensureDir", "setupBasicStructure"];
    PushStep(gs, 0, [], ["ensureDir"]);
    PushStep(gs, 1, ["ensureDir"], steps);
    assert gs[..2][..2] == gs[..2];
    if !structureOk {
      return;
    }
    ghost var before := steps;
    if Truthy(c.databaseType) {
      steps := steps + ["setupDatabase"];
    }
    PushStep(gs, 2, before, steps);
    before := steps;
    if c.authentication {
      steps := steps + ["setupAuthentication"];
    }
    PushStep(gs, 3, before, steps);
    before := steps;
    if c.docker {
      steps := steps + ["setupDocker"];
    }
    PushStep(gs, 4, before, steps);
    before := steps;
    if c.emailEnabled {
      steps := steps + ["setupEmail"];
    }
    PushStep(gs, 5, before, steps);
    before := steps;
    steps := steps + ["generateReadme"];
    PushStep(gs, 6, before, steps);
    assert gs[..7] == gs;
  }

  /** `ensureDir` of the project path does not make the Application.java directory below it. */
  lemma MainClassDirBelow(projectPath: string, name: string)
    ensures MainClassDir(projectPath, name) !in Ancestors(projectPath)
  {
    var d := MainClassDir(projectPath, name);
    assert |d| == |projectPath| + 27 + |Lower(name)|;
    if d in Ancestors(projectPath) {
      AncestorsShorter(projectPath, d);
    }
  }

  /**
   * When the basic structure succeeds, the database step runs exactly when a
   * non-empty type is set, the email step exactly when email is enabled, and
   * the README is written last. When it fails, the run stops there: no later
   * step runs and no README is written.
   */
  lemma ProjectGating(c: UtilConfig, structureOk: bool)
    ensures "setupDatabase" in ProjectSteps(c, structureOk) <==> structureOk && Truthy(c.databaseType)
    ensures "setupEmail" in ProjectSteps(c, structureOk) <==> structureOk && c.emailEnabled
    ensures "generateReadme" in ProjectSteps(c, structureOk) <==> structureOk
    ensures var steps := ProjectSteps(c, structureOk);
      |steps| > 0 && steps[|steps| - 1] == (if structureOk then "generateReadme" else "setupBasicStructure")
  {
    var gs := ProjectGates(c);
    if structureOk {
      EnabledMember(gs, "setupDatabase");
      EnabledMember(gs, "setupEmail");
      EnabledMember(gs, "generateReadme");
      assert gs[2].entry == "setupDatabase" && gs[5].entry == "setupEmail" && gs[6].entry == "generateReadme";
      assert gs == gs[..6] + [gs[6]];
      EnabledAppend(gs[..6], [gs[6]]);
    } else {
      assert gs[..2] == [Gate(true, "ensureDir"), Gate(true, "setupBasicStructure")];
      assert Enabled(gs[..2]) == ["ensureDir", "setupBasicStructure"];
    }
  }
}
