/**
 * templates/cli/generator.ts: `generateProject` makes the project
 * directory, lays out the eight base directories and the README, then
 * runs the optional setup steps its flags switch on; `getFeaturesList`
 * lists the same options for the README.
 */
module CliGenerator {
  import opened Wrappers
  import opened JsString
  import opened Files
  import opened GatedList

  /**
   * The fields this file reads. They are read off the object as it is
   * (`databaseType`, `frontendFramework`, `databaseUsername` are not part
   * of the declared config type), so each may be missing.
   */
  datatype CliConfig = CliConfig(
    projectName: string,
    databaseType: Option<string>,
    frontendFramework: Option<string>,
    databaseUsername: Option<string>,
    authentication: bool,
    adminPanel: bool,
    swagger: bool,
    testing: bool,
    docker: bool,
    emailEnabled: bool)

  /** `config.frontendFramework && config.frontendFramework !== 'None'`. */
  predicate FrontendOn(c: CliConfig)
  {
    Truthy(c.frontendFramework) && c.frontendFramework != Some("None")
  }

  /** `path.join(process.cwd(), config.projectName)`. */
  function ProjectPath(cwd: string, c: CliConfig): string
  {
    JoinPath(cwd, c.projectName)
  }

  /** For a project name without a slash, the project directory sits directly in the working directory. */
  lemma ProjectPathParts(cwd: string, c: CliConfig)
    requires '/' !in c.projectName
    ensures Parent(ProjectPath(cwd, c)) == cwd && Basename(ProjectPath(cwd, c)) == c.projectName
  {
    ParentJoin(cwd, c.projectName);
  }

  // ------------------------------------------------------------ feature list

  function DatabaseFeature(c: CliConfig): string
  {
    "Database: " + Interp(c.databaseType)
  }

  function FrontendFeature(c: CliConfig): string
  {
    "Frontend: " + Interp(c.frontendFramework)
  }

  const ApiFeature: string := "API: REST"
  const AuthFeature: string := "Authentication: JWT"
  const AdminFeature: string := "Admin Panel"
  const TestingFeature: string := "Testing"
  const DockerFeature: string := "Docker"

  /** The pushes of `getFeaturesList`, in order, each with its condition. */
  function FeatureGates(c: CliConfig): seq<Gate>
  {
    LeadFeatureGates(c) + ExtraFeatureGates(c)
  }

  /** Database, frontend, API and authentication. */
  function LeadFeatureGates(c: CliConfig): seq<Gate>
  {
    [ Gate(Truthy(c.databaseType), DatabaseFeature(c)),
      Gate(FrontendOn(c), FrontendFeature(c)),
      Gate(c.swagger, ApiFeature),
      Gate(c.authentication, AuthFeature) ]
  }

  /** Admin panel, testing and Docker. */
  function ExtraFeatureGates(c: CliConfig): seq<Gate>
  {
    [ Gate(c.adminPanel, AdminFeature),
      Gate(c.testing, TestingFeature),
      Gate(c.docker, DockerFeature) ]
  }

  /** `getFeaturesList`: an empty list and one push per enabled option. */
  method FeaturesList(c: CliConfig) returns (features: seq<string>)
    ensures features == Enabled(FeatureGates(c))
  {
    features := LeadFeatures(c);
    var more := ExtraFeatures(c);
    features := features + more;
    EnabledAppend(LeadFeatureGates(c), ExtraFeatureGates(c));
  }

  method LeadFeatures(c: CliConfig) returns (features: seq<string>)
    ensures features == Enabled(LeadFeatureGates(c))
  {
    ghost var gs := LeadFeatureGates(c);
    features := [];
    if Truthy(c.databaseType) {
      features := features + [DatabaseFeature(c)];
    }
    PushStep(gs, 0, [], features);
    ghost var before := features;
    if FrontendOn(c) {
      features := features + [FrontendFeature(c)];
    }
    PushStep(gs, 1, before, features);
    before := features;
    if c.swagger {
      features := features + [ApiFeature];
    }
    PushStep(gs, 2, before, features);
    before := features;
    if c.authentication {
      features := features + [AuthFeature];
    }
    PushStep(gs, 3, before, features);
    assert gs[..4] == gs;
  }

  method ExtraFeatures(c: CliConfig) returns (more: seq<string>)
    ensures more == Enabled(ExtraFeatureGates(c))
  {
    ghost var gs := ExtraFeatureGates(c);
    more := [];
    if c.adminPanel {
      more := more + [AdminFeature];
    }
    PushStep(gs, 0, [], more);
    ghost var before := more;
    if c.testing {
      more := more + [TestingFeature];
    }
    PushStep(gs, 1, before, more);
    before := more;
    if c.docker {
      more := more + [DockerFeature];
    }
    PushStep(gs, 2, before, more);
    assert gs[..3] == gs;
  }

  /** No option of the list is set. */
  predicate NothingSet(c: CliConfig)
  {
    !Truthy(c.databaseType) && !FrontendOn(c) && !c.swagger && !c.authentication &&
    !c.adminPanel && !c.testing && !c.docker
  }

  /** One entry per enabled option, so never more than seven; none at all when nothing is set. */
  lemma FeaturesCount(c: CliConfig)
    ensures |Enabled(FeatureGates(c))| == CountOn(FeatureGates(c)) <= 7
    ensures NothingSet(c) ==> Enabled(FeatureGates(c)) == []
  {
    var gs := FeatureGates(c);
    EnabledLength(gs);
    if forall i :: 0 <= i < |gs| ==> !gs[i].on {
      AllOffEmpty(gs);
    }
  }

  /** The second character of every entry: each is different, which tells the entries apart. */
  lemma SecondChars(c: CliConfig)
    ensures DatabaseFeature(c)[1] == 'a' && FrontendFeature(c)[1] == 'r'
    ensures ApiFeature[1] == 'P' && AuthFeature[1] == 'u' && AdminFeature[1] == 'd'
    ensures TestingFeature[1] == 'e' && DockerFeature[1] == 'o'
  {
  }

  /** The only gate whose entry has `ch` as second character is gate `k`. */
  lemma GateBySecondChar(c: CliConfig, i: nat, k: nat, ch: char)
    requires i < 7 && k < 7 && |FeatureGates(c)[k].entry| > 1 && FeatureGates(c)[k].entry[1] == ch
    requires |FeatureGates(c)[i].entry| > 1 && FeatureGates(c)[i].entry[1] == ch
    ensures i == k
  {
    SecondChars(c);
  }

  /** A listed entry is listed because its own option is on. */
  lemma ListedByOwnGate(c: CliConfig, k: nat)
    requires k < 7
    ensures FeatureGates(c)[k].entry in Enabled(FeatureGates(c)) <==> FeatureGates(c)[k].on
  {
    var gs := FeatureGates(c);
    var e := gs[k].entry;
    EnabledMember(gs, e);
    SecondChars(c);
    if e in Enabled(gs) {
      var i :| 0 <= i < |gs| && gs[i].on && gs[i].entry == e;
      GateBySecondChar(c, i, k, e[1]);
    }
  }

  /**
   * "Authentication: JWT" is listed exactly when authentication is on,
   * whatever kind of authentication was chosen; the frontend entry exactly
   * when a framework other than 'None' is set.
   */
  lemma FeatureEntriesIff(c: CliConfig)
    ensures AuthFeature in Enabled(FeatureGates(c)) <==> c.authentication
    ensures FrontendFeature(c) in Enabled(FeatureGates(c)) <==> FrontendOn(c)
    ensures DatabaseFeature(c) in Enabled(FeatureGates(c)) <==> Truthy(c.databaseType)
  {
    ListedByOwnGate(c, 3);
    ListedByOwnGate(c, 1);
    ListedByOwnGate(c, 0);
  }

  // ---------------------------------------------------- setupBasicStructure

  const Directories: seq<string> := [
    "backend/src/main/java",
    "backend/src/main/resources",
    "backend/src/test/java",
    "backend/src/test/resources",
    "frontend/src",
    "frontend/public",
    "docs",
    ".github/workflows"
  ]

  /** The directories `mkdirp` makes for each of `dirs` under `root`, ancestors included. */
  function DirsOf(root: string, dirs: seq<string>): set<string>
    decreases |dirs|
  {
    if dirs == [] then {}
    else DirsOf(root, dirs[..|dirs| - 1]) + Ancestors(JoinPath(root, dirs[|dirs| - 1]))
  }

  /** Exactly the listed directories and their ancestors are made. */
  lemma {:induction false} DirsOfIff(root: string, dirs: seq<string>, q: string)
    ensures q in DirsOf(root, dirs) <==> exists k :: 0 <= k < |dirs| && q in Ancestors(JoinPath(root, dirs[k]))
    decreases |dirs|
  {
    if dirs != [] {
      var init := dirs[..|dirs| - 1];
      DirsOfIff(root, init, q);
      if q in DirsOf(root, init) {
        var k :| 0 <= k < |init| && q in Ancestors(JoinPath(root, init[k]));
        assert dirs[k] == init[k];
      }
      if exists k :: 0 <= k < |dirs| && q in Ancestors(JoinPath(root, dirs[k])) {
        var k :| 0 <= k < |dirs| && q in Ancestors(JoinPath(root, dirs[k]));
        if k < |init| {
          assert init[k] == dirs[k];
        }
      }
    }
  }

  /** Each listed directory exists afterwards, and so does a non-empty project root. */
  lemma StructureDirsMade(root: string)
    ensures forall k :: 0 <= k < |Directories| ==> JoinPath(root, Directories[k]) in DirsOf(root, Directories)
    ensures |root| > 0 ==> root in DirsOf(root, Directories)
  {
    forall k | 0 <= k < |Directories|
      ensures JoinPath(root, Directories[k]) in DirsOf(root, Directories)
    {
      DirsOfIff(root, Directories, JoinPath(root, Directories[k]));
    }
    if |root| > 0 {
      var p := JoinPath(root, Directories[6]);
      assert p[|root|] == '/' && p[..|root|] == root;
      DirsOfIff(root, Directories, root);
    }
  }

  /** The README: title, features one per line, then the fixed instructions. */
  function Readme(projectName: string, features: seq<string>): string
  {
    ReadmeHead + projectName + Join(ReadmeIntroLines, '\n') + Join(features, '\n') + Join(ReadmeTailLines, '\n')
  }

  const ReadmeHead: string := "\n# "

  const ReadmeIntroLines: seq<string> := [
    "",
    "",
    "## Description",
    "This project was generated using Spring Fullstack Generator.",
    "",
    "## Features",
    ""
  ]

  const ReadmeTailLines: seq<string> := [
    "",
    "",
    "## Getting Started",
    "1. Install dependencies:",
    "   ```bash",
    "   cd backend",
    "   ./mvnw install",
    "   cd ../frontend",
    "   npm install",
    "   ```",
    "",
    "2. Run the application:",
    "   ```bash",
    "   # Backend",
    "   cd backend",
    "   ./mvnw spring-boot:run",
    "   ",
    "   # Frontend",
    "   cd frontend",
    "   npm start",
    "   ```",
    "",
    "## Documentation",
    "- API Documentation: http://localhost:8080/swagger-ui.html",
    "- Backend Documentation: ./docs/backend",
    "- Frontend Documentation: ./docs/frontend",
    ""
  ]

  function ReadmePath(root: string): string
  {
    JoinPath(root, "README.md")
  }

  /**
   * `setupBasicStructure`: one `mkdirp` per listed directory, in order,
   * then README.md at the root, which fails only when the root is missing.
   */
  method SetupBasicStructure(disk: Disk, root: string, c: CliConfig) returns (r: Outcome)
    modifies disk
    ensures disk.dirs == old(disk.dirs) + DirsOf(root, Directories)
    ensures r == if root in disk.dirs then Pass else Fail(EnoentOpen(ReadmePath(root)))
    ensures disk.files == if r.Fail? then old(disk.files)
                          else old(disk.files)[ReadmePath(root) := Text(Readme(c.projectName, Enabled(FeatureGates(c))))]
  {
    for i := 0 to |Directories|
      invariant disk.dirs == old(disk.dirs) + DirsOf(root, Directories[..i])
      invariant disk.files == old(disk.files)
    {
      disk.EnsureDir(JoinPath(root, Directories[i]));
      assert Directories[..i + 1][..i] == Directories[..i];
    }
    assert Directories[..|Directories|] == Directories;
    var features := FeaturesList(c);
    ParentJoin(root, "README.md");
    r := disk.WriteFile(ReadmePath(root), Text(Readme(c.projectName, features)));
  }

  // --------------------------------------------------------- generateProject

  /** The setup steps up to the frontend, each with its condition. */
  function LeadSteps(c: CliConfig): seq<Gate>
  {
    [ Gate(Truthy(c.databaseType), "setupDatabase"),
      Gate(c.authentication, "setupAuthentication"),
      Gate(FrontendOn(c), "setupFrontend") ]
  }

  /** The setup steps after the frontend: user management, API, testing, Docker and email. */
  function LaterSteps(c: CliConfig): seq<Gate>
  {
    [Gate(c.adminPanel, "setupUserManagement")] + ExtraSteps(c)
  }

  function ExtraSteps(c: CliConfig): seq<Gate>
  {
    [ Gate(c.swagger, "setupApi"),
      Gate(c.testing, "setupTesting"),
      Gate(c.docker, "setupDocker"),
      Gate(c.emailEnabled, "setupEmail") ]
  }

  function StepGates(c: CliConfig): seq<Gate>
  {
    LeadSteps(c) + LaterSteps(c)
  }

  /**
   * Line 34 calls `setupFrontend(config.frontendFramework, projectPath)`,
   * while templates/cli/frontend.ts:5 declares `setupFrontend(projectPath,
   * config)`. The project path string arrives as `config`, so
   * `config.frontend.framework` reads a property of `undefined` and throws;
   * `generateProject` has no `catch`, so it rejects.
   */
  const FrontendArgsError: string := "TypeError: Cannot read properties of undefined (reading 'framework')"

  /** The steps `generateProject` attempts as written: none after a frontend step. */
  function StepsAsWritten(c: CliConfig): seq<string>
  {
    if FrontendOn(c) then Enabled(LeadSteps(c)) else Enabled(StepGates(c))
  }

  /**
   * `generateProject` as written: `mkdirp` of the project path, the basic
   * structure (whose README write cannot fail, since the root now exists),
   * then the setup steps in order, stopping with the TypeError at a frontend
   * step. The steps belong to other files: they are listed, not run here.
   */
  method GenerateProject(disk: Disk, cwd: string, c: CliConfig) returns (steps: seq<string>, r: Outcome)
    modifies disk
    ensures disk.dirs == old(disk.dirs) + Ancestors(ProjectPath(cwd, c)) + DirsOf(ProjectPath(cwd, c), Directories)
    ensures disk.files == old(disk.files)[ReadmePath(ProjectPath(cwd, c)) :=
      Text(Readme(c.projectName, Enabled(FeatureGates(c))))]
    ensures steps == StepsAsWritten(c)
    ensures r == if FrontendOn(c) then Fail(FrontendArgsError) else Pass
  {
    MakeRootAndStructure(disk, cwd, c);
    steps := RunLeadSteps(c);
    if FrontendOn(c) {
      r := Fail(FrontendArgsError);
      return;
    }
    var later := RunLaterSteps(c);
    steps := steps + later;
    EnabledAppend(LeadSteps(c), LaterSteps(c));
    r := Pass;
  }

  /**
   * `generateProject` with the frontend arguments in the declared order:
   * every enabled step runs, in source order.
   */
  method GenerateProjectCorrected(disk: Disk, cwd: string, c: CliConfig) returns (steps: seq<string>)
    modifies disk
    ensures disk.dirs == old(disk.dirs) + Ancestors(ProjectPath(cwd, c)) + DirsOf(ProjectPath(cwd, c), Directories)
    ensures disk.files == old(disk.files)[ReadmePath(ProjectPath(cwd, c)) :=
      Text(Readme(c.projectName, Enabled(FeatureGates(c))))]
    ensures steps == Enabled(StepGates(c))
  {
    MakeRootAndStructure(disk, cwd, c);
    var lead := RunLeadSteps(c);
    var later := RunLaterSteps(c);
    steps := lead + later;
    EnabledAppend(LeadSteps(c), LaterSteps(c));
  }

  /** `mkdirp` of the project path, then the basic structure. */
  method MakeRootAndStructure(disk: Disk, cwd: string, c: CliConfig)
    modifies disk
    ensures disk.dirs == old(disk.dirs) + Ancestors(ProjectPath(cwd, c)) + DirsOf(ProjectPath(cwd, c), Directories)
    ensures disk.files == old(disk.files)[ReadmePath(ProjectPath(cwd, c)) :=
      Text(Readme(c.projectName, Enabled(FeatureGates(c))))]
  {
    var projectPath := JoinPath(cwd, c.projectName);
    disk.EnsureDir(projectPath);
    var r := SetupBasicStructure(disk, projectPath, c);
  }

  method RunLeadSteps(c: CliConfig) returns (steps: seq<string>)
    ensures steps == Enabled(LeadSteps(c))
  {
    ghost var gs := LeadSteps(c);
    steps := [];
    if Truthy(c.databaseType) {
      steps := steps + ["setupDatabase"];
    }
    PushStep(gs, 0, [], steps);
    ghost var before := steps;
    if c.authentication {
      steps := steps + ["setupAuthentication"];
    }
    PushStep(gs, 1, before, steps);
    before := steps;
    if FrontendOn(c) {
      steps := steps + ["setupFrontend"];
    }
    PushStep(gs, 2, before, steps);
    assert gs[..3] == gs;
  }

  method RunLaterSteps(c: CliConfig) returns (steps: seq<string>)
    ensures steps == Enabled(LaterSteps(c))
  {
    ghost var gs := [Gate(c.adminPanel, "setupUserManagement")];
    steps := [];
    if c.adminPanel {
      steps := ["setupUserManagement"];
    }
    PushStep(gs, 0, [], steps);
    assert gs[..1] == gs;
    var extra := RunExtraSteps(c);
    EnabledAppend(gs, ExtraSteps(c));
    steps := steps + extra;
  }

  method RunExtraSteps(c: CliConfig) returns (steps: seq<string>)
    ensures steps == Enabled(ExtraSteps(c))
  {
    ghost var gs := ExtraSteps(c);
    steps := [];
    if c.swagger {
      steps := steps + ["setupApi"];
    }
    PushStep(gs, 0, [], steps);
    ghost var before := steps;
    if c.testing {
      steps := steps + ["setupTesting"];
    }
    PushStep(gs, 1, before, steps);
    before := steps;
    if c.docker {
      steps := steps + ["setupDocker"];
    }
    PushStep(gs, 2, before, steps);
    before := steps;
    if c.emailEnabled {
      steps := steps + ["setupEmail"];
    }
    PushStep(gs, 3, before, steps);
    assert gs[..4] == gs;
  }

  /**
   * With the arguments corrected: the frontend step runs exactly when the
   * frontend entry is listed, the database step exactly when a non-empty
   * type is set, and the email step exactly when email is enabled.
   */
  lemma StepGating(c: CliConfig)
    ensures "setupFrontend" in Enabled(StepGates(c)) <==> FrontendFeature(c) in Enabled(FeatureGates(c))
    ensures "setupDatabase" in Enabled(StepGates(c)) <==> Truthy(c.databaseType)
    ensures "setupEmail" in Enabled(StepGates(c)) <==> c.emailEnabled
  {
    AllStepsMembers(c);
    FeatureEntriesIff(c);
  }

  /**
   * As written: the database and frontend steps run under their own
   * conditions, but every step after the frontend (here email) runs only
   * when no frontend step is taken, and a frontend step is always the last.
   */
  lemma StepGatingAsWritten(c: CliConfig)
    ensures "setupDatabase" in StepsAsWritten(c) <==> Truthy(c.databaseType)
    ensures "setupFrontend" in StepsAsWritten(c) <==> FrontendOn(c)
    ensures "setupEmail" in StepsAsWritten(c) <==> c.emailEnabled && !FrontendOn(c)
    ensures FrontendOn(c) ==> StepsAsWritten(c)[|StepsAsWritten(c)| - 1] == "setupFrontend"
  {
    if FrontendOn(c) {
      LeadStepsStop(c);
    } else {
      AllStepsMembers(c);
    }
  }

  /** With a frontend step, the run as written ends with it: only the lead steps are attempted. */
  lemma LeadStepsStop(c: CliConfig)
    requires FrontendOn(c)
    ensures "setupDatabase" in Enabled(LeadSteps(c)) <==> Truthy(c.databaseType)
    ensures "setupFrontend" in Enabled(LeadSteps(c)) && "setupEmail" !in Enabled(LeadSteps(c))
    ensures Enabled(LeadSteps(c))[|Enabled(LeadSteps(c))| - 1] == "setupFrontend"
  {
    var lead := LeadSteps(c);
    EnabledMember(lead, "setupDatabase");
    EnabledMember(lead, "setupFrontend");
    EnabledMember(lead, "setupEmail");
    assert lead[0].entry == "setupDatabase" && lead[2].entry == "setupFrontend" && lead[2].on;
    assert lead == lead[..2] + [lead[2]];
    EnabledAppend(lead[..2], [lead[2]]);
  }

  /** Membership of the three gated steps in the full step list. */
  lemma AllStepsMembers(c: CliConfig)
    ensures "setupDatabase" in Enabled(StepGates(c)) <==> Truthy(c.databaseType)
    ensures "setupFrontend" in Enabled(StepGates(c)) <==> FrontendOn(c)
    ensures "setupEmail" in Enabled(StepGates(c)) <==> c.emailEnabled
  {
    var gs := StepGates(c);
    EnabledMember(gs, "setupFrontend");
    EnabledMember(gs, "setupDatabase");
    EnabledMember(gs, "setupEmail");
    assert gs[2].entry == "setupFrontend" && gs[0].entry == "setupDatabase" && gs[7].entry == "setupEmail";
  }

  /**
   * The discrepancy: with a frontend and testing chosen, the corrected run
   * reaches setupTesting, while the run as written stops at the frontend.
   */
  lemma AsWrittenSkipsTesting(c: CliConfig)
    requires FrontendOn(c) && c.testing
    ensures "setupTesting" in Enabled(StepGates(c))
    ensures "setupTesting" !in StepsAsWritten(c)
  {
    var gs := StepGates(c);
    EnabledMember(gs, "setupTesting");
    assert gs[5].entry == "setupTesting" && gs[5].on;
    EnabledMember(LeadSteps(c), "setupTesting");
  }

  /** The arguments of the email step: the user name falls back to 'user' when it is missing or empty. */
  function EmailArgs(c: CliConfig): (args: (string, string, string))
    ensures Truthy(c.databaseUsername) ==> args.0 == c.databaseUsername.value
    ensures !Truthy(c.databaseUsername) ==> args.0 == "user"
    ensures args.1 == "http://localhost:8080/reset-password" && args.2 == "http://localhost:8080/verify-email"
  {
    (if Truthy(c.databaseUsername) then c.databaseUsername.value else "user",
     "http://localhost:8080/reset-password",
     "http://localhost:8080/verify-email")
  }
}
