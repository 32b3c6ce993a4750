/**
 * src/templates/cli/testing.ts: `setupTesting` adds the test dependencies
 * to the backend pom (unless the Spring Boot test starter is already
 * there) and writes a sample JUnit test, then merges Jest into the
 * frontend package.json and writes a sample React test. Each half runs
 * only when its directory exists.
 */
module Testing {
  import opened Wrappers
  import opened JsString
  import opened JsonValue
  import opened Files
  import opened PomEdit
  import opened MavenDeps
  import opened Setup

  // ---------------------------------------------------------------- paths

  function FrontendDir(projectPath: string): string
  {
    JoinPath(projectPath, "frontend")
  }

  function TestDir(projectPath: string): string
  {
    JoinPath(BackendPath(projectPath), "src/test/java/com/example/app")
  }

  function JavaTestPath(projectPath: string): string
  {
    JoinPath(TestDir(projectPath), "ApplicationTests.java")
  }

  function PackagePath(projectPath: string): string
  {
    JoinPath(FrontendDir(projectPath), "package.json")
  }

  function FrontendSrc(projectPath: string): string
  {
    JoinPath(FrontendDir(projectPath), "src")
  }

  function AppTestPath(projectPath: string): string
  {
    JoinPath(FrontendSrc(projectPath), "App.test.js")
  }

  // ------------------------------------------------------------ the pom

  const SpringBootTest: Dependency := Dependency("org.springframework.boot", "spring-boot-starter-test", Some("test"))
  const JupiterApi: Dependency := Dependency("org.junit.jupiter", "junit-jupiter-api", Some("test"))
  const MockitoCore: Dependency := Dependency("org.mockito", "mockito-core", Some("test"))

  /** Each block on a new line indented by six spaces, its children by eight. */
  const TestLayout: Layout := Layout("\n      ", "        ", "      ")

  /** `testingDependencies`: the three blocks one after the other. */
  function TestBlock(): string
  {
    DependencyXml(SpringBootTest, TestLayout) + DependencyXml(JupiterApi, TestLayout)
      + DependencyXml(MockitoCore, TestLayout)
  }

  /** The guard: the pom already names the Spring Boot test starter. */
  function Guard(): string
  {
    Tag("artifactId", "spring-boot-starter-test")
  }

  /** The inserted text contains its own guard, so a second insertion is skipped. */
  lemma TestBlockHasGuard()
    ensures Includes(TestBlock(), Guard())
  {
    var first := DependencyXml(SpringBootTest, TestLayout);
    ArtifactTagIncluded(SpringBootTest, TestLayout);
    IncludesAround([], first, DependencyXml(JupiterApi, TestLayout), Guard());
    IncludesAround([], first + DependencyXml(JupiterApi, TestLayout), DependencyXml(MockitoCore, TestLayout), Guard());
  }

  /**
   * A guarded pom step: nothing when the pom does not exist; a failure when
   * it cannot be read as text; otherwise it is rewritten with `block` unless
   * it already holds `guard`.
   */
  function BlockStep(files: map<string, Content>, dirs: set<string>, pomPath: string, block: string, guard: string): Effect
  {
    if pomPath !in files && pomPath !in dirs then Effect(Pass, files)
    else match TextAt(files, dirs, pomPath)
      case Err(m) => Effect(Fail(m), files)
      case Ok(pom) =>
        if Includes(pom, guard) then Effect(Pass, files)
        else Effect(Pass, files[pomPath := Text(InsertBlock(pom, block))])
  }

  /** The pom step of this file: the three test blocks, guarded by the test starter. */
  function PomStep(files: map<string, Content>, dirs: set<string>, pomPath: string): Effect
  {
    BlockStep(files, dirs, pomPath, TestBlock(), Guard())
  }

  /**
   * Without the guard, the blocks land right before the first
   * `</dependencies>`; with it, the pom is left alone.
   */
  lemma PomStepPlacement(files: map<string, Content>, dirs: set<string>, pomPath: string, pom: string)
    requires pomPath in files && files[pomPath] == Text(pom)
    ensures Includes(pom, Guard()) ==> PomStep(files, dirs, pomPath) == Effect(Pass, files)
    ensures !Includes(pom, Guard()) && Includes(pom, Closing) ==>
      exists i :: FirstMatch(pom, Closing, i) &&
        PomStep(files, dirs, pomPath) == Effect(Pass, files[pomPath := Text(pom[..i] + TestBlock() + "\n    " + pom[i..])])
  {
    InsertBlockSpec(pom, TestBlock());
  }

  // ------------------------------------------------------ the sample tests

  const JavaTestLines: seq<string> := [
    "",
    "package com.example.app;",
    "",
    "import org.junit.jupiter.api.Test;",
    "import org.springframework.boot.test.context.SpringBootTest;",
    "",
    "@SpringBootTest",
    "class ApplicationTests {",
    "",
    "    @Test",
    "    void contextLoads() {",
    "    }",
    "}",
    ""]

  function SampleJavaTest(): string
  {
    Join(JavaTestLines, '\n')
  }

  function AppTestText(projectName: string): string
  {
    Join([
      "",
      "import { render, screen } from '@testing-library/react';",
      "import App from './App';",
      "",
      "test('renders welcome message', () => {",
      "  render(<App />);",
      "  const linkElement = screen.getByText(/Welcome to " + projectName + "/i);",
      "  expect(linkElement).toBeInTheDocument();",
      "});",
      ""], '\n')
  }

  // ------------------------------------------------------------- backend

  function BackendDirs(dirs: set<string>, projectPath: string): set<string>
  {
    dirs + Ancestors(TestDir(projectPath))
  }

  lemma BackendDirsTwice(dirs: set<string>, projectPath: string)
    ensures BackendDirs(BackendDirs(dirs, projectPath), projectPath) == BackendDirs(dirs, projectPath)
  {
  }

  /** A guarded pom step, then, when it passed, one more file written. */
  function StepThenWrite(files: map<string, Content>, dirs: set<string>, pomPath: string, block: string, guard: string,
                         path: string, content: Content): Run
  {
    var step := BlockStep(files, dirs, pomPath, block, guard);
    if step.outcome.Fail? then Run(step.outcome, files, dirs)
    else Run(Pass, step.files[path := content], dirs)
  }

  /** `setupBackendTesting`: make the test directory, the pom step, then the sample test. */
  function BackendRun(files: map<string, Content>, dirs: set<string>, projectPath: string): Run
  {
    StepThenWrite(files, BackendDirs(dirs, projectPath), PomPath(projectPath), TestBlock(), Guard(),
                  JavaTestPath(projectPath), Text(SampleJavaTest()))
  }

  /** The backend directory, the pom and the sample test: where each lies relative to the others. */
  lemma BackendPaths(projectPath: string)
    ensures Parent(PomPath(projectPath)) == BackendPath(projectPath)
    ensures Parent(JavaTestPath(projectPath)) == TestDir(projectPath)
    ensures BackendPath(projectPath) in Ancestors(TestDir(projectPath))
    ensures TestDir(projectPath) in Ancestors(TestDir(projectPath))
    ensures PomPath(projectPath) != JavaTestPath(projectPath)
  {
    var b := BackendPath(projectPath);
    var t := TestDir(projectPath);
    ParentJoin(b, "pom.xml");
    ParentJoin(t, "ApplicationTests.java");
    assert t[|b|] == '/' && t[..|b|] == b;
    PomApartFromTest(projectPath);
  }

  lemma PomApartFromTest(projectPath: string)
    ensures PomPath(projectPath) != JavaTestPath(projectPath)
  {
    var b := BackendPath(projectPath);
    assert PomPath(projectPath)[|b| + 1] != JavaTestPath(projectPath)[|b| + 1];
  }

  method SetupBackendTesting(disk: Disk, projectPath: string) returns (r: Outcome)
    modifies disk
    ensures Run(r, disk.files, disk.dirs) == BackendRun(old(disk.files), old(disk.dirs), projectPath)
  {
    BackendPaths(projectPath);
    disk.EnsureDir(TestDir(projectPath));
    var pomPath := PomPath(projectPath);
    var present := disk.PathExists(pomPath);
    if present {
      var pom := disk.ReadText(pomPath);
      if pom.Err? {
        r := Fail(pom.msg);
        return;
      }
      if !Includes(pom.value, Guard()) {
        r := disk.WriteFile(pomPath, Text(InsertBlock(pom.value, TestBlock())));
      }
    }
    r := disk.WriteFile(JavaTestPath(projectPath), Text(SampleJavaTest()));
  }

  /**
   * The backend half fails exactly when pom.xml exists but is not a text
   * file; otherwise ApplicationTests.java holds the sample, whatever was
   * there before.
   */
  lemma BackendOutcome(files: map<string, Content>, dirs: set<string>, projectPath: string)
    ensures var r := BackendRun(files, dirs, projectPath); var pomPath := PomPath(projectPath);
      r.outcome.Fail? <==> (pomPath in files || pomPath in BackendDirs(dirs, projectPath)) && !(pomPath in files && files[pomPath].Text?)
    ensures var r := BackendRun(files, dirs, projectPath);
      r.outcome.Pass? ==> r.files[JavaTestPath(projectPath)] == Text(SampleJavaTest())
  {
  }

  /** The pom step reads and writes only the pom. */
  lemma PomStepFrame(files: map<string, Content>, dirs: set<string>, pomPath: string, k: string, c: Content)
    requires k != pomPath
    ensures PomStep(files[k := c], dirs, pomPath).outcome == PomStep(files, dirs, pomPath).outcome
    ensures PomStep(files[k := c], dirs, pomPath).files == PomStep(files, dirs, pomPath).files[k := c]
  {
    BlockStepFrame(files, dirs, pomPath, k, c, TestBlock(), Guard());
  }

  lemma BlockStepFrame(files: map<string, Content>, dirs: set<string>, pomPath: string, k: string, c: Content,
                       block: string, guard: string)
    requires k != pomPath
    ensures BlockStep(files[k := c], dirs, pomPath, block, guard).outcome == BlockStep(files, dirs, pomPath, block, guard).outcome
    ensures BlockStep(files[k := c], dirs, pomPath, block, guard).files == BlockStep(files, dirs, pomPath, block, guard).files[k := c]
  {
    assert TextAt(files[k := c], dirs, pomPath) == TextAt(files, dirs, pomPath);
  }

  /** A second pom step after a successful one changes nothing. */
  lemma PomStepTwice(files: map<string, Content>, dirs: set<string>, pomPath: string)
    requires PomStep(files, dirs, pomPath).outcome.Pass?
    ensures PomStep(PomStep(files, dirs, pomPath).files, dirs, pomPath) == PomStep(files, dirs, pomPath)
  {
    TestBlockHasGuard();
    BlockStepTwice(files, dirs, pomPath, TestBlock(), Guard());
  }

  lemma BlockStepTwice(files: map<string, Content>, dirs: set<string>, pomPath: string, block: string, guard: string)
    requires Includes(block, guard)
    requires BlockStep(files, dirs, pomPath, block, guard).outcome.Pass?
    ensures BlockStep(BlockStep(files, dirs, pomPath, block, guard).files, dirs, pomPath, block, guard)
         == BlockStep(files, dirs, pomPath, block, guard)
  {
    if pomPath in files || pomPath in dirs {
      var pom := TextAt(files, dirs, pomPath).value;
      var pom1 := InsertUnlessPresent(pom, block, guard);
      var files1 := files[pomPath := Text(pom1)];
      assert BlockStep(files, dirs, pomPath, block, guard).files == files1;
      assert InsertUnlessPresent(pom1, block, guard) == pom1 by {
        InsertUnlessPresentIdempotent(pom, block, guard);
      }
      assert TextAt(files1, dirs, pomPath) == Ok(pom1);
      assert files1[pomPath := Text(pom1)] == files1;
    }
  }

  /** Running the backend half again after it succeeded changes nothing. */
  lemma BackendIdempotent(files: map<string, Content>, dirs: set<string>, projectPath: string)
    ensures var r := BackendRun(files, dirs, projectPath);
      r.outcome.Pass? ==> BackendRun(r.files, r.dirs, projectPath) == r
  {
    PomApartFromTest(projectPath);
    TestBlockHasGuard();
    BackendDirsTwice(dirs, projectPath);
    StepThenWriteTwice(files, BackendDirs(dirs, projectPath), PomPath(projectPath), TestBlock(), Guard(),
                       JavaTestPath(projectPath), Text(SampleJavaTest()));
  }

  /** When the block holds its guard, a successful step-then-write run again on its result changes nothing. */
  lemma StepThenWriteTwice(files: map<string, Content>, dirs: set<string>, pomPath: string, block: string, guard: string,
                           path: string, content: Content)
    requires Includes(block, guard) && path != pomPath
    ensures var r := StepThenWrite(files, dirs, pomPath, block, guard, path, content);
      r.outcome.Pass? ==> StepThenWrite(r.files, r.dirs, pomPath, block, guard, path, content) == r
  {
    var step := BlockStep(files, dirs, pomPath, block, guard);
    if step.outcome.Pass? {
      var r := StepThenWrite(files, dirs, pomPath, block, guard, path, content);
      BlockStepFrame(step.files, dirs, pomPath, path, content, block, guard);
      BlockStepTwice(files, dirs, pomPath, block, guard);
      assert r.files[path := content] == r.files;
    }
  }


  // ------------------------------------------------------------ frontend

  /** `jest`, the three Testing Library packages and `ts-jest`, at fixed versions. */
  const TestingDevDependencies: seq<Field> := [
    Str("jest", "^29.0.0"),
    Str("@testing-library/react", "^13.4.0"),
    Str("@testing-library/jest-dom", "^5.16.5"),
    Str("@testing-library/vue", "^6.0.0"),
    Str("@testing-library/angular", "^12.0.0"),
    Str("ts-jest", "^29.0.0")]

  /** The package.json fields after both assignments. */
  function TestingFields(fs: seq<Field>): seq<Field>
  {
    var devs := PutAll(SpreadFields(Get(fs, "devDependencies")), TestingDevDependencies);
    var fs1 := Put(fs, "devDependencies", JObj(devs));
    var scripts := PutAll(SpreadFields(Get(fs1, "scripts")), [Str("test", "jest")]);
    Put(fs1, "scripts", JObj(scripts))
  }

  /**
   * The document written back: an object gets the two assignments; an
   * array takes them as properties that serialisation drops; null makes
   * the first assignment throw.
   */
  function TestingPackage(v: Json, path: string): Result<Json>
  {
    match v
    case JObj(fs) => Ok(JObj(TestingFields(fs)))
    case JArr(_) => Ok(v)
    case JNull => Err("Cannot set properties of null (setting 'devDependencies')")
    case _ => Err("not modelled: assigning a property of the JSON primitive in " + path)
  }

  lemma {:induction false} LastValueDistinct(extra: seq<Field>, i: nat)
    requires i < |extra|
    requires forall a, b :: 0 <= a < b < |extra| ==> extra[a].key != extra[b].key
    ensures extra[i].key in Keys(extra)
    ensures LastValue(extra, extra[i].key) == extra[i].value
    decreases i
  {
    if i == 0 {
      assert extra[0].key !in Keys(extra[1..]) by {
        KeysIndex(extra[1..], extra[0].key);
      }
    } else {
      LastValueDistinct(extra[1..], i - 1);
    }
  }

  /** A key is listed exactly when some field carries it. */
  lemma {:induction false} KeysIndex(fs: seq<Field>, k: string)
    ensures k in Keys(fs) <==> exists j :: 0 <= j < |fs| && fs[j].key == k
    decreases |fs|
  {
    if fs != [] {
      KeysIndex(fs[1..], k);
      if k in Keys(fs[1..]) {
        var j :| 0 <= j < |fs[1..]| && fs[1..][j].key == k;
        assert fs[j + 1].key == k;
      }
      if exists j :: 0 <= j < |fs| && fs[j].key == k {
        var j :| 0 <= j < |fs| && fs[j].key == k;
        if j > 0 {
          assert fs[1..][j - 1].key == k;
        }
      }
    }
  }

  /** The six package names differ, so each keeps the version written next to it. */
  lemma TestingVersions()
    ensures forall i :: 0 <= i < |TestingDevDependencies| ==>
      TestingDevDependencies[i].key in Keys(TestingDevDependencies) &&
      LastValue(TestingDevDependencies, TestingDevDependencies[i].key) == TestingDevDependencies[i].value
  {
    var t := TestingDevDependencies;
    assert |t[0].key| == 4 && |t[1].key| == 22 && |t[2].key| == 25;
    assert |t[3].key| == 20 && |t[4].key| == 24 && |t[5].key| == 7;
    forall i | 0 <= i < |t|
      ensures t[i].key in Keys(t) && LastValue(t, t[i].key) == t[i].value
    {
      LastValueDistinct(t, i);
    }
  }

  /**
   * After the merge every earlier devDependency is still there, and each of
   * the six testing packages has its fixed version, replacing any earlier one.
   */
  lemma DevDependenciesMerged(fs: seq<Field>, q: string)
    ensures var devs := PutAll(SpreadFields(Get(fs, "devDependencies")), TestingDevDependencies);
      Get(TestingFields(fs), "devDependencies") == Some(JObj(devs)) &&
      (q !in Keys(TestingDevDependencies) ==> Get(devs, q) == Get(SpreadFields(Get(fs, "devDependencies")), q))
    ensures var devs := PutAll(SpreadFields(Get(fs, "devDependencies")), TestingDevDependencies);
      forall i :: 0 <= i < |TestingDevDependencies| ==>
        Get(devs, TestingDevDependencies[i].key) == Some(TestingDevDependencies[i].value)
  {
    var prior := SpreadFields(Get(fs, "devDependencies"));
    var devs := PutAll(prior, TestingDevDependencies);
    var fs1 := Put(fs, "devDependencies", JObj(devs));
    var scripts := PutAll(SpreadFields(Get(fs1, "scripts")), [Str("test", "jest")]);
    GetPut(fs1, "scripts", JObj(scripts), "devDependencies");
    GetPut(fs, "devDependencies", JObj(devs), "devDependencies");
    GetPutAll(prior, TestingDevDependencies, q);
    TestingVersions();
    forall i | 0 <= i < |TestingDevDependencies|
      ensures Get(devs, TestingDevDependencies[i].key) == Some(TestingDevDependencies[i].value)
    {
      GetPutAll(prior, TestingDevDependencies, TestingDevDependencies[i].key);
    }
  }

  /** `scripts.test` becomes `jest`; every other script, and every other property, is kept. */
  lemma ScriptsMerged(fs: seq<Field>, q: string)
    ensures var scripts := Get(TestingFields(fs), "scripts");
      scripts.Some? && scripts.value.JObj? &&
      Get(scripts.value.fields, "test") == Some(JStr("jest")) &&
      (q != "test" ==> Get(scripts.value.fields, q) == Get(SpreadFields(Get(fs, "scripts")), q))
    ensures q != "devDependencies" && q != "scripts" ==> Get(TestingFields(fs), q) == Get(fs, q)
  {
    var devs := PutAll(SpreadFields(Get(fs, "devDependencies")), TestingDevDependencies);
    var fs1 := Put(fs, "devDependencies", JObj(devs));
    var scripts := PutAll(SpreadFields(Get(fs1, "scripts")), [Str("test", "jest")]);
    GetPut(fs, "devDependencies", JObj(devs), "scripts");
    GetPut(fs, "devDependencies", JObj(devs), q);
    GetPut(fs1, "scripts", JObj(scripts), "scripts");
    GetPut(fs1, "scripts", JObj(scripts), q);
    GetPutAll(SpreadFields(Get(fs1, "scripts")), [Str("test", "jest")], q);
    GetPutAll(SpreadFields(Get(fs1, "scripts")), [Str("test", "jest")], "test");
  }

  /** The properties of package.json keep their order; the two assigned ones come last if they were new. */
  lemma PackageKeysKept(fs: seq<Field>)
    ensures Keys(fs) <= Keys(TestingFields(fs))
  {
    var devs := PutAll(SpreadFields(Get(fs, "devDependencies")), TestingDevDependencies);
    var fs1 := Put(fs, "devDependencies", JObj(devs));
    var scripts := PutAll(SpreadFields(Get(fs1, "scripts")), [Str("test", "jest")]);
    KeysPut(fs, "devDependencies", JObj(devs));
    KeysPut(fs1, "scripts", JObj(scripts));
  }

  /** Rewriting package.json at `pkg` when it exists. */
  function PackageEffect(files: map<string, Content>, dirs: set<string>, pkg: string): Effect
  {
    if pkg !in files && pkg !in dirs then Effect(Pass, files)
    else match JsonAt(files, dirs, pkg)
      case Err(m) => Effect(Fail(m), files)
      case Ok(v) =>
        match TestingPackage(v, pkg)
        case Err(m) => Effect(Fail(m), files)
        case Ok(v1) =>
          if Parent(pkg) in dirs then Effect(Pass, files[pkg := Json(v1)])
          else Effect(Fail(EnoentOpen(pkg)), files)
  }

  method RewritePackage(disk: Disk, pkg: string) returns (r: Outcome)
    modifies disk
    ensures Effect(r, disk.files) == PackageEffect(old(disk.files), old(disk.dirs), pkg)
    ensures disk.dirs == old(disk.dirs)
  {
    r := Pass;
    var present := disk.PathExists(pkg);
    if present {
      var v := disk.ReadJson(pkg);
      if v.Err? {
        r := Fail(v.msg);
        return;
      }
      var v1 := TestingPackage(v.value, pkg);
      if v1.Err? {
        r := Fail(v1.msg);
        return;
      }
      r := disk.WriteFile(pkg, Json(v1.value));
    }
  }

  /**
   * `setupFrontendTesting`: rewrite package.json when it exists, then make
   * `src` and write the sample test.
   */
  function FrontendRun(files: map<string, Content>, dirs: set<string>, projectPath: string, projectName: string): Run
  {
    var written := PackageEffect(files, dirs, PackagePath(projectPath));
    if written.outcome.Fail? then Run(written.outcome, files, dirs)
    else
      Run(Pass, written.files[AppTestPath(projectPath) := Text(AppTestText(projectName))],
          dirs + Ancestors(FrontendSrc(projectPath)))
  }

  lemma FrontendPaths(projectPath: string)
    ensures Parent(PackagePath(projectPath)) == FrontendDir(projectPath)
    ensures Parent(AppTestPath(projectPath)) == FrontendSrc(projectPath)
    ensures FrontendSrc(projectPath) in Ancestors(FrontendSrc(projectPath))
    ensures PackagePath(projectPath) != AppTestPath(projectPath)
  {
    var f := FrontendDir(projectPath);
    ParentJoin(f, "package.json");
    ParentJoin(FrontendSrc(projectPath), "App.test.js");
    assert PackagePath(projectPath)[|f| + 1] != AppTestPath(projectPath)[|f| + 1];
  }

  method SetupFrontendTesting(disk: Disk, projectPath: string, projectName: string) returns (r: Outcome)
    modifies disk
    ensures Run(r, disk.files, disk.dirs) == FrontendRun(old(disk.files), old(disk.dirs), projectPath, projectName)
  {
    r := RewritePackage(disk, PackagePath(projectPath));
    if r.Fail? {
      return;
    }
    assert Parent(AppTestPath(projectPath)) in Ancestors(FrontendSrc(projectPath)) by {
      FrontendPaths(projectPath);
    }
    disk.EnsureDir(FrontendSrc(projectPath));
    r := disk.WriteFile(AppTestPath(projectPath), Text(AppTestText(projectName)));
  }

  /**
   * Without package.json the frontend half still succeeds and writes the
   * sample test, leaving package.json absent; whenever it succeeds the
   * sample test is there.
   */
  lemma FrontendWithoutPackage(files: map<string, Content>, dirs: set<string>, projectPath: string, projectName: string)
    ensures var r := FrontendRun(files, dirs, projectPath, projectName);
      r.outcome.Pass? ==> r.files[AppTestPath(projectPath)] == Text(AppTestText(projectName))
    ensures var r := FrontendRun(files, dirs, projectPath, projectName);
      PackagePath(projectPath) !in files && PackagePath(projectPath) !in dirs ==>
        r.outcome == Pass && PackagePath(projectPath) !in r.files
  {
    FrontendPaths(projectPath);
  }

  // --------------------------------------------------------- setupTesting

  function TestingRun(files: map<string, Content>, dirs: set<string>, projectPath: string, projectName: string): Run
  {
    var backend := BackendPath(projectPath);
    var r1 := if backend in files || backend in dirs then BackendRun(files, dirs, projectPath) else Run(Pass, files, dirs);
    var frontend := FrontendDir(projectPath);
    if r1.outcome.Fail? then r1
    else if frontend in r1.files || frontend in r1.dirs then FrontendRun(r1.files, r1.dirs, projectPath, projectName)
    else r1
  }

  method SetupTesting(disk: Disk, projectPath: string, projectName: string) returns (r: Outcome)
    modifies disk
    ensures Run(r, disk.files, disk.dirs) == TestingRun(old(disk.files), old(disk.dirs), projectPath, projectName)
  {
    r := Pass;
    var backend := disk.PathExists(BackendPath(projectPath));
    if backend {
      r := SetupBackendTesting(disk, projectPath);
      if r.Fail? {
        return;
      }
    }
    var frontend := disk.PathExists(FrontendDir(projectPath));
    if frontend {
      r := SetupFrontendTesting(disk, projectPath, projectName);
    }
  }

  /** With neither a backend nor a frontend directory nothing happens. */
  lemma NothingWithoutDirectories(files: map<string, Content>, dirs: set<string>, projectPath: string, projectName: string)
    requires BackendPath(projectPath) !in files && BackendPath(projectPath) !in dirs
    requires FrontendDir(projectPath) !in files && FrontendDir(projectPath) !in dirs
    ensures TestingRun(files, dirs, projectPath, projectName) == Run(Pass, files, dirs)
  {
  }

  /** The backend half does not create the frontend directory, so it cannot switch the frontend half on. */
  lemma BackendLeavesFrontendAlone(files: map<string, Content>, dirs: set<string>, projectPath: string)
    requires FrontendDir(projectPath) !in files && FrontendDir(projectPath) !in dirs
    ensures FrontendDir(projectPath) !in BackendRun(files, dirs, projectPath).files
    ensures FrontendDir(projectPath) !in BackendRun(files, dirs, projectPath).dirs
  {
    FrontendApart(projectPath);
    BackendFootprint(files, dirs, projectPath);
  }

  /** The frontend directory is neither the pom, nor the sample test, nor a directory on the way to it. */
  lemma FrontendApart(projectPath: string)
    ensures FrontendDir(projectPath) != PomPath(projectPath)
    ensures FrontendDir(projectPath) != JavaTestPath(projectPath)
    ensures FrontendDir(projectPath) !in Ancestors(TestDir(projectPath))
  {
    var f := FrontendDir(projectPath);
    var t := TestDir(projectPath);
    BackendPaths(projectPath);
    assert PomPath(projectPath)[|projectPath| + 1] != f[|projectPath| + 1];
    assert JavaTestPath(projectPath)[|projectPath| + 1] != f[|projectPath| + 1];
    assert t[|projectPath| + 1] != f[|projectPath| + 1];
    if f in Ancestors(t) {
      AncestorsShorter(t, f);
    }
  }

  /** The backend half adds no file but the pom and the sample test, and no directory but the test directory's. */
  lemma BackendFootprint(files: map<string, Content>, dirs: set<string>, projectPath: string)
    ensures BackendRun(files, dirs, projectPath).files.Keys <= files.Keys + {PomPath(projectPath), JavaTestPath(projectPath)}
    ensures BackendRun(files, dirs, projectPath).dirs == dirs + Ancestors(TestDir(projectPath))
  {
    BlockStepKeys(files, BackendDirs(dirs, projectPath), PomPath(projectPath), TestBlock(), Guard());
  }

  lemma BlockStepKeys(files: map<string, Content>, dirs: set<string>, pomPath: string, block: string, guard: string)
    ensures BlockStep(files, dirs, pomPath, block, guard).files.Keys <= files.Keys + {pomPath}
  {
  }

}
