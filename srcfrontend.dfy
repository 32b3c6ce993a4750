/**
 * src/templates/cli/frontend.ts: `setupFrontend` makes `<project>/frontend`,
 * then dispatches on the framework label. React, Vue.js and Angular each
 * write a package.json object and one source file under `src`; None writes
 * nothing; any other label throws.
 */
module SrcFrontend {
  import opened Wrappers
  import opened JsString
  import opened JsonValue
  import opened Files

  /** The parts of the project configuration `setupFrontend` reads. */
  datatype FrontendConfig = FrontendConfig(projectPath: string, projectName: string, framework: string)

  predicate Supported(framework: string)
  {
    framework == "React" || framework == "Vue.js" || framework == "Angular"
  }

  function Unsupported(framework: string): string
  {
    "Unsupported frontend framework: " + framework
  }

  function FrontendPath(c: FrontendConfig): string
  {
    JoinPath(c.projectPath, "frontend")
  }

  function SrcPath(c: FrontendConfig): string
  {
    JoinPath(FrontendPath(c), "src")
  }

  function PackagePath(c: FrontendConfig): string
  {
    JoinPath(FrontendPath(c), "package.json")
  }

  // ------------------------------------------------------------ package.json

  /** The object every framework writes: name, version, private, then its own three maps. */
  function PackageObject(projectName: string, scripts: seq<Field>, deps: seq<Field>, devDeps: seq<Field>): seq<Field>
  {
    [Str("name", Lower(projectName)), Str("version", "1.0.0"), Field("private", JBool(true)),
     Field("scripts", JObj(scripts)), Field("dependencies", JObj(deps)), Field("devDependencies", JObj(devDeps))]
  }

  const ReactScripts: seq<Field> := [
    Str("start", "react-scripts start"), Str("build", "react-scripts build"),
    Str("test", "react-scripts test"), Str("eject", "react-scripts eject")]
  const ReactDeps: seq<Field> := [
    Str("react", "^18.2.0"), Str("react-dom", "^18.2.0"), Str("react-router-dom", "^6.11.2")]
  const ReactDevDeps: seq<Field> := [
    Str("typescript", "^5.0.4"), Str("@types/react", "^18.0.28"),
    Str("@types/react-dom", "^18.0.11"), Str("@types/react-router-dom", "^5.3.3")]

  const VueScripts: seq<Field> := [
    Str("serve", "vue-cli-service serve"), Str("build", "vue-cli-service build"),
    Str("lint", "vue-cli-service lint")]
  const VueDeps: seq<Field> := [Str("vue", "^3.3.4"), Str("vue-router", "^4.2.2")]
  const VueDevDeps: seq<Field> := [Str("@vue/cli-service", "^5.0.8"), Str("@vue/compiler-sfc", "^3.3.4")]

  const AngularScripts: seq<Field> := [
    Str("start", "ng serve"), Str("build", "ng build"), Str("test", "ng test"),
    Str("lint", "ng lint"), Str("e2e", "ng e2e")]
  const AngularDeps: seq<Field> := [
    Str("@angular/core", "^16.0.0"), Str("@angular/common", "^16.0.0"), Str("@angular/router", "^16.0.0"),
    Str("rxjs", "^7.8.1"), Str("zone.js", "^0.13.0")]
  const AngularDevDeps: seq<Field> := [
    Str("@angular/cli", "^16.0.0"), Str("@angular/compiler-cli", "^16.0.0"), Str("typescript", "^5.0.4")]

  /** The `packageJson` literal of `setupReact`, `setupVue` or `setupAngular`. */
  function PackageFields(framework: string, projectName: string): seq<Field>
    requires Supported(framework)
  {
    if framework == "React" then PackageObject(projectName, ReactScripts, ReactDeps, ReactDevDeps)
    else if framework == "Vue.js" then PackageObject(projectName, VueScripts, VueDeps, VueDevDeps)
    else PackageObject(projectName, AngularScripts, AngularDeps, AngularDevDeps)
  }

  // ------------------------------------------------------------ source files

  function Welcome(projectName: string): string
  {
    "<h1>Welcome to " + projectName + "</h1>"
  }

  function AppJs(projectName: string): string
  {
    Join([
      "",
      "import React from 'react';",
      "import { BrowserRouter as Router, Route, Routes } from 'react-router-dom';",
      "",
      "function App() {",
      "  return (",
      "    <Router>",
      "      <Routes>",
      "        <Route path=\"/\" element={" + Welcome(projectName) + "} />",
      "      </Routes>",
      "    </Router>",
      "  );",
      "}",
      "",
      "export default App;",
      ""], '\n')
  }

  const AppVue: string := Join([
    "",
    "<template>",
    "  <div id=\"app\">",
    "    <router-view />",
    "  </div>",
    "</template>",
    "",
    "<script>",
    "export default {",
    "  name: 'App'",
    "};",
    "</script>",
    ""], '\n')

  function AppComponentHtml(projectName: string): string
  {
    "\n" + Welcome(projectName) + "\n"
  }

  /** The file each framework writes under `src`, and its text. */
  function SourceName(framework: string): string
    requires Supported(framework)
  {
    if framework == "React" then "App.js" else if framework == "Vue.js" then "App.vue" else "app.component.html"
  }

  function SourceText(framework: string, projectName: string): string
    requires Supported(framework)
  {
    if framework == "React" then AppJs(projectName)
    else if framework == "Vue.js" then AppVue
    else AppComponentHtml(projectName)
  }

  function SourcePath(c: FrontendConfig): string
    requires Supported(c.framework)
  {
    JoinPath(SrcPath(c), SourceName(c.framework))
  }

  // ------------------------------------------------------------ setupFrontend

  /** Write `a`, then, when that succeeded, make `dir` and write `b`. */
  function WriteMakeWrite(r: Run, a: string, ca: Content, dir: string, b: string, cb: Content): Run
  {
    var r1 := WriteAt(r, a, ca);
    if r1.outcome.Fail? then r1
    else WriteAt(Run(Pass, r1.files, r1.dirs + Ancestors(dir)), b, cb)
  }

  /** One framework's handler: write package.json, make `src`, write the source file. */
  function FrameworkRun(r: Run, c: FrontendConfig): Run
    requires Supported(c.framework)
  {
    WriteMakeWrite(r, PackagePath(c), Json(JObj(PackageFields(c.framework, c.projectName))),
                   SrcPath(c), SourcePath(c), Text(SourceText(c.framework, c.projectName)))
  }

  /** `setupFrontend`: make the frontend directory, then dispatch on the label. */
  function FrontendRun(files: map<string, Content>, dirs: set<string>, c: FrontendConfig): Run
  {
    var r := Run(Pass, files, dirs + Ancestors(FrontendPath(c)));
    if Supported(c.framework) then FrameworkRun(r, c)
    else if c.framework == "None" then r
    else Run(Fail(Unsupported(c.framework)), files, r.dirs)
  }

  method SetupFramework(disk: Disk, c: FrontendConfig) returns (r: Outcome)
    requires Supported(c.framework)
    modifies disk
    ensures Run(r, disk.files, disk.dirs) == FrameworkRun(Run(Pass, old(disk.files), old(disk.dirs)), c)
  {
    r := disk.WriteFile(PackagePath(c), Json(JObj(PackageFields(c.framework, c.projectName))));
    if r.Fail? {
      return;
    }
    disk.EnsureDir(SrcPath(c));
    r := disk.WriteFile(SourcePath(c), Text(SourceText(c.framework, c.projectName)));
  }

  method SetupFrontend(disk: Disk, c: FrontendConfig) returns (r: Outcome)
    modifies disk
    ensures Run(r, disk.files, disk.dirs) == FrontendRun(old(disk.files), old(disk.dirs), c)
  {
    disk.EnsureDir(FrontendPath(c));
    if Supported(c.framework) {
      r := SetupFramework(disk, c);
    } else if c.framework == "None" {
      r := Pass;
    } else {
      r := Fail(Unsupported(c.framework));
    }
  }

  // ------------------------------------------------------------------ lemmas

  /** The frontend directory is made first, whatever the label, even when it is refused. */
  lemma FrontendDirAlwaysMade(files: map<string, Content>, dirs: set<string>, c: FrontendConfig)
    ensures FrontendPath(c) in FrontendRun(files, dirs, c).dirs
    ensures dirs <= FrontendRun(files, dirs, c).dirs
  {
    var r := Run(Pass, files, dirs + Ancestors(FrontendPath(c)));
    assert FrontendPath(c) in r.dirs;
    if Supported(c.framework) {
      WriteMakeWriteDirs(r, PackagePath(c), Json(JObj(PackageFields(c.framework, c.projectName))),
                         SrcPath(c), SourcePath(c), Text(SourceText(c.framework, c.projectName)));
    }
  }

  /** The handler only adds directories. */
  lemma WriteMakeWriteDirs(r: Run, a: string, ca: Content, dir: string, b: string, cb: Content)
    ensures r.dirs <= WriteMakeWrite(r, a, ca, dir, b, cb).dirs
  {
  }

  /** None writes no file; any other unsupported label fails with its name and writes no file. */
  lemma OtherLabelsWriteNothing(files: map<string, Content>, dirs: set<string>, c: FrontendConfig)
    requires !Supported(c.framework)
    ensures FrontendRun(files, dirs, c).files == files
    ensures FrontendRun(files, dirs, c).outcome
         == if c.framework == "None" then Pass else Fail("Unsupported frontend framework: " + c.framework)
  {
  }

  lemma FrontendPaths(c: FrontendConfig)
    requires Supported(c.framework)
    ensures Parent(PackagePath(c)) == FrontendPath(c)
    ensures Parent(SourcePath(c)) == SrcPath(c)
    ensures PackagePath(c) != SourcePath(c)
  {
    ParentJoin(FrontendPath(c), "package.json");
    ParentJoin(SrcPath(c), SourceName(c.framework));
    assert PackagePath(c)[|FrontendPath(c)| + 1] != SourcePath(c)[|FrontendPath(c)| + 1];
  }

  /**
   * A supported framework always succeeds and adds or replaces exactly two
   * files, package.json and its source file, leaving every other file as it was.
   */
  lemma SupportedWritesTwoFiles(files: map<string, Content>, dirs: set<string>, c: FrontendConfig)
    requires Supported(c.framework)
    ensures var r := FrontendRun(files, dirs, c);
      r.outcome == Pass &&
      r.files.Keys == files.Keys + {PackagePath(c), SourcePath(c)} &&
      r.files[PackagePath(c)] == Json(JObj(PackageFields(c.framework, c.projectName))) &&
      r.files[SourcePath(c)] == Text(SourceText(c.framework, c.projectName)) &&
      (forall p :: p in files && p != PackagePath(c) && p != SourcePath(c) ==> r.files[p] == files[p])
  {
    FrontendPaths(c);
    var r := Run(Pass, files, dirs + Ancestors(FrontendPath(c)));
    assert FrontendPath(c) in r.dirs;
    WriteMakeWriteTwo(r, PackagePath(c), Json(JObj(PackageFields(c.framework, c.projectName))),
                      SrcPath(c), SourcePath(c), Text(SourceText(c.framework, c.projectName)));
  }

  /** When the first write succeeds and `b` lies in `dir`, both writes land and nothing else changes. */
  lemma WriteMakeWriteTwo(r: Run, a: string, ca: Content, dir: string, b: string, cb: Content)
    requires r.outcome == Pass && Parent(a) in r.dirs && Parent(b) == dir && a != b
    ensures var r2 := WriteMakeWrite(r, a, ca, dir, b, cb);
      r2.outcome == Pass &&
      r2.files.Keys == r.files.Keys + {a, b} &&
      r2.files[a] == ca && r2.files[b] == cb &&
      (forall p :: p in r.files && p != a && p != b ==> r2.files[p] == r.files[p])
  {
    assert dir in Ancestors(dir);
  }

  /** The three source files: App.js, App.vue and app.component.html. */
  lemma SourceFiles()
    ensures SourceName("React") == "App.js"
    ensures SourceName("Vue.js") == "App.vue"
    ensures SourceName("Angular") == "app.component.html"
  {
  }

  /**
   * Every package is named after the lower-cased project name, has version
   * 1.0.0, is private, and has the same six keys in the same order.
   */
  lemma PackageHead(framework: string, projectName: string)
    requires Supported(framework)
    ensures var fs := PackageFields(framework, projectName);
      Get(fs, "name") == Some(JStr(Lower(projectName))) &&
      Get(fs, "version") == Some(JStr("1.0.0")) &&
      Get(fs, "private") == Some(JBool(true)) &&
      Keys(fs) == ["name", "version", "private", "scripts", "dependencies", "devDependencies"]
  {
    if framework == "React" {
      ObjectHead(projectName, ReactScripts, ReactDeps, ReactDevDeps);
    } else if framework == "Vue.js" {
      ObjectHead(projectName, VueScripts, VueDeps, VueDevDeps);
    } else {
      ObjectHead(projectName, AngularScripts, AngularDeps, AngularDevDeps);
    }
  }

  lemma ObjectHead(projectName: string, scripts: seq<Field>, deps: seq<Field>, devDeps: seq<Field>)
    ensures var fs := PackageObject(projectName, scripts, deps, devDeps);
      Get(fs, "name") == Some(JStr(Lower(projectName))) &&
      Get(fs, "version") == Some(JStr("1.0.0")) &&
      Get(fs, "private") == Some(JBool(true)) &&
      Keys(fs) == ["name", "version", "private", "scripts", "dependencies", "devDependencies"]
  {
    var fs := PackageObject(projectName, scripts, deps, devDeps);
    assert "name" != "version" && "name" != "private" by {
      assert |"name"| != |"version"| && |"name"| != |"private"|;
    }
    assert "version" != "private" by {
      assert "version"[0] != "private"[0];
    }
    assert Get(fs[1..], "version") == Some(JStr("1.0.0"));
    assert fs[1..][1..] == fs[2..];
    assert Get(fs[2..], "private") == Some(JBool(true));
    assert fs[5..][1..] == [];
    assert Keys(fs[5..]) == ["devDependencies"];
    assert fs[4..][1..] == fs[5..];
    assert Keys(fs[4..]) == ["dependencies", "devDependencies"];
    assert fs[3..][1..] == fs[4..];
    assert Keys(fs[3..]) == ["scripts", "dependencies", "devDependencies"];
    assert fs[2..][1..] == fs[3..];
    assert Keys(fs[2..]) == ["private", "scripts", "dependencies", "devDependencies"];
  }

  /** React and Angular greet the project by its name as given; Vue's App.vue does not mention it. */
  lemma WelcomeShown(projectName: string)
    ensures Includes(SourceText("Angular", projectName), Welcome(projectName))
    ensures SourceText("Vue.js", projectName) == SourceText("Vue.js", "")
  {
    IncludesSelf("\n", Welcome(projectName), "\n");
    assert "\n" + Welcome(projectName) + "\n" == "\n" + Welcome(projectName) + "\n";
  }
}
