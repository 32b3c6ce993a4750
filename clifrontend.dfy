/**
 * templates/cli/frontend.ts: `setupFrontend` of the template generator.
 * React gets a Vite project of six files under `<project>/frontend`, whose
 * App.tsx holds the login and register routes and components only when
 * authentication is enabled; JavaTemplate gets two Thymeleaf pages under
 * the backend's resources; Vue.js, Angular and every other label write
 * nothing.
 */
module CliFrontend {
  import opened Wrappers
  import opened JsString
  import opened JsonValue
  import opened Files

  /** The parts of the project configuration this `setupFrontend` reads. */
  datatype CliFrontendConfig = CliFrontendConfig(projectName: string, framework: string, authEnabled: bool)

  function FrontendPath(projectPath: string): string
  {
    JoinPath(projectPath, "frontend")
  }

  function SrcPath(projectPath: string): string
  {
    JoinPath(FrontendPath(projectPath), "src")
  }

  // ------------------------------------------------------------------ React

  const ReactDeps: seq<Field> := [
    Str("@testing-library/jest-dom", "^5.16.5"), Str("@testing-library/react", "^13.4.0"),
    Str("@testing-library/user-event", "^13.5.0"), Str("axios", "^1.4.0"),
    Str("react", "^18.2.0"), Str("react-dom", "^18.2.0"), Str("react-router-dom", "^6.11.1"),
    Str("web-vitals", "^2.1.4"), Str("tailwindcss", "^3.3.3"), Str("daisyui", "^3.7.3")]

  const ReactDevDeps: seq<Field> := [
    Str("@types/node", "^20.5.0"), Str("@types/react", "^18.2.0"), Str("@types/react-dom", "^18.2.0"),
    Str("@typescript-eslint/eslint-plugin", "^6.7.0"), Str("@typescript-eslint/parser", "^6.7.0"),
    Str("autoprefixer", "^10.4.14"), Str("eslint", "^8.49.0"), Str("postcss", "^8.4.27"),
    Str("typescript", "~5.2.2"), Str("vite", "^4.4.9")]

  const ReactScripts: seq<Field> := [
    Str("start", "vite"), Str("build", "tsc && vite build"), Str("test", "jest"), Str("eject", "react-scripts eject")]

  /** The React `packageJson`: named `<projectName>-frontend`, as given, not lower-cased. */
  function PackageFields(projectName: string): seq<Field>
  {
    [Str("name", projectName + "-frontend"), Str("version", "0.1.0"), Field("private", JBool(true)),
     Field("dependencies", JObj(ReactDeps)), Field("devDependencies", JObj(ReactDevDeps)),
     Field("scripts", JObj(ReactScripts))]
  }

  function JStrs(xs: seq<string>): seq<Json>
  {
    if xs == [] then [] else [JStr(xs[0])] + JStrs(xs[1..])
  }

  const CompilerOptions: seq<Field> := [
    Str("target", "ES2020"), Field("useDefineForClassFields", JBool(true)),
    Field("lib", JArr(JStrs(["ES2020", "DOM", "DOM.Iterable"]))), Str("module", "ESNext"),
    Field("skipLibCheck", JBool(true)), Str("moduleResolution", "bundler"),
    Field("allowImportingTsExtensions", JBool(true)), Field("resolveJsonModule", JBool(true)),
    Field("isolatedModules", JBool(true)), Field("noEmit", JBool(true)), Str("jsx", "react-jsx"),
    Field("strict", JBool(true)), Field("noUnusedLocals", JBool(true)),
    Field("noUnusedParameters", JBool(true)), Field("noFallthroughCasesInSwitch", JBool(true))]

  const TsConfig: seq<Field> := [
    Field("compilerOptions", JObj(CompilerOptions)), Field("include", JArr([JStr("src")])),
    Field("references", JArr([JObj([Str("path", "./tsconfig.node.json")])]))]

  const ViteConfig: string := Join([
    "",
    "import { defineConfig } from 'vite';",
    "import react from '@vitejs/plugin-react';",
    "",
    "export default defineConfig({",
    "  plugins: [react()],",
    "  server: {",
    "    port: 3000,",
    "    proxy: {",
    "      '/api': {",
    "        target: 'http://localhost:8080',",
    "        changeOrigin: true,",
    "      },",
    "    },",
    "  },",
    "});",
    ""], '\n')

  /** App.tsx up to the authentication routes. */
  const AppHead: string := Join([
    "",
    "import React from 'react';",
    "import { BrowserRouter as Router, Routes, Route } from 'react-router-dom';",
    "",
    "const App: React.FC = () => {",
    "  return (",
    "    <Router>",
    "      <div className=\"min-h-screen bg-gray-100\">",
    "        <Routes>",
    "          <Route path=\"/\" element={<Home />} />",
    "          "], '\n')

  const LoginRoute: string := "<Route path=\"/login\" element={<Login />} />"
  const RegisterRoute: string := "<Route path=\"/register\" element={<Register />} />"

  const AuthRoutes: string := "\n          " + LoginRoute + "\n          " + RegisterRoute + "\n          "

  /** App.tsx from the end of the routes to the authentication components: the Home component. */
  function AppMiddle(projectName: string): string
  {
    Join([
      "",
      "        </Routes>",
      "      </div>",
      "    </Router>",
      "  );",
      "};",
      "",
      "const Home: React.FC = () => {",
      "  return (",
      "    <div className=\"container mx-auto px-4 py-8\">",
      "      <h1 className=\"text-3xl font-bold mb-4\">Welcome to " + projectName + "</h1>",
      "      <p className=\"text-gray-600\">This is your new React application.</p>",
      "    </div>",
      "  );",
      "};",
      "",
      ""], '\n')
  }

  const LoginComponent: string := "const Login: React.FC = () => {"
  const RegisterComponent: string := "const Register: React.FC = () => {"

  const LoginBody: string := Join([
    "  return (",
    "    <div className=\"container mx-auto px-4 py-8\">",
    "      <h2 className=\"text-2xl font-bold mb-4\">Login</h2>",
    "      {/* Add login form here */}",
    "    </div>",
    "  );",
    "};"], '\n')

  const RegisterBody: string := Join([
    "  return (",
    "    <div className=\"container mx-auto px-4 py-8\">",
    "      <h2 className=\"text-2xl font-bold mb-4\">Register</h2>",
    "      {/* Add registration form here */}",
    "    </div>",
    "  );",
    "};"], '\n')

  const AuthComponents: string :=
    "\n" + LoginComponent + ("\n" + LoginBody + "\n\n") + RegisterComponent + ("\n" + RegisterBody + "\n")

  const AppTail: string := "\n\nexport default App;\n"

  /** App.tsx: the two conditional blocks are the empty string when authentication is off. */
  function AppTsx(projectName: string, auth: bool): string
  {
    AppHead + (if auth then AuthRoutes else "") + AppMiddle(projectName)
      + (if auth then AuthComponents else "") + AppTail
  }

  const IndexCss: string := "\n@tailwind base;\n@tailwind components;\n@tailwind utilities;\n\n/* Custom styles can be added below */\n"

  const MainTsx: string := Join([
    "",
    "import React from 'react';",
    "import ReactDOM from 'react-dom/client';",
    "import App from './App';",
    "import './index.css';",
    "",
    "ReactDOM.createRoot(document.getElementById('root')!).render(",
    "  <React.StrictMode>",
    "    <App />",
    "  </React.StrictMode>",
    ");",
    ""], '\n')

  /** The three files React writes in the frontend directory, in order, and their contents. */
  function RootPaths(projectPath: string): (ps: seq<string>)
    ensures |ps| == 3
  {
    var f := FrontendPath(projectPath);
    [JoinPath(f, "package.json"), JoinPath(f, "tsconfig.json"), JoinPath(f, "vite.config.ts")]
  }

  function RootContents(c: CliFrontendConfig): (cs: seq<Content>)
    ensures |cs| == 3
  {
    [Json(JObj(PackageFields(c.projectName))), Json(JObj(TsConfig)), Text(ViteConfig)]
  }

  /** The three files React writes in `src`, in order, and their contents. */
  function SrcPaths(projectPath: string): (ps: seq<string>)
    ensures |ps| == 3
  {
    var s := SrcPath(projectPath);
    [JoinPath(s, "App.tsx"), JoinPath(s, "index.css"), JoinPath(s, "main.tsx")]
  }

  function SrcContents(c: CliFrontendConfig): (cs: seq<Content>)
    ensures |cs| == 3
  {
    [Text(AppTsx(c.projectName, c.authEnabled)), Text(IndexCss), Text(MainTsx)]
  }

  /** Three writes in a row, each skipped once one has failed. */
  function Write3(r: Run, ps: seq<string>, cs: seq<Content>): Run
    requires |ps| == 3 && |cs| == 3
  {
    WriteAt(WriteAt(WriteAt(r, ps[0], cs[0]), ps[1], cs[1]), ps[2], cs[2])
  }

  method WriteThree(disk: Disk, ps: seq<string>, cs: seq<Content>) returns (r: Outcome)
    requires |ps| == 3 && |cs| == 3
    modifies disk
    ensures Run(r, disk.files, disk.dirs) == Write3(Run(Pass, old(disk.files), old(disk.dirs)), ps, cs)
  {
    r := disk.WriteFile(ps[0], cs[0]);
    if r.Fail? {
      return;
    }
    r := disk.WriteFile(ps[1], cs[1]);
    if r.Fail? {
      return;
    }
    r := disk.WriteFile(ps[2], cs[2]);
  }

  /** `setupReactFrontend`: make the frontend directory, three writes, make `src`, three writes. */
  function ReactRun(files: map<string, Content>, dirs: set<string>, projectPath: string, c: CliFrontendConfig): Run
  {
    ReactSteps(files, dirs, projectPath, RootContents(c), SrcContents(c))
  }

  /** The steps of `setupReactFrontend` for given file contents. */
  function ReactSteps(files: map<string, Content>, dirs: set<string>, projectPath: string,
                      rc: seq<Content>, sc: seq<Content>): Run
    requires |rc| == 3 && |sc| == 3
  {
    var r3 := Write3(Run(Pass, files, dirs + Ancestors(FrontendPath(projectPath))), RootPaths(projectPath), rc);
    if r3.outcome.Fail? then r3
    else Write3(Run(Pass, r3.files, r3.dirs + Ancestors(SrcPath(projectPath))), SrcPaths(projectPath), sc)
  }

  // ----------------------------------------------------------- JavaTemplate

  function TemplatesPath(projectPath: string): string
  {
    JoinPath(JoinPath(JoinPath(JoinPath(JoinPath(projectPath, "backend"), "src"), "main"), "resources"), "templates")
  }

  function BaseHtml(projectName: string): string
  {
    Join([
      "",
      "<!DOCTYPE html>",
      "<html xmlns:th=\"http://www.thymeleaf.org\">",
      "<head>",
      "    <meta charset=\"UTF-8\">",
      "    <title>" + projectName + "</title>",
      "    <link rel=\"stylesheet\" href=\"/css/style.css\">",
      "</head>",
      "<body>",
      "    <div class=\"container\">",
      "        <header>",
      "            <h1>Welcome to " + projectName + "</h1>",
      "        </header>",
      "        <main>",
      "            <div th:replace=\"${template} :: content\"></div>",
      "        </main>",
      "        <footer>",
      "            <p>&copy; 2024 " + projectName + "</p>",
      "        </footer>",
      "    </div>",
      "</body>",
      "</html>",
      ""], '\n')
  }

  const HomeHtml: string := Join([
    "",
    "<!DOCTYPE html>",
    "<html xmlns:th=\"http://www.thymeleaf.org\" th:replace=\"base :: layout(~{::content})\">",
    "<head>",
    "    <title>Home</title>",
    "</head>",
    "<body>",
    "    <div th:fragment=\"content\">",
    "        <h2>Home Page</h2>",
    "        <p>Welcome to your new application!</p>",
    "    </div>",
    "</body>",
    "</html>",
    ""], '\n')

  function BaseHtmlPath(projectPath: string): string
  {
    JoinPath(TemplatesPath(projectPath), "base.html")
  }

  function HomeHtmlPath(projectPath: string): string
  {
    JoinPath(TemplatesPath(projectPath), "home.html")
  }

  /** `setupJavaTemplateFrontend`: make the templates directory, then base.html and home.html. */
  function JavaTemplateRun(files: map<string, Content>, dirs: set<string>, projectPath: string, c: CliFrontendConfig): Run
  {
    PagesSteps(files, dirs, projectPath, Text(BaseHtml(c.projectName)), Text(HomeHtml))
  }

  function PagesSteps(files: map<string, Content>, dirs: set<string>, projectPath: string, base: Content, home: Content): Run
  {
    var r0 := Run(Pass, files, dirs + Ancestors(TemplatesPath(projectPath)));
    WriteAt(WriteAt(r0, BaseHtmlPath(projectPath), base), HomeHtmlPath(projectPath), home)
  }

  // ------------------------------------------------------------ setupFrontend

  /** The switch: React and JavaTemplate act; Vue.js, Angular and any other label change nothing. */
  function FrontendRun(files: map<string, Content>, dirs: set<string>, projectPath: string, c: CliFrontendConfig): Run
  {
    if c.framework == "React" then ReactRun(files, dirs, projectPath, c)
    else if c.framework == "JavaTemplate" then JavaTemplateRun(files, dirs, projectPath, c)
    else Run(Pass, files, dirs)
  }

  method SetupReactFrontend(disk: Disk, projectPath: string, c: CliFrontendConfig) returns (r: Outcome)
    modifies disk
    ensures Run(r, disk.files, disk.dirs) == ReactRun(old(disk.files), old(disk.dirs), projectPath, c)
  {
    disk.EnsureDir(FrontendPath(projectPath));
    r := WriteThree(disk, RootPaths(projectPath), RootContents(c));
    if r.Fail? {
      return;
    }
    disk.EnsureDir(SrcPath(projectPath));
    r := WriteThree(disk, SrcPaths(projectPath), SrcContents(c));
  }

  method SetupJavaTemplateFrontend(disk: Disk, projectPath: string, c: CliFrontendConfig) returns (r: Outcome)
    modifies disk
    ensures Run(r, disk.files, disk.dirs) == JavaTemplateRun(old(disk.files), old(disk.dirs), projectPath, c)
  {
    disk.EnsureDir(TemplatesPath(projectPath));
    r := disk.WriteFile(BaseHtmlPath(projectPath), Text(BaseHtml(c.projectName)));
    if r.Fail? {
      return;
    }
    r := disk.WriteFile(HomeHtmlPath(projectPath), Text(HomeHtml));
  }

  method SetupFrontend(disk: Disk, projectPath: string, c: CliFrontendConfig) returns (r: Outcome)
    modifies disk
    ensures Run(r, disk.files, disk.dirs) == FrontendRun(old(disk.files), old(disk.dirs), projectPath, c)
  {
    if c.framework == "React" {
      r := SetupReactFrontend(disk, projectPath, c);
    } else if c.framework == "JavaTemplate" {
      r := SetupJavaTemplateFrontend(disk, projectPath, c);
    } else {
      r := Pass;
    }
  }

  // ------------------------------------------------------------------ lemmas

  /** Vue.js, Angular, None and any other label leave the disk as it was and do not fail. */
  lemma OtherLabelsDoNothing(files: map<string, Content>, dirs: set<string>, projectPath: string, c: CliFrontendConfig)
    requires c.framework != "React" && c.framework != "JavaTemplate"
    ensures FrontendRun(files, dirs, projectPath, c) == Run(Pass, files, dirs)
  {
  }

  /** Three writes into existing directories all succeed. */
  lemma Write3Succeeds(r: Run, ps: seq<string>, cs: seq<Content>)
    requires |ps| == 3 && |cs| == 3 && r.outcome == Pass
    requires forall i :: 0 <= i < 3 ==> Parent(ps[i]) in r.dirs
    ensures Write3(r, ps, cs) == Run(Pass, r.files[ps[0] := cs[0]][ps[1] := cs[1]][ps[2] := cs[2]], r.dirs)
  {
  }

  function ReactPaths(projectPath: string): set<string>
  {
    set p | p in RootPaths(projectPath) + SrcPaths(projectPath)
  }

  lemma RootParents(projectPath: string)
    ensures forall i :: 0 <= i < 3 ==> Parent(RootPaths(projectPath)[i]) == FrontendPath(projectPath)
  {
    var f := FrontendPath(projectPath);
    ParentJoin(f, "package.json");
    ParentJoin(f, "tsconfig.json");
    ParentJoin(f, "vite.config.ts");
  }

  lemma SrcParents(projectPath: string)
    ensures forall i :: 0 <= i < 3 ==> Parent(SrcPaths(projectPath)[i]) == SrcPath(projectPath)
  {
    var s := SrcPath(projectPath);
    ParentJoin(s, "App.tsx");
    ParentJoin(s, "index.css");
    ParentJoin(s, "main.tsx");
  }

  /**
   * React always succeeds: it adds or replaces exactly its six files, with
   * App.tsx and package.json as built from the configuration, and leaves
   * every other file as it was.
   */
  lemma ReactWritesSix(files: map<string, Content>, dirs: set<string>, projectPath: string, c: CliFrontendConfig)
    ensures var r := ReactRun(files, dirs, projectPath, c);
      r.outcome == Pass &&
      r.files.Keys == files.Keys + ReactPaths(projectPath) &&
      r.files[SrcPaths(projectPath)[0]] == Text(AppTsx(c.projectName, c.authEnabled)) &&
      r.files[RootPaths(projectPath)[0]] == Json(JObj(PackageFields(c.projectName))) &&
      (forall p :: p in files && p !in ReactPaths(projectPath) ==> r.files[p] == files[p])
  {
    StepsWriteSix(files, dirs, projectPath, RootContents(c), SrcContents(c));
  }

  lemma StepsWriteSix(files: map<string, Content>, dirs: set<string>, projectPath: string,
                      rc: seq<Content>, sc: seq<Content>)
    requires |rc| == 3 && |sc| == 3
    ensures var r := ReactSteps(files, dirs, projectPath, rc, sc);
      r.outcome == Pass &&
      r.files.Keys == files.Keys + ReactPaths(projectPath) &&
      r.files[SrcPaths(projectPath)[0]] == sc[0] &&
      r.files[RootPaths(projectPath)[0]] == rc[0] &&
      (forall p :: p in files && p !in ReactPaths(projectPath) ==> r.files[p] == files[p])
  {
    var rp := RootPaths(projectPath);
    var sp := SrcPaths(projectPath);
    var r0 := Run(Pass, files, dirs + Ancestors(FrontendPath(projectPath)));
    RootParents(projectPath);
    assert FrontendPath(projectPath) in Ancestors(FrontendPath(projectPath));
    Write3Succeeds(r0, rp, rc);
    var r3 := Write3(r0, rp, rc);
    var r4 := Run(Pass, r3.files, r3.dirs + Ancestors(SrcPath(projectPath)));
    SrcParents(projectPath);
    assert SrcPath(projectPath) in Ancestors(SrcPath(projectPath));
    Write3Succeeds(r4, sp, sc);
    ReactPathsDistinct(projectPath);
  }

  /** The six React paths are all different, so no write overwrites another. */
  lemma ReactPathsDistinct(projectPath: string)
    ensures forall i, j :: 0 <= i < 3 && 0 <= j < 3 ==> RootPaths(projectPath)[i] != SrcPaths(projectPath)[j]
    ensures forall i, j :: 0 <= i < j < 3 ==> RootPaths(projectPath)[i] != RootPaths(projectPath)[j]
    ensures forall i, j :: 0 <= i < j < 3 ==> SrcPaths(projectPath)[i] != SrcPaths(projectPath)[j]
  {
    var n := |FrontendPath(projectPath)| + 1;
    var m := |SrcPath(projectPath)| + 1;
    var root := RootPaths(projectPath);
    var src := SrcPaths(projectPath);
    assert root[0][n] == 'p' && root[1][n] == 't' && root[2][n] == 'v';
    assert src[0][n] == 's' && src[1][n] == 's' && src[2][n] == 's';
    assert src[0][m] == 'A' && src[1][m] == 'i' && src[2][m] == 'm';
  }

  /** A part found in the second or the fourth of five pieces is found in the whole. */
  lemma InSecond(a: string, b: string, c: string, d: string, e: string, p: string)
    requires Includes(b, p)
    ensures Includes(a + b + c + d + e, p)
  {
    IncludesInfix(a, b, c + d + e, p);
    assert a + b + c + d + e == a + b + (c + d + e);
  }

  lemma InFourth(a: string, b: string, c: string, d: string, e: string, p: string)
    requires Includes(d, p)
    ensures Includes(a + b + c + d + e, p)
  {
    IncludesInfix(a + b + c, d, e, p);
  }

  lemma InAppRoutes(n: string, p: string)
    requires Includes(AuthRoutes, p)
    ensures Includes(AppTsx(n, true), p)
  {
    InSecond(AppHead, AuthRoutes, AppMiddle(n), AuthComponents, AppTail, p);
  }

  lemma InAppComponents(n: string, p: string)
    requires Includes(AuthComponents, p)
    ensures Includes(AppTsx(n, true), p)
  {
    InFourth(AppHead, AuthRoutes, AppMiddle(n), AuthComponents, AppTail, p);
  }

  /** With authentication, App.tsx has the /login and /register routes and the Login and Register components. */
  lemma AuthShown(n: string)
    ensures Includes(AppTsx(n, true), LoginRoute) && Includes(AppTsx(n, true), RegisterRoute)
    ensures Includes(AppTsx(n, true), LoginComponent) && Includes(AppTsx(n, true), RegisterComponent)
  {
    var sp := "\n          ";
    IncludesRefl(LoginRoute);
    InSecond(sp, LoginRoute, sp, RegisterRoute, sp, LoginRoute);
    InAppRoutes(n, LoginRoute);
    IncludesRefl(RegisterRoute);
    InFourth(sp, LoginRoute, sp, RegisterRoute, sp, RegisterRoute);
    InAppRoutes(n, RegisterRoute);
    var lb := "\n" + LoginBody + "\n\n";
    var rb := "\n" + RegisterBody + "\n";
    IncludesRefl(LoginComponent);
    InSecond("\n", LoginComponent, lb, RegisterComponent, rb, LoginComponent);
    InAppComponents(n, LoginComponent);
    IncludesRefl(RegisterComponent);
    InFourth("\n", LoginComponent, lb, RegisterComponent, rb, RegisterComponent);
    InAppComponents(n, RegisterComponent);
  }

  /**
   * Turning authentication off removes exactly the route block after the
   * Home route and the component block after the Home component: the rest
   * of App.tsx is the same text.
   */
  lemma AuthBlocksRemoved(n: string)
    ensures var off := AppTsx(n, false);
      var h := |AppHead|;
      var m := h + |AppMiddle(n)|;
      h <= m <= |off| &&
      AppTsx(n, true) == off[..h] + AuthRoutes + off[h..m] + AuthComponents + off[m..]
  {
    BlocksRemoved(AppHead, AuthRoutes, AppMiddle(n), AuthComponents, AppTail);
  }

  lemma BlocksRemoved(a: string, b: string, c: string, d: string, e: string)
    ensures var off := a + "" + c + "" + e;
      |a| <= |a| + |c| <= |off| &&
      a + b + c + d + e == off[..|a|] + b + off[|a|..|a| + |c|] + d + off[|a| + |c|..]
  {
    var off := a + "" + c + "" + e;
    assert off[..|a|] == a;
    assert off[|a|..|a| + |c|] == c;
    assert off[|a| + |c|..] == e;
  }

  /**
   * JavaTemplate always succeeds and writes base.html then home.html into
   * the backend's templates directory; nothing else changes.
   */
  lemma JavaTemplatePages(files: map<string, Content>, dirs: set<string>, projectPath: string, c: CliFrontendConfig)
    ensures JavaTemplateRun(files, dirs, projectPath, c)
         == Run(Pass, files[BaseHtmlPath(projectPath) := Text(BaseHtml(c.projectName))][HomeHtmlPath(projectPath) := Text(HomeHtml)],
                dirs + Ancestors(TemplatesPath(projectPath)))
  {
    PagesWritten(files, dirs, projectPath, Text(BaseHtml(c.projectName)), Text(HomeHtml));
  }

  lemma PagesWritten(files: map<string, Content>, dirs: set<string>, projectPath: string, base: Content, home: Content)
    ensures PagesSteps(files, dirs, projectPath, base, home)
         == Run(Pass, files[BaseHtmlPath(projectPath) := base][HomeHtmlPath(projectPath) := home],
                dirs + Ancestors(TemplatesPath(projectPath)))
  {
    var t := TemplatesPath(projectPath);
    ParentJoin(t, "base.html");
    ParentJoin(t, "home.html");
    assert t in Ancestors(t);
  }

  /** `p` lies strictly below the directory `b`. */
  predicate Below(p: string, b: string)
  {
    |p| > |b| && p[..|b|] == b && p[|b|] == '/'
  }

  lemma BelowJoin(p: string, b: string, x: string)
    requires p == b || Below(p, b)
    ensures Below(JoinPath(p, x), b)
  {
    var q := JoinPath(p, x);
    assert q[..|p|] == p;
    assert q[..|b|] == p[..|b|];
  }

  /** A path below `<project>/backend` has `<project>/backend` as an ancestor and not `<project>/frontend`. */
  lemma UnderBackend(projectPath: string, p: string)
    requires Below(p, JoinPath(projectPath, "backend"))
    ensures JoinPath(projectPath, "backend") in Ancestors(p)
    ensures FrontendPath(projectPath) !in Ancestors(p)
  {
    var b := JoinPath(projectPath, "backend");
    var f := FrontendPath(projectPath);
    var k := |projectPath| + 1;
    assert p[..|b|] == b;
    assert p[k] == b[k] == 'b';
    assert f[k] == 'f';
    if f in Ancestors(p) {
      AncestorsShorter(p, f);
      assert false;
    }
  }

  /** Both pages sit under `<project>/backend`, and neither under `<project>/frontend`. */
  lemma PagesInBackend(projectPath: string)
    ensures JoinPath(projectPath, "backend") in Ancestors(BaseHtmlPath(projectPath))
    ensures JoinPath(projectPath, "backend") in Ancestors(HomeHtmlPath(projectPath))
    ensures FrontendPath(projectPath) !in Ancestors(BaseHtmlPath(projectPath))
    ensures FrontendPath(projectPath) !in Ancestors(HomeHtmlPath(projectPath))
  {
    var b := JoinPath(projectPath, "backend");
    BelowJoin(b, b, "src");
    BelowJoin(JoinPath(b, "src"), b, "main");
    BelowJoin(JoinPath(JoinPath(b, "src"), "main"), b, "resources");
    BelowJoin(JoinPath(JoinPath(JoinPath(b, "src"), "main"), "resources"), b, "templates");
    BelowJoin(TemplatesPath(projectPath), b, "base.html");
    BelowJoin(TemplatesPath(projectPath), b, "home.html");
    UnderBackend(projectPath, BaseHtmlPath(projectPath));
    UnderBackend(projectPath, HomeHtmlPath(projectPath));
  }

  /** The React package is named `<projectName>-frontend` with the name as given, version 0.1.0, private. */
  lemma PackageNamed(n: string)
    ensures Get(PackageFields(n), "name") == Some(JStr(n + "-frontend"))
    ensures Get(PackageFields(n), "version") == Some(JStr("0.1.0"))
    ensures Get(PackageFields(n), "private") == Some(JBool(true))
  {
    var fs := PackageFields(n);
    assert |"name"| != |"version"| && |"name"| != |"private"|;
    assert "version"[0] != "private"[0];
    assert fs[1..][1..] == fs[2..];
    assert Get(fs[2..], "private") == Some(JBool(true));
    assert Get(fs[1..], "private") == Some(JBool(true));
  }
}
