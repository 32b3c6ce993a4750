/**
 * src/utils/templates.ts: `generateTemplate` makes `<cwd>/<name>/<type>`,
 * then, for a backend, copies the backend templates and fills pom.xml and
 * application.yml; for a frontend other than None, copies the framework's
 * templates, fills package.json and, for React, Vue.js and Angular, one
 * configuration file. Placeholders are filled with string-pattern
 * `replace`, so only the first occurrence of each changes.
 */
module TemplateGen {
  import opened Wrappers
  import opened JsString
  import opened Files

  /**
   * The options this file reads, assuming a string `projectName`; the
   * `ProjectOptions` the file declares has none (see README, Left out).
   */
  datatype TemplateOptions = TemplateOptions(projectName: string, database: string, frontend: string)

  /**
   * The package's own templates directory (`<__dirname>/../../templates`):
   * its path, the files under `backend/` and, per directory name, the files
   * under `frontend/<name>/`, each by relative path.
   */
  datatype Templates = Templates(root: string, backend: map<string, string>, frontend: map<string, map<string, string>>)

  const ProjectNameSlot: string := "{{projectName}}"
  const DatabaseSlot: string := "{{database}}"
  const VersionSlot: string := "{{version}}"
  const ApiUrlSlot: string := "{{apiUrl}}"
  const ApiUrl: string := "http://localhost:8080"

  function TargetPath(cwd: string, o: TemplateOptions, kind: string): string
  {
    JoinPath(JoinPath(cwd, o.projectName), kind)
  }

  function UnknownType(kind: string): string
  {
    "Type de template inconnu: " + kind
  }

  function BackendSource(t: Templates): string
  {
    JoinPath(t.root, "backend")
  }

  function FrontendSource(t: Templates, dir: string): string
  {
    JoinPath(JoinPath(t.root, "frontend"), dir)
  }

  /** `fs.readFile` of a template file: its text, or ENOENT naming the full path. */
  function TemplateText(tree: map<string, string>, source: string, rel: string): (r: Result<string>)
    ensures r.Ok? <==> rel in tree
  {
    if rel in tree then Ok(tree[rel]) else Err(EnoentOpen(JoinPath(source, rel)))
  }

  // ----------------------------------------------------------- placeholders

  function FillPom(template: string, o: TemplateOptions): string
  {
    ReplaceFirst(ReplaceFirst(template, ProjectNameSlot, o.projectName), DatabaseSlot, o.database)
  }

  /** application.yml fills the database first, then the project name. */
  function FillAppConfig(template: string, o: TemplateOptions): string
  {
    ReplaceFirst(ReplaceFirst(template, DatabaseSlot, o.database), ProjectNameSlot, o.projectName)
  }

  function FillPackage(template: string, o: TemplateOptions): string
  {
    ReplaceFirst(ReplaceFirst(template, ProjectNameSlot, o.projectName), VersionSlot, "1.0.0")
  }

  function FillFrameworkConfig(template: string, o: TemplateOptions): string
  {
    ReplaceFirst(ReplaceFirst(template, ProjectNameSlot, o.projectName), ApiUrlSlot, ApiUrl)
  }

  /** Every placeholder starts with a brace, so none starts inside brace-free text. */
  lemma NoSlotBefore(a: string, rest: string, slot: string)
    requires '{' !in a && |slot| > 0 && slot[0] == '{'
    ensures forall k :: 0 <= k < |a| ==> !MatchAt(a + rest, slot, k)
  {
    forall k | 0 <= k < |a|
      ensures !MatchAt(a + rest, slot, k)
    {
      assert (a + rest)[k] == a[k] != '{';
    }
  }

  /**
   * Only the first `{{projectName}}` of a pom template is filled: a second
   * one is still there afterwards.
   */
  lemma PomSecondSlotKept(a: string, b: string, c: string, o: TemplateOptions)
    requires '{' !in a
    requires !Includes(a + o.projectName + b + ProjectNameSlot + c, DatabaseSlot)
    ensures FillPom(a + ProjectNameSlot + b + ProjectNameSlot + c, o) == a + o.projectName + b + ProjectNameSlot + c
  {
    var rest := b + ProjectNameSlot + c;
    assert a + ProjectNameSlot + b + ProjectNameSlot + c == a + ProjectNameSlot + rest;
    NoSlotBefore(a, ProjectNameSlot + rest, ProjectNameSlot);
    assert a + ProjectNameSlot + rest == a + (ProjectNameSlot + rest);
    ReplaceFirstSplit(a, ProjectNameSlot, rest, o.projectName);
    assert a + o.projectName + rest == a + o.projectName + b + ProjectNameSlot + c;
    ReplaceFirstAbsent(a + o.projectName + b + ProjectNameSlot + c, DatabaseSlot, o.database);
  }

  /**
   * A framework configuration whose template has `{{apiUrl}}` after its
   * first `{{projectName}}` ends up naming http://localhost:8080.
   */
  lemma ConfigGetsApiUrl(a: string, b: string, o: TemplateOptions)
    requires '{' !in a
    requires Includes(b, ApiUrlSlot)
    ensures Includes(FillFrameworkConfig(a + ProjectNameSlot + b, o), ApiUrl)
  {
    NoSlotBefore(a, ProjectNameSlot + b, ProjectNameSlot);
    assert a + ProjectNameSlot + b == a + (ProjectNameSlot + b);
    ReplaceFirstSplit(a, ProjectNameSlot, b, o.projectName);
    IncludesInfix(a + o.projectName, b, "", ApiUrlSlot);
    assert a + o.projectName + b + "" == a + o.projectName + b;
    ReplaceFirstIncludes(a + o.projectName + b, ApiUrlSlot, ApiUrl);
  }

  // ---------------------------------------------------------- frameworks

  /** Where a framework's configuration template lies and where its filled copy goes. */
  datatype ConfigFile = ConfigFile(dir: string, template: string, target: string)

  /** The `switch (options.frontend)` of `generateFrontend`. */
  function FrameworkConfig(framework: string): (cfg: Option<ConfigFile>)
    ensures cfg.Some? <==> framework in {"React", "Vue.js", "Angular"}
  {
    match framework
    case "React" => Some(ConfigFile("react", "config/config.js.template", "src/config/config.js"))
    case "Vue.js" => Some(ConfigFile("vue", "vue.config.js.template", "vue.config.js"))
    case "Angular" => Some(ConfigFile("angular", "environment.ts.template", "src/environments/environment.ts"))
    case _ => None
  }

  /**
   * The templates are copied from the lower-cased framework name; for
   * React and Angular that is also where the configuration template is
   * read, but Vue.js copies from `vue.js` and reads its configuration from `vue`.
   */
  lemma TemplateDirectories()
    ensures Lower("React") == FrameworkConfig("React").value.dir
    ensures Lower("Angular") == FrameworkConfig("Angular").value.dir
    ensures Lower("Vue.js") == "vue.js" != FrameworkConfig("Vue.js").value.dir
  {
    LowerReact();
    LowerAngular();
    LowerVue();
  }

  lemma LowerReact()
    ensures Lower("React") == "react"
  {
    var r := Lower("React");
    assert r[0] == 'r' && r[1] == 'e' && r[2] == 'a' && r[3] == 'c' && r[4] == 't';
  }

  lemma LowerAngular()
    ensures Lower("Angular") == "angular"
  {
    var r := Lower("Angular");
    assert r[0] == 'a' && r[1] == 'n' && r[2] == 'g' && r[3] == 'u' && r[4] == 'l' && r[5] == 'a' && r[6] == 'r';
  }

  lemma LowerVue()
    ensures Lower("Vue.js") == "vue.js"
  {
    var r := Lower("Vue.js");
    assert r[0] == 'v' && r[1] == 'u' && r[2] == 'e' && r[3] == '.' && r[4] == 'j' && r[5] == 's';
  }

  // ------------------------------------------------------------- backend

  const PomTemplate: string := "pom.xml.template"
  const ResourcesDir: string := "src/main/resources"
  /** The application.yml template and its filled copy, both in the resources directory. */
  const AppConfigTemplate: string := ResourcesDir + "/" + "application.yml.template"
  const AppConfigTarget: string := ResourcesDir + "/" + "application.yml"

  /** `generateBackend`: copy the backend templates, then the two filled files. */
  function BackendRun(r: Run, t: Templates, target: string, o: TemplateOptions): Run
  {
    var copied := Run(Pass, r.files + CopiedFiles(t.backend, target), r.dirs + CopiedDirs(t.backend, target));
    match TemplateText(t.backend, BackendSource(t), PomTemplate)
    case Err(m) => Run(Fail(m), copied.files, copied.dirs)
    case Ok(pom) =>
      var r1 := WriteAt(copied, JoinPath(target, "pom.xml"), Text(FillPom(pom, o)));
      if r1.outcome.Fail? then r1
      else match TemplateText(t.backend, BackendSource(t), AppConfigTemplate)
        case Err(m) => Run(Fail(m), r1.files, r1.dirs)
        case Ok(yml) =>
          WriteAt(r1, JoinPath(target, AppConfigTarget), Text(FillAppConfig(yml, o)))
  }

  // ------------------------------------------------------------ frontend

  /** `generate{React,Vue,Angular}Config`: read the template, fill it, write it. */
  function ConfigRun(r: Run, t: Templates, target: string, o: TemplateOptions): Run
  {
    match FrameworkConfig(o.frontend)
    case None => r
    case Some(cfg) =>
      var source := FrontendSource(t, cfg.dir);
      var tree := if cfg.dir in t.frontend then t.frontend[cfg.dir] else map[];
      match TemplateText(tree, source, cfg.template)
      case Err(m) => Run(Fail(m), r.files, r.dirs)
      case Ok(text) => WriteAt(r, JoinPath(target, cfg.target), Text(FillFrameworkConfig(text, o)))
  }

  /** `generateFrontend`: nothing for None; otherwise copy, fill package.json, then the configuration. */
  function FrontendRun(r: Run, t: Templates, target: string, o: TemplateOptions): Run
  {
    if o.frontend == "None" then r
    else
      var dir := Lower(o.frontend);
      var source := FrontendSource(t, dir);
      if dir !in t.frontend then Run(Fail(EnoentLstat(source)), r.files, r.dirs)
      else
        var tree := t.frontend[dir];
        var copied := Run(Pass, r.files + CopiedFiles(tree, target), r.dirs + CopiedDirs(tree, target));
        match TemplateText(tree, source, "package.json.template")
        case Err(m) => Run(Fail(m), copied.files, copied.dirs)
        case Ok(pkg) =>
          var r1 := WriteAt(copied, JoinPath(target, "package.json"), Text(FillPackage(pkg, o)));
          if r1.outcome.Fail? then r1 else ConfigRun(r1, t, target, o)
  }

  // ------------------------------------------------------- generateTemplate

  function TemplateRun(files: map<string, Content>, dirs: set<string>, t: Templates, cwd: string,
                       o: TemplateOptions, kind: string): Run
  {
    var target := TargetPath(cwd, o, kind);
    var r := Run(Pass, files, dirs + Ancestors(target));
    if kind == "backend" then BackendRun(r, t, target, o)
    else if kind == "frontend" then FrontendRun(r, t, target, o)
    else Run(Fail(UnknownType(kind)), files, r.dirs)
  }

  method GenerateBackend(disk: Disk, t: Templates, target: string, o: TemplateOptions) returns (r: Outcome)
    modifies disk
    ensures Run(r, disk.files, disk.dirs) == BackendRun(Run(Pass, old(disk.files), old(disk.dirs)), t, target, o)
  {
    disk.CopyTree(t.backend, target);
    var pom := TemplateText(t.backend, BackendSource(t), PomTemplate);
    if pom.Err? {
      return Fail(pom.msg);
    }
    r := disk.WriteFile(JoinPath(target, "pom.xml"), Text(FillPom(pom.value, o)));
    if r.Fail? {
      return;
    }
    var yml := TemplateText(t.backend, BackendSource(t), AppConfigTemplate);
    if yml.Err? {
      return Fail(yml.msg);
    }
    r := disk.WriteFile(JoinPath(target, AppConfigTarget), Text(FillAppConfig(yml.value, o)));
  }

  method GenerateConfig(disk: Disk, t: Templates, target: string, o: TemplateOptions) returns (r: Outcome)
    modifies disk
    ensures Run(r, disk.files, disk.dirs) == ConfigRun(Run(Pass, old(disk.files), old(disk.dirs)), t, target, o)
  {
    var cfg := FrameworkConfig(o.frontend);
    if cfg.None? {
      return Pass;
    }
    var source := FrontendSource(t, cfg.value.dir);
    var tree := if cfg.value.dir in t.frontend then t.frontend[cfg.value.dir] else map[];
    var text := TemplateText(tree, source, cfg.value.template);
    if text.Err? {
      return Fail(text.msg);
    }
    r := disk.WriteFile(JoinPath(target, cfg.value.target), Text(FillFrameworkConfig(text.value, o)));
  }

  method GenerateFrontend(disk: Disk, t: Templates, target: string, o: TemplateOptions) returns (r: Outcome)
    modifies disk
    ensures Run(r, disk.files, disk.dirs) == FrontendRun(Run(Pass, old(disk.files), old(disk.dirs)), t, target, o)
  {
    if o.frontend == "None" {
      return Pass;
    }
    var dir := Lower(o.frontend);
    if dir !in t.frontend {
      return Fail(EnoentLstat(FrontendSource(t, dir)));
    }
    var tree := t.frontend[dir];
    disk.CopyTree(tree, target);
    var pkg := TemplateText(tree, FrontendSource(t, dir), "package.json.template");
    if pkg.Err? {
      return Fail(pkg.msg);
    }
    r := disk.WriteFile(JoinPath(target, "package.json"), Text(FillPackage(pkg.value, o)));
    if r.Fail? {
      return;
    }
    r := GenerateConfig(disk, t, target, o);
  }

  method GenerateTemplate(disk: Disk, t: Templates, cwd: string, o: TemplateOptions, kind: string) returns (r: Outcome)
    modifies disk
    ensures Run(r, disk.files, disk.dirs) == TemplateRun(old(disk.files), old(disk.dirs), t, cwd, o, kind)
  {
    var target := TargetPath(cwd, o, kind);
    disk.EnsureDir(target);
    if kind == "backend" {
      r := GenerateBackend(disk, t, target, o);
    } else if kind == "frontend" {
      r := GenerateFrontend(disk, t, target, o);
    } else {
      r := Fail(UnknownType(kind));
    }
  }

  // ------------------------------------------------------------- lemmas

  /** Any type but backend and frontend fails after making the target directory and writes nothing. */
  lemma UnknownTypeFails(files: map<string, Content>, dirs: set<string>, t: Templates, cwd: string,
                         o: TemplateOptions, kind: string)
    requires kind != "backend" && kind != "frontend"
    ensures TemplateRun(files, dirs, t, cwd, o, kind)
         == Run(Fail("Type de template inconnu: " + kind), files, dirs + Ancestors(TargetPath(cwd, o, kind)))
  {
  }

  /** A None frontend only makes the target directory. */
  lemma NoneFrontendWritesNothing(files: map<string, Content>, dirs: set<string>, t: Templates, cwd: string,
                                  o: TemplateOptions)
    requires o.frontend == "None"
    ensures TemplateRun(files, dirs, t, cwd, o, "frontend")
         == Run(Pass, files, dirs + Ancestors(TargetPath(cwd, o, "frontend")))
  {
  }

  /** The target is `<cwd>/<projectName>/<type>`. */
  lemma TargetParts(cwd: string, o: TemplateOptions, kind: string)
    requires '/' !in kind && '/' !in o.projectName
    ensures Basename(TargetPath(cwd, o, kind)) == kind
    ensures Parent(TargetPath(cwd, o, kind)) == JoinPath(cwd, o.projectName)
    ensures Basename(Parent(TargetPath(cwd, o, kind))) == o.projectName
    ensures Parent(Parent(TargetPath(cwd, o, kind))) == cwd
  {
    ParentJoin(JoinPath(cwd, o.projectName), kind);
    ParentJoin(cwd, o.projectName);
  }

  /**
   * With both templates in the backend tree, a backend run succeeds and
   * pom.xml and application.yml hold the filled templates.
   */
  lemma BackendWritesFilled(r: Run, t: Templates, target: string, o: TemplateOptions)
    requires r.outcome == Pass && |target| > 0
    requires PomTemplate in t.backend && AppConfigTemplate in t.backend
    ensures var r1 := BackendRun(r, t, target, o);
      r1.outcome == Pass &&
      r1.files[JoinPath(target, "pom.xml")] == Text(FillPom(t.backend[PomTemplate], o)) &&
      r1.files[JoinPath(target, AppConfigTarget)] == Text(FillAppConfig(t.backend[AppConfigTemplate], o))
  {
    BackendParents(t, target);
  }

  /** Both filled files land in directories the copy made, and at different paths. */
  lemma BackendParents(t: Templates, target: string)
    requires |target| > 0 && PomTemplate in t.backend && AppConfigTemplate in t.backend
    ensures Parent(JoinPath(target, "pom.xml")) in CopiedDirs(t.backend, target)
    ensures Parent(JoinPath(target, AppConfigTarget)) in CopiedDirs(t.backend, target)
    ensures JoinPath(target, "pom.xml") != JoinPath(target, AppConfigTarget)
  {
    assert Parent(JoinPath(target, "pom.xml")) in Ancestors(target) by {
      ParentJoin(target, "pom.xml");
    }
    YmlParent(t, target);
    var pomPath := JoinPath(target, "pom.xml");
    var ymlPath := JoinPath(target, AppConfigTarget);
    assert pomPath[|target| + 1] != ymlPath[|target| + 1];
  }

  lemma YmlParent(t: Templates, target: string)
    requires AppConfigTemplate in t.backend
    ensures Parent(JoinPath(target, AppConfigTarget)) in CopiedDirs(t.backend, target)
  {
    CopiedParent(t.backend, target, ResourcesDir, "application.yml.template");
    JoinNested(target, ResourcesDir, "application.yml");
    ParentJoin(JoinPath(target, ResourcesDir), "application.yml");
  }

  lemma JoinNested(a: string, dir: string, name: string)
    ensures JoinPath(a, dir + "/" + name) == JoinPath(JoinPath(a, dir), name)
  {
  }

  /** Copying a file `<dir>/<name>` makes `<dest>/<dir>`. */
  lemma CopiedParent(tree: map<string, string>, dest: string, dir: string, name: string)
    requires dir + "/" + name in tree && '/' !in name
    ensures JoinPath(dest, dir) in CopiedDirs(tree, dest)
  {
    var rel := dir + "/" + name;
    assert JoinPath(dest, rel) == JoinPath(JoinPath(dest, dir), name);
    ParentJoin(JoinPath(dest, dir), name);
    assert JoinPath(dest, dir) in Ancestors(Parent(JoinPath(dest, rel)));
  }

  /** The configuration step writes at most its own target file. */
  lemma ConfigRunFrame(r: Run, t: Templates, target: string, o: TemplateOptions, p: string)
    requires p in r.files
    requires FrameworkConfig(o.frontend).Some? ==> p != JoinPath(target, FrameworkConfig(o.frontend).value.target)
    ensures p in ConfigRun(r, t, target, o).files
    ensures ConfigRun(r, t, target, o).files[p] == r.files[p]
  {
  }

  /** No configuration target is package.json. */
  lemma ConfigTargetNotPackage(target: string, framework: string)
    requires FrameworkConfig(framework).Some?
    ensures JoinPath(target, "package.json") != JoinPath(target, FrameworkConfig(framework).value.target)
  {
    var q := JoinPath(target, FrameworkConfig(framework).value.target);
    assert q[|target| + 1] != 'p';
  }

  /**
   * Once the framework's templates are copied, package.json holds the
   * filled template whatever the configuration step does afterwards.
   */
  lemma FrontendWritesPackage(r: Run, t: Templates, target: string, o: TemplateOptions)
    requires r.outcome == Pass && o.frontend != "None"
    requires Lower(o.frontend) in t.frontend && "package.json.template" in t.frontend[Lower(o.frontend)]
    requires target in r.dirs
    ensures var r1 := FrontendRun(r, t, target, o);
      JoinPath(target, "package.json") in r1.files &&
      r1.files[JoinPath(target, "package.json")] == Text(FillPackage(t.frontend[Lower(o.frontend)]["package.json.template"], o))
  {
    var p := JoinPath(target, "package.json");
    ParentJoin(target, "package.json");
    if FrameworkConfig(o.frontend).Some? {
      ConfigTargetNotPackage(target, o.frontend);
    }
    var tree := t.frontend[Lower(o.frontend)];
    var copied := Run(Pass, r.files + CopiedFiles(tree, target), r.dirs + CopiedDirs(tree, target));
    var r1 := WriteAt(copied, p, Text(FillPackage(tree["package.json.template"], o)));
    ConfigRunFrame(r1, t, target, o, p);
  }

  /**
   * Vue.js copies its templates from `vue.js` but reads vue.config.js.template
   * from `vue`: without a `vue` directory the run fails on that read, after
   * package.json is written.
   */
  lemma VueConfigNeedsVueDir(r: Run, t: Templates, target: string, o: TemplateOptions)
    requires r.outcome == Pass && o.frontend == "Vue.js" && target in r.dirs
    requires "vue.js" in t.frontend && "package.json.template" in t.frontend["vue.js"]
    requires "vue" !in t.frontend
    ensures FrontendRun(r, t, target, o).outcome
         == Fail(EnoentOpen(JoinPath(FrontendSource(t, "vue"), "vue.config.js.template")))
  {
    LowerVue();
    var r1 := FrontendReachesConfig(r, t, target, o);
    VueConfigMissing(r1, t, target, o);
  }

  /**
   * With its templates present, the frontend run writes package.json and
   * then goes on to the configuration step.
   */
  lemma FrontendReachesConfig(r: Run, t: Templates, target: string, o: TemplateOptions) returns (r1: Run)
    requires r.outcome == Pass && o.frontend != "None" && target in r.dirs
    requires Lower(o.frontend) in t.frontend && "package.json.template" in t.frontend[Lower(o.frontend)]
    ensures r1.outcome == Pass && FrontendRun(r, t, target, o) == ConfigRun(r1, t, target, o)
  {
    ParentJoin(target, "package.json");
    var tree := t.frontend[Lower(o.frontend)];
    var copied := Run(Pass, r.files + CopiedFiles(tree, target), r.dirs + CopiedDirs(tree, target));
    r1 := WriteAt(copied, JoinPath(target, "package.json"), Text(FillPackage(tree["package.json.template"], o)));
  }

  /** The Vue configuration step fails on its read when no `vue` directory is shipped. */
  lemma VueConfigMissing(r: Run, t: Templates, target: string, o: TemplateOptions)
    requires o.frontend == "Vue.js" && "vue" !in t.frontend
    ensures ConfigRun(r, t, target, o) == Run(Fail(EnoentOpen(JoinPath(FrontendSource(t, "vue"), "vue.config.js.template"))), r.files, r.dirs)
  {
    assert FrameworkConfig(o.frontend) == Some(ConfigFile("vue", "vue.config.js.template", "vue.config.js"));
  }

  // -------------------------------------------------- the file as written

  /**
   * The file reads `__dirname` but never defines it, and the package runs
   * as an ES module, where Node provides no such binding: each read throws
   * a ReferenceError with this message, which rejects the returned promise.
   * The functions above take the templates directory as given; the ones
   * below follow the file as written.
   */
  const DirnameUndefined: string := "__dirname is not defined"

  /** `generateBackend` as written: its first statement, the copy, reads `__dirname`. */
  function BackendRunAsWritten(r: Run): Run
  {
    Run(Fail(DirnameUndefined), r.files, r.dirs)
  }

  /** `generate{React,Vue,Angular}Config` as written: each reads `__dirname` before anything else. */
  function ConfigRunAsWritten(r: Run, o: TemplateOptions): Run
  {
    if FrameworkConfig(o.frontend).Some? then Run(Fail(DirnameUndefined), r.files, r.dirs) else r
  }

  /** `generateFrontend` as written: past the None test, the template path reads `__dirname`. */
  function FrontendRunAsWritten(r: Run, o: TemplateOptions): Run
  {
    if o.frontend == "None" then r else Run(Fail(DirnameUndefined), r.files, r.dirs)
  }

  function TemplateRunAsWritten(files: map<string, Content>, dirs: set<string>, cwd: string,
                                o: TemplateOptions, kind: string): Run
  {
    var target := TargetPath(cwd, o, kind);
    var r := Run(Pass, files, dirs + Ancestors(target));
    if kind == "backend" then BackendRunAsWritten(r)
    else if kind == "frontend" then FrontendRunAsWritten(r, o)
    else Run(Fail(UnknownType(kind)), files, r.dirs)
  }

  method GenerateTemplateAsWritten(disk: Disk, cwd: string, o: TemplateOptions, kind: string) returns (r: Outcome)
    modifies disk
    ensures Run(r, disk.files, disk.dirs) == TemplateRunAsWritten(old(disk.files), old(disk.dirs), cwd, o, kind)
  {
    var target := TargetPath(cwd, o, kind);
    disk.EnsureDir(target);
    if kind == "backend" {
      r := Fail(DirnameUndefined);
    } else if kind == "frontend" && o.frontend != "None" {
      r := Fail(DirnameUndefined);
    } else if kind == "frontend" {
      r := Pass;
    } else {
      r := Fail(UnknownType(kind));
    }
  }

  /**
   * As written, `generateTemplate` never writes a file: it makes the target
   * directory and succeeds exactly for a None frontend.
   */
  lemma AsWrittenWritesNothing(files: map<string, Content>, dirs: set<string>, cwd: string,
                               o: TemplateOptions, kind: string)
    ensures TemplateRunAsWritten(files, dirs, cwd, o, kind).files == files
    ensures TemplateRunAsWritten(files, dirs, cwd, o, kind).dirs == dirs + Ancestors(TargetPath(cwd, o, kind))
    ensures TemplateRunAsWritten(files, dirs, cwd, o, kind).outcome.Pass? <==> kind == "frontend" && o.frontend == "None"
  {
  }

  /** Each configuration generator, as written, rejects for its own label and is not called for others. */
  lemma ConfigAsWrittenFails(r: Run, o: TemplateOptions)
    ensures ConfigRunAsWritten(r, o).files == r.files
    ensures ConfigRunAsWritten(r, o).outcome == Fail(DirnameUndefined) <==>
      o.frontend in {"React", "Vue.js", "Angular"} || r.outcome == Fail(DirnameUndefined)
  {
  }

  /** Where `__dirname` is never read, the file as written and the model agree. */
  lemma AsWrittenAgrees(files: map<string, Content>, dirs: set<string>, t: Templates, cwd: string,
                        o: TemplateOptions, kind: string)
    requires kind != "backend" && (kind == "frontend" ==> o.frontend == "None")
    ensures TemplateRunAsWritten(files, dirs, cwd, o, kind) == TemplateRun(files, dirs, t, cwd, o, kind)
  {
  }

  /**
   * With the backend templates shipped, the model's backend run succeeds
   * while the file as written rejects, having written nothing.
   */
  lemma AsWrittenBackendDiffers(files: map<string, Content>, dirs: set<string>, t: Templates, cwd: string,
                                o: TemplateOptions)
    requires PomTemplate in t.backend && AppConfigTemplate in t.backend
    ensures TemplateRun(files, dirs, t, cwd, o, "backend").outcome == Pass
    ensures TemplateRunAsWritten(files, dirs, cwd, o, "backend").outcome == Fail(DirnameUndefined)
    ensures TemplateRunAsWritten(files, dirs, cwd, o, "backend").files == files
  {
    var target := TargetPath(cwd, o, "backend");
    BackendWritesFilled(Run(Pass, files, dirs + Ancestors(target)), t, target, o);
  }

  /**
   * With a framework's templates shipped, the model writes package.json
   * while the file as written rejects before any copy.
   */
  lemma AsWrittenFrontendDiffers(files: map<string, Content>, dirs: set<string>, t: Templates, cwd: string,
                                 o: TemplateOptions)
    requires o.frontend != "None"
    requires Lower(o.frontend) in t.frontend && "package.json.template" in t.frontend[Lower(o.frontend)]
    ensures JoinPath(TargetPath(cwd, o, "frontend"), "package.json") in TemplateRun(files, dirs, t, cwd, o, "frontend").files
    ensures TemplateRunAsWritten(files, dirs, cwd, o, "frontend") ==
      Run(Fail(DirnameUndefined), files, dirs + Ancestors(TargetPath(cwd, o, "frontend")))
  {
    var target := TargetPath(cwd, o, "frontend");
    FrontendWritesPackage(Run(Pass, files, dirs + Ancestors(target)), t, target, o);
  }
}
