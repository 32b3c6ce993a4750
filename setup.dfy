/**
 * src/utils/setup.ts: `setupDatabase` writes application.properties and,
 * when pom.xml exists and does not already hold it, adds the database
 * driver; `setupFrontend` writes a Vite package.json whose dependencies
 * depend on the framework label.
 */
module Setup {
  import opened Wrappers
  import opened JsString
  import opened JsonValue
  import opened Files
  import opened PomEdit
  import opened MavenDeps

  datatype DatabaseConfig = DatabaseConfig(
    dbType: Option<string>,
    host: string,
    port: string,
    username: string,
    password: string)

  datatype SetupConfig = SetupConfig(projectPath: string, database: DatabaseConfig, framework: string)

  function BackendPath(projectPath: string): string
  {
    JoinPath(projectPath, "backend")
  }

  function ResourcesPath(projectPath: string): string
  {
    JoinPath(BackendPath(projectPath), "src/main/resources")
  }

  function PropsPath(projectPath: string): string
  {
    JoinPath(ResourcesPath(projectPath), "application.properties")
  }

  function PomPath(projectPath: string): string
  {
    JoinPath(BackendPath(projectPath), "pom.xml")
  }

  // -------------------------------------------------------- properties file

  /** `${config.database.type?.toLowerCase()}`: a missing type prints as "undefined". */
  function Scheme(dbType: Option<string>): string
  {
    match dbType
    case Some(t) => Lower(t)
    case None => "undefined"
  }

  function DatasourceUrl(d: DatabaseConfig): string
  {
    "jdbc:" + Scheme(d.dbType) + "://" + d.host + ":" + d.port + "/app"
  }

  /** The lines of application.properties; the text opens and ends with a newline. */
  function PropsLines(d: DatabaseConfig): seq<string>
  {
    [ "",
      "spring.datasource.url=" + DatasourceUrl(d),
      "spring.datasource.username=" + d.username,
      "spring.datasource.password=" + d.password ] + FixedPropsLines
  }

  const FixedPropsLines: seq<string> := [
    "spring.jpa.hibernate.ddl-auto=update",
    "spring.jpa.show-sql=true",
    "spring.jpa.properties.hibernate.format_sql=true",
    ""
  ]

  function Props(d: DatabaseConfig): string
  {
    Join(PropsLines(d), '\n')
  }

  /**
   * The URL scheme is the lower-cased type, so it never holds an upper-case
   * letter and PostgreSQL gives `jdbc:postgresql://…`.
   */
  lemma SchemeLowercase(dbType: Option<string>)
    ensures Lower(Scheme(dbType)) == Scheme(dbType)
    ensures dbType == Some("PostgreSQL") ==> Scheme(dbType) == "postgresql"
  {
    match dbType
    case Some(t) =>
      LowerIdempotent(t);
      if t == "PostgreSQL" {
        LowerPostgres();
      }
    case None =>
      LowerUndefined();
  }

  /** The label `PostgreSQL` lower-cases to the `postgresql` the switch compares with. */
  lemma LowerPostgres()
    ensures Lower("PostgreSQL") == "postgresql"
  {
  }

  lemma LowerUndefined()
    ensures Lower("undefined") == "undefined"
  {
    var r := Lower("undefined");
    assert r[0] == 'u' && r[1] == 'n' && r[2] == 'd' && r[3] == 'e' && r[4] == 'f';
    assert r[5] == 'i' && r[6] == 'n' && r[7] == 'e' && r[8] == 'd';
  }

  /** No line of the fixed tail holds a newline. */
  lemma FixedPropsLinesFlat()
    ensures forall i :: 0 <= i < |FixedPropsLines| ==> '\n' !in FixedPropsLines[i]
  {
  }

  /**
   * Reading the file back line by line gives the lines that were written,
   * the URL on the second, as long as no configured value holds a newline.
   */
  lemma PropsReadBack(d: DatabaseConfig)
    requires d.dbType.Some? ==> '\n' !in d.dbType.value
    requires '\n' !in d.host && '\n' !in d.port && '\n' !in d.username && '\n' !in d.password
    ensures Split(Props(d), '\n') == PropsLines(d)
    ensures Split(Props(d), '\n')[1] == "spring.datasource.url=" + DatasourceUrl(d)
  {
    if d.dbType.Some? {
      LowerKeepsAbsent(d.dbType.value, '\n');
    }
    FixedPropsLinesFlat();
    var lines := PropsLines(d);
    forall i | 0 <= i < |lines|
      ensures '\n' !in lines[i]
    {
      if i >= 4 {
        assert lines[i] == FixedPropsLines[i - 4];
      }
    }
    SplitJoin(lines, '\n');
  }

  // ----------------------------------------------------- driver dependency

  /** The driver chosen on the exact type label; every other value, a missing type included, gets H2. */
  function DependencyFor(dbType: Option<string>): (dep: Dependency)
    ensures dep == PostgresDriver <==> dbType == Some("PostgreSQL")
    ensures dep == MysqlDriver <==> dbType == Some("MySQL")
    ensures dep == MongoStarter <==> dbType == Some("MongoDB")
    ensures dep == H2Driver <==> dbType !in {Some("PostgreSQL"), Some("MySQL"), Some("MongoDB")}
  {
    if dbType == Some("PostgreSQL") then PostgresDriver
    else if dbType == Some("MySQL") then MysqlDriver
    else if dbType == Some("MongoDB") then MongoStarter
    else H2Driver
  }

  /** The block as this file indents it: children by eight spaces, the closing tag by six. */
  const SetupLayout: Layout := Layout("", "        ", "      ")

  function DbDependency(dbType: Option<string>): string
  {
    DependencyXml(DependencyFor(dbType), SetupLayout)
  }

  // ---------------------------------------------------------- setupDatabase

  /** What a step leaves behind: how it completed and the files. */
  datatype Effect = Effect(outcome: Outcome, files: map<string, Content>)

  function DatabaseDirs(dirs: set<string>, projectPath: string): set<string>
  {
    dirs + Ancestors(ResourcesPath(projectPath))
  }

  /**
   * `setupDatabase` on a snapshot: ensure the resources directory, write
   * the properties, then, if pom.xml exists, read it and write it back with
   * the block inserted unless the block is already there.
   */
  function DatabaseEffect(files: map<string, Content>, dirs: set<string>, c: SetupConfig): Effect
  {
    GuardedPomStep(files[PropsPath(c.projectPath) := Text(Props(c.database))], DatabaseDirs(dirs, c.projectPath),
      PomPath(c.projectPath), DbDependency(c.database.dbType))
  }

  /**
   * The pom part: if the file exists, read it and write it back with `dep`
   * inserted, unless it already holds `dep`.
   */
  function GuardedPomStep(files: map<string, Content>, dirs: set<string>, pomPath: string, dep: string): Effect
  {
    if pomPath !in files && pomPath !in dirs then Effect(Pass, files)
    else match TextAt(files, dirs, pomPath)
      case Err(m) => Effect(Fail(m), files)
      case Ok(pom) =>
        if Includes(pom, dep) then Effect(Pass, files)
        else Effect(Pass, files[pomPath := Text(InsertBlock(pom, dep))])
  }

  /** The pom step touches no other file. */
  lemma GuardedPomStepKeeps(files: map<string, Content>, dirs: set<string>, pomPath: string, dep: string, k: string)
    requires k != pomPath
    ensures k in GuardedPomStep(files, dirs, pomPath, dep).files <==> k in files
    ensures k in files ==> GuardedPomStep(files, dirs, pomPath, dep).files[k] == files[k]
  {
  }

  /** The guarded pom step is idempotent. */
  lemma GuardedPomStepTwice(files: map<string, Content>, dirs: set<string>, pomPath: string, dep: string)
    ensures GuardedPomStep(GuardedPomStep(files, dirs, pomPath, dep).files, dirs, pomPath, dep)
         == GuardedPomStep(files, dirs, pomPath, dep)
  {
    if pomPath in files || pomPath in dirs {
      match TextAt(files, dirs, pomPath)
      case Err(m) =>
      case Ok(pom) =>
        SecondInsertNoOp(pom, dep);
    }
  }

  /** The properties file and the pom are different files, both in directories the step makes. */
  lemma DatabasePaths(projectPath: string)
    ensures Parent(PropsPath(projectPath)) == ResourcesPath(projectPath) && Basename(PropsPath(projectPath)) == "application.properties"
    ensures Parent(PomPath(projectPath)) == BackendPath(projectPath) && Basename(PomPath(projectPath)) == "pom.xml"
    ensures PropsPath(projectPath) != PomPath(projectPath)
    ensures ResourcesPath(projectPath) in Ancestors(ResourcesPath(projectPath)) && BackendPath(projectPath) in Ancestors(ResourcesPath(projectPath))
  {
    ParentJoin(ResourcesPath(projectPath), "application.properties");
    ParentJoin(BackendPath(projectPath), "pom.xml");
    var r := ResourcesPath(projectPath);
    var b := BackendPath(projectPath);
    assert r[|b|] == '/' && r[..|b|] == b;
    assert Basename(PropsPath(projectPath))[0] != Basename(PomPath(projectPath))[0];
  }

  method SetupDatabase(disk: Disk, c: SetupConfig) returns (r: Outcome)
    modifies disk
    ensures disk.dirs == DatabaseDirs(old(disk.dirs), c.projectPath)
    ensures Effect(r, disk.files) == DatabaseEffect(old(disk.files), old(disk.dirs), c)
  {
    DatabasePaths(c.projectPath);
    disk.EnsureDir(ResourcesPath(c.projectPath));
    r := disk.WriteFile(PropsPath(c.projectPath), Text(Props(c.database)));
    var pomPath := PomPath(c.projectPath);
    var present := disk.PathExists(pomPath);
    if present {
      var pom := disk.ReadText(pomPath);
      if pom.Err? {
        r := Fail(pom.msg);
        return;
      }
      var dep := DbDependency(c.database.dbType);
      if !Includes(pom.value, dep) {
        r := disk.WriteFile(pomPath, Text(InsertBlock(pom.value, dep)));
      }
    }
  }

  /** When there is no pom.xml, the properties are still written and no pom appears. */
  lemma DatabaseWithoutPom(files: map<string, Content>, dirs: set<string>, c: SetupConfig)
    requires PomPath(c.projectPath) !in files && PomPath(c.projectPath) !in dirs
    ensures DatabaseEffect(files, dirs, c).outcome == Pass
    ensures DatabaseEffect(files, dirs, c).files == files[PropsPath(c.projectPath) := Text(Props(c.database))]
    ensures PomPath(c.projectPath) !in DatabaseEffect(files, dirs, c).files
  {
    DatabasePaths(c.projectPath);
    PomNotAncestor(c.projectPath);
    var files1 := files[PropsPath(c.projectPath) := Text(Props(c.database))];
    assert PomPath(c.projectPath) !in files1 && PomPath(c.projectPath) !in DatabaseDirs(dirs, c.projectPath);
    assert DatabaseEffect(files, dirs, c) == Effect(Pass, files1);
  }

  /** pom.xml is not one of the directories `ensureDir` makes. */
  lemma PomNotAncestor(projectPath: string)
    ensures PomPath(projectPath) !in Ancestors(ResourcesPath(projectPath))
  {
    var p := PomPath(projectPath);
    var r := ResourcesPath(projectPath);
    var n := |BackendPath(projectPath)| + 1;
    if p in Ancestors(r) {
      AncestorsShorter(r, p);
    }
  }

  /**
   * With a text pom.xml, the block lands right before the first
   * `</dependencies>` unless the pom already holds it.
   */
  lemma DatabasePomInsert(files: map<string, Content>, dirs: set<string>, c: SetupConfig, pom: string)
    requires PomPath(c.projectPath) in files && files[PomPath(c.projectPath)] == Text(pom)
    ensures DatabaseEffect(files, dirs, c).outcome == Pass
    ensures DatabaseEffect(files, dirs, c).files[PomPath(c.projectPath)]
         == Text(InsertUnlessPresent(pom, DbDependency(c.database.dbType), DbDependency(c.database.dbType)))
  {
    DatabasePaths(c.projectPath);
    var files1 := files[PropsPath(c.projectPath) := Text(Props(c.database))];
    assert files1[PomPath(c.projectPath)] == Text(pom);
    GuardedPomStepText(files1, DatabaseDirs(dirs, c.projectPath), PomPath(c.projectPath), DbDependency(c.database.dbType), pom);
  }

  /** A text pom is read and the block inserted unless present. */
  lemma GuardedPomStepText(files: map<string, Content>, dirs: set<string>, pomPath: string, dep: string, pom: string)
    requires pomPath in files && files[pomPath] == Text(pom)
    ensures GuardedPomStep(files, dirs, pomPath, dep).outcome == Pass
    ensures GuardedPomStep(files, dirs, pomPath, dep).files[pomPath] == Text(InsertUnlessPresent(pom, dep, dep))
  {
  }

  /** Running `setupDatabase` a second time changes nothing and completes the same way. */
  lemma DatabaseIdempotent(files: map<string, Content>, dirs: set<string>, c: SetupConfig)
    ensures DatabaseEffect(DatabaseEffect(files, dirs, c).files, DatabaseDirs(dirs, c.projectPath), c)
         == DatabaseEffect(files, dirs, c)
  {
    var pp := c.projectPath;
    DatabasePaths(pp);
    assert DatabaseDirs(DatabaseDirs(dirs, pp), pp) == DatabaseDirs(dirs, pp);
    WriteThenPomStepTwice(files, DatabaseDirs(dirs, pp), PropsPath(pp), Text(Props(c.database)),
                          PomPath(pp), DbDependency(c.database.dbType));
  }

  /** Writing a file and then running the pom step, twice over, is the same as once. */
  lemma WriteThenPomStepTwice(files: map<string, Content>, dirs: set<string>, path: string, content: Content,
                              pomPath: string, dep: string)
    requires path != pomPath
    ensures var e := GuardedPomStep(files[path := content], dirs, pomPath, dep);
      GuardedPomStep(e.files[path := content], dirs, pomPath, dep) == e
  {
    var files1 := files[path := content];
    var e := GuardedPomStep(files1, dirs, pomPath, dep);
    GuardedPomStepKeeps(files1, dirs, pomPath, dep, path);
    assert e.files[path := content] == e.files;
    GuardedPomStepTwice(files1, dirs, pomPath, dep);
  }


  /** After a guarded insertion, either the block is present or a further insertion changes nothing. */
  lemma SecondInsertNoOp(pom: string, dep: string)
    ensures var once := InsertUnlessPresent(pom, dep, dep);
      Includes(once, dep) || InsertBlock(once, dep) == once
  {
    if !Includes(pom, dep) {
      if Includes(pom, Closing) {
        InsertBlockContains(pom, dep);
      } else {
        InsertBlockSpec(pom, dep);
      }
    }
  }

  // ---------------------------------------------------------- setupFrontend

  function FrontendPath(c: SetupConfig): string
  {
    JoinPath(c.projectPath, "frontend")
  }

  /** `...(condition && { … })`: the fields when the condition holds, nothing when it is false. */
  function SpreadIf(condition: bool, fields: seq<Field>): seq<Field>
  {
    if condition then fields else []
  }

  const ViteScripts: seq<Field> := [
    Str("dev", "vite"), Str("build", "tsc && vite build"), Str("preview", "vite preview")]

  const ReactRuntime: seq<Field> := [
    Str("react", "^18.2.0"), Str("react-dom", "^18.2.0"), Str("react-router-dom", "^6.11.2")]

  const VueRuntime: seq<Field> := [Str("vue", "^3.3.4"), Str("vue-router", "^4.2.2")]

  const AngularRuntime: seq<Field> := [
    Str("@angular/core", "^16.0.0"), Str("@angular/platform-browser", "^16.0.0"),
    Str("@angular/platform-browser-dynamic", "^16.0.0"), Str("@angular/router", "^16.0.0"),
    Str("rxjs", "^7.8.1"), Str("zone.js", "^0.13.0")]

  const BaseDevDependencies: seq<Field> := [Str("typescript", "^5.0.4"), Str("vite", "^4.3.9")]

  const ReactDev: seq<Field> := [
    Str("@vitejs/plugin-react", "^4.0.0"), Str("@types/react", "^18.2.7"), Str("@types/react-dom", "^18.2.4")]

  const VueDev: seq<Field> := [Str("@vitejs/plugin-vue", "^4.2.3"), Str("@vue/compiler-sfc", "^3.3.4")]

  /**
   * The `dependencies` object: one spread per framework label. At most one
   * label matches, so no key is spread twice and the spreads simply concatenate.
   */
  function Dependencies(framework: string): seq<Field>
  {
    SpreadIf(framework == "React", ReactRuntime) + SpreadIf(framework == "Vue.js", VueRuntime)
      + SpreadIf(framework == "Angular", AngularRuntime)
  }

  function DevDependencies(framework: string): seq<Field>
  {
    BaseDevDependencies + SpreadIf(framework == "React", ReactDev) + SpreadIf(framework == "Vue.js", VueDev)
  }

  function PackageJson(c: SetupConfig): Json
  {
    JObj([ Str("name", Basename(FrontendPath(c))), Str("version", "1.0.0"), Field("private", JBool(true)),
           Field("scripts", JObj(ViteScripts)),
           Field("dependencies", JObj(Dependencies(c.framework))),
           Field("devDependencies", JObj(DevDependencies(c.framework))) ])
  }

  /** Only the selected framework's packages are dependencies; an unknown label has none. */
  lemma DependenciesChoice(framework: string)
    ensures framework == "React" ==> Dependencies(framework) == ReactRuntime
    ensures framework == "Vue.js" ==> Dependencies(framework) == VueRuntime
    ensures framework == "Angular" ==> Dependencies(framework) == AngularRuntime
    ensures framework !in {"React", "Vue.js", "Angular"} ==> Dependencies(framework) == []
  {
  }

  /** typescript and vite are development dependencies whatever the framework. */
  lemma DevDependenciesBase(framework: string)
    ensures Get(DevDependencies(framework), "typescript") == Some(JStr("^5.0.4"))
    ensures Get(DevDependencies(framework), "vite") == Some(JStr("^4.3.9"))
    ensures |DevDependencies(framework)| >= 2
  {
    var ds := DevDependencies(framework);
    assert ds[0] == Str("typescript", "^5.0.4") && ds[1] == Str("vite", "^4.3.9");
    assert Get(ds, "vite") == Get(ds[1..], "vite");
  }

  /** The package is always named "frontend", after its directory. */
  lemma PackageName(c: SetupConfig)
    ensures Get(PackageJson(c).fields, "name") == Some(JStr("frontend"))
  {
    ParentJoin(c.projectPath, "frontend");
  }

  method SetupFrontend(disk: Disk, c: SetupConfig)
    modifies disk
    ensures disk.dirs == old(disk.dirs) + Ancestors(FrontendPath(c))
    ensures disk.files == old(disk.files)[JoinPath(FrontendPath(c), "package.json") := Json(PackageJson(c))]
  {
    var frontendPath := JoinPath(c.projectPath, "frontend");
    disk.EnsureDir(frontendPath);
    ParentJoin(frontendPath, "package.json");
    var r := disk.WriteFile(JoinPath(frontendPath, "package.json"), Json(PackageJson(c)));
  }
}
