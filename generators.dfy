/**
 * src/commands/generators.ts: the README feature list, the docker-compose
 * database mapping of `generateDocker`, the `generateFrontend` dispatch and
 * the structure rule and pom of `generateBackend`. The pom and
 * application.properties rewrite of `setupBasicStructure` is in
 * BackendTemplate.
 */
module Generators {
  import opened Wrappers
  import opened JsString
  import opened JsonValue
  import opened Files
  import opened GatedList
  import opened Compose
  import opened Layout
  import opened Placeholders
  import opened BackendTemplate

  /** The part of `ProjectConfig` these generators read. */
  datatype GenConfig = GenConfig(
    projectName: string,
    projectPath: string,
    databaseType: string,
    authEnabled: bool,
    authType: string,
    frontendType: string,
    testing: bool,
    docker: bool)

  // ------------------------------------------------------------ feature list

  function DatabaseEntry(databaseType: string): string
  {
    databaseType + " database integration"
  }

  const RestEntry: string := "REST API with Swagger documentation"

  function AuthEntry(authType: string): string
  {
    "Authentication (" + authType + ")"
  }

  function FrontendEntry(frontendType: string): string
  {
    frontendType + " frontend"
  }

  /** The pushes of `getFeaturesList`, in order, each with its condition. */
  function FeatureGates(c: GenConfig): seq<Gate>
  {
    [ Gate(true, DatabaseEntry(c.databaseType)),
      Gate(true, RestEntry),
      Gate(c.authEnabled, AuthEntry(c.authType)),
      Gate(c.frontendType != "none", FrontendEntry(c.frontendType)),
      Gate(c.testing, "Comprehensive testing setup"),
      Gate(c.docker, "Docker containerization") ]
  }

  /** `getFeaturesList`: start with two entries, then push one per enabled option. */
  method FeaturesList(c: GenConfig) returns (features: seq<string>)
    ensures features == Enabled(FeatureGates(c))
  {
    ghost var gs := FeatureGates(c);
    features := [DatabaseEntry(c.databaseType), RestEntry];
    PushStep(gs, 0, [], [DatabaseEntry(c.databaseType)]);
    PushStep(gs, 1, [DatabaseEntry(c.databaseType)], features);
    ghost var before := features;
    if c.authEnabled {
      features := features + [AuthEntry(c.authType)];
    }
    PushStep(gs, 2, before, features);
    features := LaterFeatures(c, features);
  }

  /** The last three pushes of `getFeaturesList`: frontend, testing, docker. */
  method LaterFeatures(c: GenConfig, lead: seq<string>) returns (features: seq<string>)
    requires lead == Enabled(FeatureGates(c)[..3])
    ensures features == Enabled(FeatureGates(c))
  {
    ghost var gs := FeatureGates(c);
    features := lead;
    ghost var before := features;
    if c.frontendType != "none" {
      features := features + [FrontendEntry(c.frontendType)];
    }
    PushStep(gs, 3, before, features);
    before := features;
    if c.testing {
      features := features + ["Comprehensive testing setup"];
    }
    PushStep(gs, 4, before, features);
    before := features;
    if c.docker {
      features := features + ["Docker containerization"];
    }
    PushStep(gs, 5, before, features);
    assert gs[..6] == gs;
  }

  /** The list always opens with the database entry and then the REST API entry. */
  lemma FeaturesStart(c: GenConfig)
    ensures |Enabled(FeatureGates(c))| >= 2
    ensures Enabled(FeatureGates(c))[0] == DatabaseEntry(c.databaseType)
    ensures Enabled(FeatureGates(c))[1] == RestEntry
  {
    var gs := FeatureGates(c);
    assert Enabled(gs) == [gs[0].entry] + Enabled(gs[1..]);
    assert Enabled(gs[1..]) == [gs[1].entry] + Enabled(gs[2..]);
  }

  /** Two fixed entries plus one per enabled option: at most six. */
  lemma FeaturesCount(c: GenConfig)
    ensures |Enabled(FeatureGates(c))|
         == 2 + Count(c.authEnabled) + Count(c.frontendType != "none") + Count(c.testing) + Count(c.docker)
         <= 6
  {
    var gs := FeatureGates(c);
    EnabledLength(gs);
    assert CountOn(gs[5..]) == Count(c.docker) by {
      assert gs[5..][1..] == [];
    }
    assert CountOn(gs[4..]) == Count(c.testing) + CountOn(gs[5..]) by {
      assert gs[4..][1..] == gs[5..];
    }
    assert CountOn(gs[3..]) == Count(c.frontendType != "none") + CountOn(gs[4..]) by {
      assert gs[3..][1..] == gs[4..];
    }
    assert CountOn(gs[2..]) == Count(c.authEnabled) + CountOn(gs[3..]) by {
      assert gs[2..][1..] == gs[3..];
    }
    assert CountOn(gs) == 2 + CountOn(gs[2..]) by {
      assert gs[1..][1..] == gs[2..];
    }
  }

  /** The authentication entry is listed exactly when authentication is enabled. */
  lemma AuthEntryIff(c: GenConfig)
    ensures AuthEntry(c.authType) in Enabled(FeatureGates(c)) <==> c.authEnabled
  {
    var gs := FeatureGates(c);
    var e := AuthEntry(c.authType);
    EnabledMember(gs, e);
    if c.authEnabled {
      assert gs[2].on && gs[2].entry == e;
    }
    if e in Enabled(gs) {
      var i :| 0 <= i < |gs| && gs[i].on && gs[i].entry == e;
      assert Last(e) == ')';
      assert i == 2 by {
        assert Last(gs[0].entry) == 'n' && Last(gs[1].entry) == 'n' && Last(gs[3].entry) == 'd';
        assert Last(gs[4].entry) == 'p' && Last(gs[5].entry) == 'n';
      }
    }
  }

  // ---------------------------------------------------- setupBasicStructure

  /**
   * The sections `setupBasicStructure` switches on: each database section
   * when the type is exactly its lower-case name, authentication when enabled.
   */
  function GenSections(c: GenConfig): Sections
  {
    Sections(c.databaseType == "mysql", c.databaseType == "postgresql", c.databaseType == "mongodb",
      c.databaseType == "h2", c.authEnabled)
  }

  /**
   * Every `{{/if}}` in the pom this file writes becomes `''` for mysql and
   * `-->` for every other type, postgresql included.
   */
  lemma GenPomClosers(ps: seq<Piece>, c: GenConfig)
    requires GoodTemplate(ps) && GoodText(c.projectName)
    ensures PomContent(Render(ps), c.projectName, GenSections(c))
         == Render(Fill(ps, FirstWins(PomSteps(c.projectName, GenSections(c)))))
    ensures forall i :: 0 <= i < |ps| && ps[i] == Marker("/if") ==>
      Fill(ps, FirstWins(PomSteps(c.projectName, GenSections(c))))[i]
        == Lit(if c.databaseType == "mysql" then "" else "-->")
  {
    PomClosersFollowMysql(ps, c.projectName, GenSections(c));
  }

  // ------------------------------------------------------------------ docker

  /** The db service the image and variable-name ternaries of `generateDocker` pick. */
  function ServiceFor(databaseType: string): DbService
  {
    if databaseType == "postgresql" then Postgres
    else if databaseType == "mysql" then MySql
    else Mongo
  }

  /** The port ternary of `generateDocker`. */
  function PortFor(databaseType: string): string
  {
    if databaseType == "postgresql" then "5432"
    else if databaseType == "mysql" then "3306"
    else "27017"
  }

  /** docker-compose.yml: the same port ternary on both sides of the mapping, fixed credentials. */
  function ComposeFor(c: GenConfig): string
  {
    var port := PortFor(c.databaseType);
    ComposeYaml(ServiceFor(c.databaseType), PortMapping(port, port), "user", "password")
  }

  /**
   * The compose mapping: postgresql and mysql get their own image, every
   * other type (h2 and the capitalised names included) gets mongo:6; the
   * separate port ternary always names the chosen image's own port.
   */
  lemma ComposeMapping(databaseType: string)
    ensures databaseType == "postgresql" ==> ServiceFor(databaseType).image == "postgres:15-alpine"
    ensures databaseType == "mysql" ==> ServiceFor(databaseType).image == "mysql:8"
    ensures databaseType != "postgresql" && databaseType != "mysql" ==> ServiceFor(databaseType) == Mongo
    ensures PortFor(databaseType) == ServerPort(ServiceFor(databaseType))
  {
  }

  /** The db service publishes the port it listens on: both halves of the mapping are equal. */
  lemma ComposePortsMatch(databaseType: string)
    ensures Split(PortMapping(PortFor(databaseType), PortFor(databaseType)), ':')
         == [ServerPort(ServiceFor(databaseType)), ServerPort(ServiceFor(databaseType))]
  {
    var port := PortFor(databaseType);
    assert ':' !in port;
    PortMappingSplit(port, port);
  }

  /** `generateDocker`: Dockerfile, then docker-compose.yml, at the project root, which it does not create. */
  method GenerateDocker(disk: Disk, c: GenConfig) returns (r: Outcome)
    modifies disk
    ensures r == if c.projectPath in old(disk.dirs) then Pass
                 else Fail(EnoentOpen(JoinPath(c.projectPath, "Dockerfile")))
    ensures disk.files == if r.Fail? then old(disk.files) else old(disk.files)
      [JoinPath(c.projectPath, "Dockerfile") := Text(Dockerfile)]
      [JoinPath(c.projectPath, "docker-compose.yml") := Text(ComposeFor(c))]
    ensures disk.dirs == old(disk.dirs)
  {
    var dockerfilePath := JoinPath(c.projectPath, "Dockerfile");
    var composePath := JoinPath(c.projectPath, "docker-compose.yml");
    ParentJoin(c.projectPath, "Dockerfile");
    r := disk.WriteFile(dockerfilePath, Text(Dockerfile));
    if r.Fail? {
      return;
    }
    assert Parent(composePath) in disk.dirs by {
      ParentJoin(c.projectPath, "docker-compose.yml");
    }
    r := disk.WriteFile(composePath, Text(ComposeFor(c)));
  }

  // ---------------------------------------------------------------- frontend

  /** The package.json shape the three frontend generators share. */
  function Package(name: string, dependencies: seq<Field>, scripts: seq<Field>): Json
  {
    JObj([ Str("name", name), Str("version", "1.0.0"), Field("private", JBool(true)),
           Field("dependencies", JObj(dependencies)), Field("scripts", JObj(scripts)) ])
  }

  const ReactDependencies: seq<Field> := [
    Str("react", "^18.2.0"), Str("react-dom", "^18.2.0"), Str("react-router-dom", "^6.11.2"),
    Str("@types/react", "^18.2.7"), Str("@types/react-dom", "^18.2.4"), Str("typescript", "^5.0.4"),
    Str("vite", "^4.3.9"), Str("@vitejs/plugin-react", "^4.0.0")]

  const ReactScripts: seq<Field> := [
    Str("dev", "vite"), Str("build", "tsc && vite build"), Str("preview", "vite preview")]

  const VueDependencies: seq<Field> := [
    Str("vue", "^3.3.4"), Str("vue-router", "^4.2.2"), Str("typescript", "^5.0.4"),
    Str("vite", "^4.3.9"), Str("@vitejs/plugin-vue", "^4.2.3"), Str("@vue/compiler-sfc", "^3.3.4")]

  const VueScripts: seq<Field> := [
    Str("dev", "vite"), Str("build", "vue-tsc && vite build"), Str("preview", "vite preview")]

  const AngularDependencies: seq<Field> := [
    Str("@angular/core", "^16.0.0"), Str("@angular/platform-browser", "^16.0.0"),
    Str("@angular/platform-browser-dynamic", "^16.0.0"), Str("@angular/router", "^16.0.0"),
    Str("rxjs", "^7.8.1"), Str("zone.js", "^0.13.0"), Str("typescript", "^5.0.4")]

  const AngularScripts: seq<Field> := [
    Str("ng", "ng"), Str("start", "ng serve"), Str("build", "ng build"),
    Str("watch", "ng build --watch --configuration development"), Str("test", "ng test")]

  /** The package.json the dispatch of `generateFrontend` writes, if any. */
  function FrontendPackage(frontendType: string, frontendPath: string): Option<Json>
  {
    var name := Basename(frontendPath);
    if frontendType == "react" then Some(Package(name, ReactDependencies, ReactScripts))
    else if frontendType == "vue" then Some(Package(name, VueDependencies, VueScripts))
    else if frontendType == "angular" then Some(Package(name, AngularDependencies, AngularScripts))
    else None
  }

  function FrontendPath(c: GenConfig): string
  {
    JoinPath(c.projectPath, "frontend")
  }

  /** Every package.json carries its name, version 1.0.0 and private: true. */
  lemma PackageFields(name: string, dependencies: seq<Field>, scripts: seq<Field>)
    ensures Get(Package(name, dependencies, scripts).fields, "name") == Some(JStr(name))
    ensures Get(Package(name, dependencies, scripts).fields, "version") == Some(JStr("1.0.0"))
    ensures Get(Package(name, dependencies, scripts).fields, "private") == Some(JBool(true))
    ensures Get(Package(name, dependencies, scripts).fields, "dependencies") == Some(JObj(dependencies))
  {
    var fs := Package(name, dependencies, scripts).fields;
    assert Get(fs, "version") == Get(fs[1..], "version");
    assert Get(fs[1..], "private") == Get(fs[2..], "private") by {
      assert fs[1..][1..] == fs[2..];
    }
    assert Get(fs[2..], "dependencies") == Get(fs[3..], "dependencies") by {
      assert fs[2..][1..] == fs[3..];
    }
    assert Get(fs, "private") == Get(fs[1..], "private");
    assert Get(fs, "dependencies") == Get(fs[1..], "dependencies");
    assert Get(fs[1..], "dependencies") == Get(fs[2..], "dependencies") by {
      assert fs[1..][1..] == fs[2..];
    }
  }

  /**
   * Only react, vue and angular get a package.json; it is named after the
   * frontend directory, which is always "frontend".
   */
  lemma FrontendPackageShape(c: GenConfig)
    ensures FrontendPackage(c.frontendType, FrontendPath(c)).Some?
        <==> c.frontendType == "react" || c.frontendType == "vue" || c.frontendType == "angular"
    ensures FrontendPackage(c.frontendType, FrontendPath(c)).Some? ==>
      var fs := FrontendPackage(c.frontendType, FrontendPath(c)).value.fields;
      Get(fs, "name") == Some(JStr("frontend")) && Get(fs, "version") == Some(JStr("1.0.0")) &&
      Get(fs, "private") == Some(JBool(true))
  {
    ParentJoin(c.projectPath, "frontend");
    var name := Basename(FrontendPath(c));
    PackageFields(name, ReactDependencies, ReactScripts);
    PackageFields(name, VueDependencies, VueScripts);
    PackageFields(name, AngularDependencies, AngularScripts);
  }

  /**
   * `generateFrontend`: nothing at all for 'none'; otherwise the frontend
   * directory is created, and a package.json written into it for the three
   * known types only.
   */
  method GenerateFrontend(disk: Disk, c: GenConfig)
    modifies disk
    ensures c.frontendType == "none" ==> disk.files == old(disk.files) && disk.dirs == old(disk.dirs)
    ensures c.frontendType != "none" ==> disk.dirs == old(disk.dirs) + Ancestors(FrontendPath(c))
    ensures c.frontendType != "none" ==>
      disk.files == match FrontendPackage(c.frontendType, FrontendPath(c))
        case Some(j) => old(disk.files)[JoinPath(FrontendPath(c), "package.json") := Json(j)]
        case None => old(disk.files)
  {
    if c.frontendType == "none" {
      return;
    }
    var frontendPath := FrontendPath(c);
    disk.EnsureDir(frontendPath);
    var package := FrontendPackage(c.frontendType, frontendPath);
    if package.Some? {
      ParentJoin(frontendPath, "package.json");
      var r := disk.WriteFile(JoinPath(frontendPath, "package.json"), Json(package.value));
    }
  }

  // ----------------------------------------------------------------- backend

  /** The structure object of `generateBackend`, in property order. */
  const BackendStructure: seq<Entry> := [
    Entry("src/main/java/com/example/backend",
      ["Application.java", "config", "controller", "service", "repository", "model", "security", "exception"]),
    Entry("src/main/resources", ["application.yml", "application-dev.yml", "application-prod.yml"]),
    Entry("src/test/java/com/example/backend", ["ApplicationTests.java"])]

  lemma BackendStructureSlashFree()
    ensures SlashFreeItems(BackendStructure)
  {
  }

  /** The pom.xml of `generateBackend`, line by line; the project name appears only in the description. */
  function BackendPom(name: string): string
  {
    Join(PomHeadLines, '\n') + name + Join(PomTailLines, '\n')
  }

  function BackendPath(c: GenConfig): string
  {
    JoinPath(c.projectPath, "backend")
  }

  /** pom.xml sits directly in the backend directory. */
  lemma BackendPomParent(backendPath: string)
    ensures Parent(JoinPath(backendPath, "pom.xml")) == backendPath
  {
    ParentJoin(backendPath, "pom.xml");
  }

  /**
   * `generateBackend`: make the backend directory, lay out the structure
   * under it, then write pom.xml there.
   */
  method GenerateBackend(disk: Disk, c: GenConfig)
    modifies disk
    ensures disk.dirs == old(disk.dirs) + Ancestors(BackendPath(c)) + LayoutDirs(BackendPath(c), BackendStructure)
    ensures disk.files == (old(disk.files) + LayoutFiles(BackendPath(c), BackendStructure))
      [JoinPath(BackendPath(c), "pom.xml") := Text(BackendPom(c.projectName))]
  {
    var backendPath := BackendPath(c);
    disk.EnsureDir(backendPath);
    BackendStructureSlashFree();
    Materialize(disk, backendPath, BackendStructure);
    BackendPomParent(backendPath);
    var r := disk.WriteFile(JoinPath(backendPath, "pom.xml"), Text(BackendPom(c.projectName)));
  }

  /**
   * The structure rule on the backend layout: Application.java and
   * ApplicationTests.java are written, empty.
   */
  lemma BackendLayout(backendPath: string)
    ensures var app := JoinPath(JoinPath(backendPath, "src/main/java/com/example/backend"), "Application.java");
      app in LayoutFiles(backendPath, BackendStructure) && LayoutFiles(backendPath, BackendStructure)[app] == Text("")
    ensures var tests := JoinPath(JoinPath(backendPath, "src/test/java/com/example/backend"), "ApplicationTests.java");
      tests in LayoutFiles(backendPath, BackendStructure) && LayoutFiles(backendPath, BackendStructure)[tests] == Text("")
  {
    assert IsFileItem(BackendStructure[0].items[0]);
    FileItemWritten(backendPath, BackendStructure, 0, 0);
    assert IsFileItem(BackendStructure[2].items[0]);
    FileItemWritten(backendPath, BackendStructure, 2, 0);
  }

  /** The seven package names carry no dot, so the structure rule makes them directories. */
  lemma BackendPackagesAreDirs(backendPath: string, j: int)
    requires 1 <= j < 8
    ensures JoinPath(JoinPath(backendPath, "src/main/java/com/example/backend"), BackendStructure[0].items[j])
      in LayoutDirs(backendPath, BackendStructure)
  {
    var item := BackendStructure[0].items[j];
    forall i | 0 <= i < |item|
      ensures item[i] != '.'
    {
    }
    DirItemMade(backendPath, BackendStructure, 0, j);
  }

  /** The lines of the pom up to the project name, which sits inside `<description>`. */
  const PomHeadLines: seq<string> := [
    @"<?xml version=""1.0"" encoding=""UTF-8""?>",
    @"<project xmlns=""http://maven.apache.org/POM/4.0.0""",
    @"         xmlns:xsi=""http://www.w3.org/2001/XMLSchema-instance""",
    @"         xsi:schemaLocation=""http://maven.apache.org/POM/4.0.0 http://maven.apache.org/xsd/maven-4.0.0.xsd"">",
    @"    <modelVersion>4.0.0</modelVersion>",
    @"    <parent>",
    @"        <groupId>org.springframework.boot</groupId>",
    @"        <artifactId>spring-boot-starter-parent</artifactId>",
    @"        <version>2.7.0</version>",
    @"    </parent>",
    @"    <groupId>com.example</groupId>",
    @"    <artifactId>backend</artifactId>",
    @"    <version>1.0.0</version>",
    @"    <name>Backend Application</name>",
    @"    <description>Backend application for "]

  /** The rest of the pom after the project name. */
  const PomTailLines: seq<string> := [
    @"</description>",
    @"    <dependencies>",
    @"        <dependency>",
    @"            <groupId>org.springframework.boot</groupId>",
    @"            <artifactId>spring-boot-starter-web</artifactId>",
    @"        </dependency>",
    @"        <dependency>",
    @"            <groupId>org.springframework.boot</groupId>",
    @"            <artifactId>spring-boot-starter-data-jpa</artifactId>",
    @"        </dependency>",
    @"        <dependency>",
    @"            <groupId>org.springframework.boot</groupId>",
    @"            <artifactId>spring-boot-starter-security</artifactId>",
    @"        </dependency>",
    @"        <dependency>",
    @"            <groupId>org.springframework.boot</groupId>",
    @"            <artifactId>spring-boot-starter-test</artifactId>",
    @"            <scope>test</scope>",
    @"        </dependency>",
    @"    </dependencies>",
    @"    <build>",
    @"        <plugins>",
    @"            <plugin>",
    @"                <groupId>org.springframework.boot</groupId>",
    @"                <artifactId>spring-boot-maven-plugin</artifactId>",
    @"            </plugin>",
    @"        </plugins>",
    @"    </build>",
    @"</project>"]
}
