/**
 * src/commands/create.ts: `createProject` and the three generators it
 * defines for itself. `createProject` refuses a directory that already
 * exists, makes it, and then lays out a backend and a frontend, adding the
 * docker files only when the docker question was answered yes. The
 * backend generator of this file is, line for line, the one of
 * src/commands/generators.ts, so its structure and pom come from
 * Generators.
 */
module Create {
  import opened Wrappers
  import opened JsString
  import opened Files
  import opened Layout
  import Generators

  /** The answers of the interactive prompt that the generators of this file read. */
  datatype Choices = Choices(database: string, frontend: string, docker: bool)

  /** The part of `ProjectOptions` the generators read; `projectName` may be undefined. */
  datatype Answers = Answers(projectName: Option<string>, database: string, frontend: string, docker: bool)

  /**
   * The options the generators receive as written: the object returned by
   * the prompt, which has a property per question asked and none of them
   * is `projectName`.
   */
  function PromptAnswers(c: Choices): Answers
  {
    Answers(None, c.database, c.frontend, c.docker)
  }

  /** The options with the project name the templates are written for. */
  function NamedAnswers(projectName: string, c: Choices): Answers
  {
    Answers(Some(projectName), c.database, c.frontend, c.docker)
  }

  function BackendPath(projectPath: string): string
  {
    JoinPath(projectPath, "backend")
  }

  function FrontendPath(projectPath: string): string
  {
    JoinPath(projectPath, "frontend")
  }

  function DockerPath(projectPath: string): string
  {
    JoinPath(projectPath, "docker")
  }

  function PomPath(projectPath: string): string
  {
    JoinPath(BackendPath(projectPath), "pom.xml")
  }

  function PackagePath(projectPath: string): string
  {
    JoinPath(FrontendPath(projectPath), "package.json")
  }

  /** package.json sits directly in the frontend directory. */
  lemma PackageParent(projectPath: string)
    ensures Parent(PackagePath(projectPath)) == FrontendPath(projectPath)
  {
    ParentJoin(FrontendPath(projectPath), "package.json");
  }

  // ----------------------------------------------------------------- backend

  /** What `generateBackend` leaves in the files: the structure, then pom.xml holding `pom`. */
  function BackendFiles(files: map<string, Content>, projectPath: string, pom: string): map<string, Content>
  {
    (files + LayoutFiles(BackendPath(projectPath), Generators.BackendStructure))[PomPath(projectPath) := Text(pom)]
  }

  function BackendDirs(dirs: set<string>, projectPath: string): set<string>
  {
    dirs + Ancestors(BackendPath(projectPath)) + LayoutDirs(BackendPath(projectPath), Generators.BackendStructure)
  }

  /** `generateBackend(projectPath, options)`. */
  method GenerateBackend(disk: Disk, projectPath: string, a: Answers)
    modifies disk
    ensures disk.files == BackendFiles(old(disk.files), projectPath, Generators.BackendPom(Interp(a.projectName)))
    ensures disk.dirs == BackendDirs(old(disk.dirs), projectPath)
  {
    var backendPath := BackendPath(projectPath);
    disk.EnsureDir(backendPath);
    Generators.BackendStructureSlashFree();
    Materialize(disk, backendPath, Generators.BackendStructure);
    ParentJoin(backendPath, "pom.xml");
    var r := disk.WriteFile(PomPath(projectPath), Text(Generators.BackendPom(Interp(a.projectName))));
  }

  // ---------------------------------------------------------------- frontend

  /** The structure object of `generateFrontend`, in property order. */
  const FrontendStructure: seq<Entry> := [
    Entry("src", ["components", "pages", "services", "utils", "styles", "assets"]),
    Entry("public", ["index.html", "favicon.ico"])]

  lemma FrontendStructureSlashFree()
    ensures SlashFreeItems(FrontendStructure)
  {
  }

  /** The package.json text up to the value of "name". */
  const PackageOpen: string := "{\n  \"name\": \""

  /** A package.json of this file: the name is the project name with `-frontend` appended. */
  function Package(name: string, lines: seq<string>): string
  {
    PackageOpen + name + "-frontend\",\n" + Join(lines, '\n')
  }

  /** The labels for which a package.json body exists; the comparison is exact. */
  predicate KnownFrontend(kind: string)
  {
    kind == "React" || kind == "Vue.js" || kind == "Angular"
  }

  /** The content `generateFrontend` writes to package.json: empty for every other label. */
  function PackageText(kind: string, name: string): string
  {
    if kind == "React" then Package(name, ReactLines)
    else if kind == "Vue.js" then Package(name, VueLines)
    else if kind == "Angular" then Package(name, AngularLines)
    else ""
  }

  /** What `generateFrontend` leaves in the files: the structure, then package.json holding `package`. */
  function FrontendFiles(files: map<string, Content>, projectPath: string, package: string): map<string, Content>
  {
    (files + LayoutFiles(FrontendPath(projectPath), FrontendStructure))[PackagePath(projectPath) := Text(package)]
  }

  function FrontendDirs(dirs: set<string>, projectPath: string): set<string>
  {
    dirs + Ancestors(FrontendPath(projectPath)) + LayoutDirs(FrontendPath(projectPath), FrontendStructure)
  }

  /**
   * `generateFrontend(projectPath, options)`: the structure, then a
   * package.json chosen by the frontend kind.
   */
  method GenerateFrontend(disk: Disk, projectPath: string, a: Answers)
    modifies disk
    ensures disk.files == FrontendFiles(old(disk.files), projectPath, PackageText(a.frontend, Interp(a.projectName)))
    ensures disk.dirs == FrontendDirs(old(disk.dirs), projectPath)
  {
    var frontendPath := FrontendPath(projectPath);
    disk.EnsureDir(frontendPath);
    FrontendStructureSlashFree();
    Materialize(disk, frontendPath, FrontendStructure);
    var content := PackageContent(a.frontend, Interp(a.projectName));
    PackageParent(projectPath);
    var r := disk.WriteFile(PackagePath(projectPath), Text(content));
  }

  /** The if-chain of `generateFrontend` that picks the package.json content, empty unless a label matches. */
  method PackageContent(kind: string, name: string) returns (content: string)
    ensures content == PackageText(kind, name)
  {
    content := "";
    if kind == "React" {
      content := Package(name, ReactLines);
    } else if kind == "Vue.js" {
      content := Package(name, VueLines);
    } else if kind == "Angular" {
      content := Package(name, AngularLines);
    }
  }

  /**
   * Only the three exact labels get a package.json body, and that body
   * names the package after the project: the quoted "name" value is
   * `name-frontend`, which reads back the name.
   */
  lemma PackageNamed(kind: string, name: string)
    ensures PackageText(kind, name) != "" <==> KnownFrontend(kind)
    ensures KnownFrontend(kind) ==> StartsWith(PackageText(kind, name), PackageOpen + name + "-frontend\"")
    ensures KnownFrontend(kind) ==> PackageText(kind, name)[|PackageOpen|..|PackageOpen| + |name|] == name
  {
    if KnownFrontend(kind) {
      var lines := if kind == "React" then ReactLines else if kind == "Vue.js" then VueLines else AngularLines;
      PackageHead(name, lines);
    }
  }

  lemma PackageHead(name: string, lines: seq<string>)
    ensures StartsWith(Package(name, lines), PackageOpen + name + "-frontend\"")
    ensures Package(name, lines)[|PackageOpen|..|PackageOpen| + |name|] == name
    ensures Package(name, lines) != ""
  {
    var rest := ",\n" + Join(lines, '\n');
    assert Package(name, lines) == (PackageOpen + name + "-frontend\"") + rest;
  }

  /**
   * The structure rule on the frontend layout: the six folders under src
   * are directories, index.html and favicon.ico under public are empty
   * files.
   */
  lemma FrontendLayout(frontendPath: string, j: int)
    requires 0 <= j < 6
    ensures JoinPath(JoinPath(frontendPath, "src"), FrontendStructure[0].items[j]) in LayoutDirs(frontendPath, FrontendStructure)
    ensures var index := JoinPath(JoinPath(frontendPath, "public"), "index.html");
      index in LayoutFiles(frontendPath, FrontendStructure) && LayoutFiles(frontendPath, FrontendStructure)[index] == Text("")
    ensures var icon := JoinPath(JoinPath(frontendPath, "public"), "favicon.ico");
      icon in LayoutFiles(frontendPath, FrontendStructure) && LayoutFiles(frontendPath, FrontendStructure)[icon] == Text("")
  {
    var item := FrontendStructure[0].items[j];
    forall i | 0 <= i < |item|
      ensures item[i] != '.'
    {
    }
    DirItemMade(frontendPath, FrontendStructure, 0, j);
    assert IsFileItem(FrontendStructure[1].items[0]);
    FileItemWritten(frontendPath, FrontendStructure, 1, 0);
    assert IsFileItem(FrontendStructure[1].items[1]);
    FileItemWritten(frontendPath, FrontendStructure, 1, 1);
  }

  // ------------------------------------------------------------------ docker

  function DockerfileBackendPath(projectPath: string): string
  {
    JoinPath(DockerPath(projectPath), "Dockerfile.backend")
  }

  function DockerfileFrontendPath(projectPath: string): string
  {
    JoinPath(DockerPath(projectPath), "Dockerfile.frontend")
  }

  function ComposePath(projectPath: string): string
  {
    JoinPath(DockerPath(projectPath), "docker-compose.yml")
  }

  /** The database URL of the backend service, up to the database name. */
  const DbUrl: string := "jdbc:postgresql://db:5432/"

  /** The environment entry of the db service naming the database. */
  const PostgresDb: string := "POSTGRES_DB="

  /** The image of the db service. */
  const PostgresImage: string := "image: postgres:13"

  /** docker-compose.yml: the project name is the database of a postgres:13 service, whatever database was chosen. */
  function ComposeText(name: string): string
  {
    ComposeHead + DbUrl + name + ComposeMid + PostgresDb + name + ComposeTail
  }

  /** The backend Dockerfile: build with Maven, run the jar on port 8080. */
  const BackendDockerfile: string := Join(BackendDockerfileLines, '\n')

  /** The frontend Dockerfile: build with npm, serve the build with nginx on port 80. */
  const FrontendDockerfile: string := Join(FrontendDockerfileLines, '\n')

  /** What `generateDocker` leaves in the files, given the three texts. */
  function DockerFiles(files: map<string, Content>, projectPath: string, backend: string, frontend: string, compose: string): map<string, Content>
  {
    files[DockerfileBackendPath(projectPath) := Text(backend)]
      [DockerfileFrontendPath(projectPath) := Text(frontend)]
      [ComposePath(projectPath) := Text(compose)]
  }

  /** `generateDocker(projectPath, options)`: two Dockerfiles and a compose file under docker/. */
  method GenerateDocker(disk: Disk, projectPath: string, a: Answers)
    modifies disk
    ensures disk.files == DockerFiles(old(disk.files), projectPath, BackendDockerfile, FrontendDockerfile, ComposeText(Interp(a.projectName)))
    ensures disk.dirs == old(disk.dirs) + Ancestors(DockerPath(projectPath))
  {
    var dockerPath := DockerPath(projectPath);
    disk.EnsureDir(dockerPath);
    ParentJoin(dockerPath, "Dockerfile.backend");
    ParentJoin(dockerPath, "Dockerfile.frontend");
    ParentJoin(dockerPath, "docker-compose.yml");
    var r := disk.WriteFile(DockerfileBackendPath(projectPath), Text(BackendDockerfile));
    r := disk.WriteFile(DockerfileFrontendPath(projectPath), Text(FrontendDockerfile));
    r := disk.WriteFile(ComposePath(projectPath), Text(ComposeText(Interp(a.projectName))));
  }

  /** The compose file names the project as the database of the URL and of the postgres service. */
  lemma ComposeNamesDatabase(name: string)
    ensures Includes(ComposeText(name), DbUrl + name)
    ensures Includes(ComposeText(name), PostgresDb + name)
    ensures Includes(ComposeText(name), PostgresImage)
  {
    ThreeParts(ComposeHead, DbUrl, name, ComposeMid, PostgresDb, ComposeTail, ComposeMidHead, PostgresImage, ComposeMidTail);
  }

  lemma ThreeParts(h: string, u: string, n: string, m: string, p: string, t: string, mh: string, i: string, mt: string)
    requires m == mh + i + mt
    ensures Includes(h + u + n + m + p + n + t, u + n)
    ensures Includes(h + u + n + m + p + n + t, p + n)
    ensures Includes(h + u + n + m + p + n + t, i)
  {
    var s := h + u + n + m + p + n + t;
    assert Includes(s, u + n) by {
      assert s == h + (u + n) + (m + p + n + t);
      IncludesSelf(h, u + n, m + p + n + t);
    }
    assert Includes(s, p + n) by {
      assert s == (h + u + n + m) + (p + n) + t;
      IncludesSelf(h + u + n + m, p + n, t);
    }
    assert Includes(s, i) by {
      assert s == (h + u + n + mh) + i + (mt + p + n + t);
      IncludesSelf(h + u + n + mh, i, mt + p + n + t);
    }
  }

  // ------------------------------------------------------------ createProject

  function AlreadyExists(projectPath: string): string
  {
    "Le dossier " + projectPath + " existe déjà"
  }

  const CreateFailed: string := "Erreur lors de la création du projet"

  /** The texts the generators write, file by file. */
  datatype Texts = Texts(pom: string, package: string, backendDockerfile: string, frontendDockerfile: string, compose: string)

  function TextsFor(kind: string, name: string): Texts
  {
    Texts(Generators.BackendPom(name), PackageText(kind, name), BackendDockerfile, FrontendDockerfile, ComposeText(name))
  }

  /** Backend, frontend and, when asked for, docker, in a freshly made project directory. */
  function Scaffold(files: map<string, Content>, dirs: set<string>, projectPath: string, docker: bool, t: Texts): Run
  {
    var files1 := FrontendFiles(BackendFiles(files, projectPath, t.pom), projectPath, t.package);
    var dirs1 := FrontendDirs(BackendDirs(dirs, projectPath), projectPath);
    if docker then
      Run(Pass, DockerFiles(files1, projectPath, t.backendDockerfile, t.frontendDockerfile, t.compose),
        dirs1 + Ancestors(DockerPath(projectPath)))
    else Run(Pass, files1, dirs1)
  }

  /**
   * `createProject` up to the generators: an existing path is reported and
   * nothing is written; `mkdirSync` without the parent directory throws,
   * which the catch reports.
   */
  function CreateWith(files: map<string, Content>, dirs: set<string>, projectPath: string, a: Answers): Run
  {
    if projectPath in files || projectPath in dirs then Run(Fail(AlreadyExists(projectPath)), files, dirs)
    else if Parent(projectPath) !in dirs then Run(Fail(CreateFailed), files, dirs)
    else Scaffold(files, dirs + {projectPath}, projectPath, a.docker, TextsFor(a.frontend, Interp(a.projectName)))
  }

  /** `createProject` as written: the generators get the prompt's answers, with no project name. */
  function CreateAsWritten(files: map<string, Content>, dirs: set<string>, cwd: string, projectName: string, c: Choices): Run
  {
    CreateWith(files, dirs, JoinPath(cwd, projectName), PromptAnswers(c))
  }

  /** `createProject` with the project name passed on to the generators. */
  function CreateRun(files: map<string, Content>, dirs: set<string>, cwd: string, projectName: string, c: Choices): Run
  {
    CreateWith(files, dirs, JoinPath(cwd, projectName), NamedAnswers(projectName, c))
  }

  /**
   * `createProject(projectName)` run in `cwd`, with the prompt answered by
   * `c`. The clone of the template repository, `npm install` and the
   * spinner are not part of this model.
   */
  method CreateProject(disk: Disk, cwd: string, projectName: string, c: Choices) returns (r: Outcome)
    modifies disk
    ensures Run(r, disk.files, disk.dirs) == CreateRun(old(disk.files), old(disk.dirs), cwd, projectName, c)
  {
    var projectPath := JoinPath(cwd, projectName);
    var present := disk.PathExists(projectPath);
    if present {
      r := Fail(AlreadyExists(projectPath));
      return;
    }
    var made := disk.MakeDir(projectPath);
    if made.Fail? {
      r := Fail(CreateFailed);
      return;
    }
    var answers := NamedAnswers(projectName, c);
    GenerateBackend(disk, projectPath, answers);
    GenerateFrontend(disk, projectPath, answers);
    if answers.docker {
      GenerateDocker(disk, projectPath, answers);
    }
    r := Pass;
  }

  // ---------------------------------------------------- paths kept apart

  /** Paths under two sibling directories whose names start differently are different. */
  lemma SiblingsApart(root: string, x: string, y: string, k1: string, k2: string)
    requires x != [] && y != [] && x[0] != y[0]
    requires StartsWith(k1, JoinPath(root, x)) && StartsWith(k2, JoinPath(root, y))
    ensures k1 != k2
  {
    assert k1[|root| + 1] == JoinPath(root, x)[|root| + 1] == x[0];
    assert k2[|root| + 1] == JoinPath(root, y)[|root| + 1] == y[0];
  }

  lemma JoinUnder(a: string, b: string)
    ensures StartsWith(JoinPath(a, b), a)
  {
    assert JoinPath(a, b)[..|a|] == a;
  }

  lemma StartsWithTrans(s: string, t: string, p: string)
    requires StartsWith(s, t) && StartsWith(t, p)
    ensures StartsWith(s, p)
  {
    assert s[..|p|] == t[..|t|][..|p|];
  }

  /** Every file the structure rule writes lies under its root. */
  lemma LayoutUnder(root: string, entries: seq<Entry>, k: string)
    requires k in LayoutFiles(root, entries)
    ensures StartsWith(k, root)
  {
    OnlyFileItemsWritten(root, entries, k);
    var i, j :| 0 <= i < |entries| && 0 <= j < |entries[i].items| &&
      IsFileItem(entries[i].items[j]) && k == JoinPath(JoinPath(root, entries[i].base), entries[i].items[j]);
    JoinUnder(root, entries[i].base);
    JoinUnder(JoinPath(root, entries[i].base), entries[i].items[j]);
    StartsWithTrans(k, JoinPath(root, entries[i].base), root);
  }

  /** A path under `projectPath/x` survives the backend and frontend generators when `x` starts with neither `b` nor `f`. */
  lemma OutsideKept(files: map<string, Content>, projectPath: string, pom: string, package: string, x: string, k: string)
    requires x != [] && x[0] != 'b' && x[0] != 'f'
    requires StartsWith(k, JoinPath(projectPath, x))
    ensures Kept(files, FrontendFiles(BackendFiles(files, projectPath, pom), projectPath, package), k)
  {
    var bp := BackendPath(projectPath);
    var fp := FrontendPath(projectPath);
    JoinUnder(bp, "pom.xml");
    SiblingsApart(projectPath, x, "backend", k, PomPath(projectPath));
    JoinUnder(fp, "package.json");
    SiblingsApart(projectPath, x, "frontend", k, PackagePath(projectPath));
    if k in LayoutFiles(bp, Generators.BackendStructure) {
      LayoutUnder(bp, Generators.BackendStructure, k);
      SiblingsApart(projectPath, x, "backend", k, k);
    }
    if k in LayoutFiles(fp, FrontendStructure) {
      LayoutUnder(fp, FrontendStructure, k);
      SiblingsApart(projectPath, x, "frontend", k, k);
    }
  }

  /** `k` holds the same, or is still absent, after `files` became `after`. */
  predicate Kept(files: map<string, Content>, after: map<string, Content>, k: string)
  {
    (k in after <==> k in files) && (k in files ==> after[k] == files[k])
  }

  lemma NotDocker(pp: string, x: string, k: string)
    requires x != [] && x[0] != 'd' && StartsWith(k, JoinPath(pp, x))
    ensures k != DockerfileBackendPath(pp) && k != DockerfileFrontendPath(pp) && k != ComposePath(pp)
  {
    JoinUnder(DockerPath(pp), "Dockerfile.backend");
    JoinUnder(DockerPath(pp), "Dockerfile.frontend");
    JoinUnder(DockerPath(pp), "docker-compose.yml");
    SiblingsApart(pp, x, "docker", k, DockerfileBackendPath(pp));
    SiblingsApart(pp, x, "docker", k, DockerfileFrontendPath(pp));
    SiblingsApart(pp, x, "docker", k, ComposePath(pp));
  }

  lemma DockerLeafKept(files: map<string, Content>, pp: string, pom: string, package: string, leaf: string)
    ensures Kept(files, FrontendFiles(BackendFiles(files, pp, pom), pp, package), JoinPath(DockerPath(pp), leaf))
  {
    JoinUnder(DockerPath(pp), leaf);
    OutsideKept(files, pp, pom, package, "docker", JoinPath(DockerPath(pp), leaf));
  }

  /** package.json of a scaffold holds the text it was given, whether or not docker files follow. */
  lemma ScaffoldPackage(files: map<string, Content>, dirs: set<string>, pp: string, docker: bool, t: Texts)
    ensures Scaffold(files, dirs, pp, docker, t).files[PackagePath(pp)] == Text(t.package)
  {
    if docker {
      JoinUnder(FrontendPath(pp), "package.json");
      NotDocker(pp, "frontend", PackagePath(pp));
    }
  }

  /** pom.xml of a scaffold holds the text it was given: the frontend and docker steps write elsewhere. */
  lemma ScaffoldPom(files: map<string, Content>, dirs: set<string>, pp: string, docker: bool, t: Texts)
    ensures Scaffold(files, dirs, pp, docker, t).files[PomPath(pp)] == Text(t.pom)
  {
    FrontendKeepsPom(files, pp, t.pom, t.package);
    var files1 := FrontendFiles(BackendFiles(files, pp, t.pom), pp, t.package);
    if docker {
      JoinUnder(BackendPath(pp), "pom.xml");
      NotDocker(pp, "backend", PomPath(pp));
      assert DockerFiles(files1, pp, t.backendDockerfile, t.frontendDockerfile, t.compose)[PomPath(pp)] == files1[PomPath(pp)];
    }
  }

  lemma FrontendKeepsPom(files: map<string, Content>, pp: string, pom: string, package: string)
    ensures FrontendFiles(BackendFiles(files, pp, pom), pp, package)[PomPath(pp)] == Text(pom)
  {
    var fp := FrontendPath(pp);
    JoinUnder(BackendPath(pp), "pom.xml");
    JoinUnder(fp, "package.json");
    SiblingsApart(pp, "backend", "frontend", PomPath(pp), PackagePath(pp));
    if PomPath(pp) in LayoutFiles(fp, FrontendStructure) {
      LayoutUnder(fp, FrontendStructure, PomPath(pp));
      SiblingsApart(pp, "backend", "frontend", PomPath(pp), PomPath(pp));
    }
  }

  /** Without docker, the three docker paths of a scaffold are untouched. */
  lemma ScaffoldNoDocker(files: map<string, Content>, dirs: set<string>, pp: string, t: Texts)
    ensures var r := Scaffold(files, dirs, pp, false, t);
      Kept(files, r.files, DockerfileBackendPath(pp)) &&
      Kept(files, r.files, DockerfileFrontendPath(pp)) && Kept(files, r.files, ComposePath(pp))
  {
    DockerLeafKept(files, pp, t.pom, t.package, "Dockerfile.backend");
    DockerLeafKept(files, pp, t.pom, t.package, "Dockerfile.frontend");
    DockerLeafKept(files, pp, t.pom, t.package, "docker-compose.yml");
  }

  /** With docker, the three docker paths of a scaffold hold their texts and docker/ exists. */
  lemma ScaffoldDocker(files: map<string, Content>, dirs: set<string>, pp: string, t: Texts)
    ensures var r := Scaffold(files, dirs, pp, true, t);
      DockerPath(pp) in r.dirs && r.files[DockerfileBackendPath(pp)] == Text(t.backendDockerfile) &&
      r.files[DockerfileFrontendPath(pp)] == Text(t.frontendDockerfile) && r.files[ComposePath(pp)] == Text(t.compose)
  {
    var dp := DockerPath(pp);
    JoinApart(dp, "Dockerfile.backend", "docker-compose.yml");
    JoinApart(dp, "Dockerfile.frontend", "docker-compose.yml");
    JoinApart(dp, "Dockerfile.backend", "Dockerfile.frontend");
    assert dp in Ancestors(dp);
  }

  /** Different names give different paths in one directory. */
  lemma JoinApart(a: string, x: string, y: string)
    requires x != y
    ensures JoinPath(a, x) != JoinPath(a, y)
  {
    assert JoinPath(a, x)[|a| + 1..] == x;
    assert JoinPath(a, y)[|a| + 1..] == y;
  }

  // ----------------------------------------------------------- properties

  /** An existing project path is reported and nothing is written or made. */
  lemma ExistingProjectUntouched(files: map<string, Content>, dirs: set<string>, cwd: string, projectName: string, c: Choices)
    requires JoinPath(cwd, projectName) in files || JoinPath(cwd, projectName) in dirs
    ensures CreateRun(files, dirs, cwd, projectName, c) == Run(Fail(AlreadyExists(JoinPath(cwd, projectName))), files, dirs)
  {
  }

  /**
   * A new project path is made before anything is generated, and the
   * backend and frontend directories always follow; without the parent
   * directory the run fails and nothing changes.
   */
  lemma ProjectDirMade(files: map<string, Content>, dirs: set<string>, cwd: string, projectName: string, c: Choices)
    requires JoinPath(cwd, projectName) !in files && JoinPath(cwd, projectName) !in dirs
    ensures var r := CreateRun(files, dirs, cwd, projectName, c);
      var pp := JoinPath(cwd, projectName);
      if Parent(pp) in dirs then r.outcome == Pass && pp in r.dirs && BackendPath(pp) in r.dirs && FrontendPath(pp) in r.dirs
      else r == Run(Fail(CreateFailed), files, dirs)
  {
    var pp := JoinPath(cwd, projectName);
    assert BackendPath(pp) in Ancestors(BackendPath(pp));
    assert FrontendPath(pp) in Ancestors(FrontendPath(pp));
  }

  /**
   * The docker files are generated only when the docker question was
   * answered yes; otherwise none of the three paths under docker/ is
   * touched.
   */
  lemma DockerSkipped(files: map<string, Content>, dirs: set<string>, cwd: string, projectName: string, c: Choices)
    requires JoinPath(cwd, projectName) !in files && JoinPath(cwd, projectName) !in dirs
    requires Parent(JoinPath(cwd, projectName)) in dirs
    requires !c.docker
    ensures var r := CreateRun(files, dirs, cwd, projectName, c);
      var pp := JoinPath(cwd, projectName);
      Kept(files, r.files, DockerfileBackendPath(pp)) &&
      Kept(files, r.files, DockerfileFrontendPath(pp)) && Kept(files, r.files, ComposePath(pp))
  {
    var pp := JoinPath(cwd, projectName);
    ScaffoldNoDocker(files, dirs + {pp}, pp, TextsFor(c.frontend, projectName));
  }

  /**
   * With docker asked for, docker/ is made and holds the two Dockerfiles
   * and the compose file naming the project.
   */
  lemma DockerWritten(files: map<string, Content>, dirs: set<string>, cwd: string, projectName: string, c: Choices)
    requires JoinPath(cwd, projectName) !in files && JoinPath(cwd, projectName) !in dirs
    requires Parent(JoinPath(cwd, projectName)) in dirs
    requires c.docker
    ensures var r := CreateRun(files, dirs, cwd, projectName, c);
      var pp := JoinPath(cwd, projectName);
      DockerPath(pp) in r.dirs && r.files[DockerfileBackendPath(pp)] == Text(BackendDockerfile) &&
      r.files[DockerfileFrontendPath(pp)] == Text(FrontendDockerfile) && r.files[ComposePath(pp)] == Text(ComposeText(projectName))
  {
    var pp := JoinPath(cwd, projectName);
    ScaffoldDocker(files, dirs + {pp}, pp, TextsFor(c.frontend, projectName));
  }

  /**
   * The created project's package.json is the one chosen by the frontend
   * label for the project's name, and pom.xml describes the project.
   */
  lemma CreateNamesProject(files: map<string, Content>, dirs: set<string>, cwd: string, projectName: string, c: Choices)
    requires JoinPath(cwd, projectName) !in files && JoinPath(cwd, projectName) !in dirs
    requires Parent(JoinPath(cwd, projectName)) in dirs
    ensures var r := CreateRun(files, dirs, cwd, projectName, c);
      var pp := JoinPath(cwd, projectName);
      r.files[PackagePath(pp)] == Text(PackageText(c.frontend, projectName)) &&
      r.files[PomPath(pp)] == Text(Generators.BackendPom(projectName))
  {
    var pp := JoinPath(cwd, projectName);
    ScaffoldPackage(files, dirs + {pp}, pp, c.docker, TextsFor(c.frontend, projectName));
    ScaffoldPom(files, dirs + {pp}, pp, c.docker, TextsFor(c.frontend, projectName));
  }

  /**
   * As written, the generators see no project name: the package is named
   * after "undefined" and the pom describes "undefined", so for a known
   * label and any project name other than "undefined" the package.json
   * differs from the one named after the project.
   */
  lemma CreateAsWrittenUndefined(files: map<string, Content>, dirs: set<string>, cwd: string, projectName: string, c: Choices)
    requires JoinPath(cwd, projectName) !in files && JoinPath(cwd, projectName) !in dirs
    requires Parent(JoinPath(cwd, projectName)) in dirs
    ensures var r := CreateAsWritten(files, dirs, cwd, projectName, c);
      var pp := JoinPath(cwd, projectName);
      r.files[PackagePath(pp)] == Text(PackageText(c.frontend, "undefined")) &&
      r.files[PomPath(pp)] == Text(Generators.BackendPom("undefined"))
    ensures KnownFrontend(c.frontend) && projectName != "undefined" ==>
      CreateAsWritten(files, dirs, cwd, projectName, c).files[PackagePath(JoinPath(cwd, projectName))] !=
      CreateRun(files, dirs, cwd, projectName, c).files[PackagePath(JoinPath(cwd, projectName))]
  {
    var pp := JoinPath(cwd, projectName);
    ScaffoldPackage(files, dirs + {pp}, pp, c.docker, TextsFor(c.frontend, "undefined"));
    ScaffoldPom(files, dirs + {pp}, pp, c.docker, TextsFor(c.frontend, "undefined"));
    if KnownFrontend(c.frontend) && projectName != "undefined" {
      CreateNamesProject(files, dirs, cwd, projectName, c);
      NamesDiffer(c.frontend, projectName);
    }
  }

  /** The package.json of the name "undefined" is that of no other name. */
  lemma NamesDiffer(kind: string, name: string)
    requires KnownFrontend(kind) && name != "undefined"
    ensures PackageText(kind, "undefined") != PackageText(kind, name)
  {
    var lines := if kind == "React" then ReactLines else if kind == "Vue.js" then VueLines else AngularLines;
    if PackageText(kind, "undefined") == PackageText(kind, name) {
      assert Package("undefined", lines) == Package(name, lines);
      PackageInjective("undefined", name, lines);
    }
  }

  /** The name is the only part of a package text that varies, so different names give different texts. */
  lemma PackageInjective(a: string, b: string, lines: seq<string>)
    requires Package(a, lines) == Package(b, lines)
    ensures a == b
  {
    PackageHead(a, lines);
    PackageHead(b, lines);
    assert |Package(a, lines)| == |PackageOpen| + |a| + 12 + |Join(lines, '\n')|;
    assert |Package(b, lines)| == |PackageOpen| + |b| + 12 + |Join(lines, '\n')|;
  }

  /** Nothing the generators of this file write depends on the database answer. */
  lemma DatabaseIgnored(files: map<string, Content>, dirs: set<string>, cwd: string, projectName: string, c: Choices, database: string)
    ensures CreateRun(files, dirs, cwd, projectName, c) == CreateRun(files, dirs, cwd, projectName, c.(database := database))
  {
  }

  // ----------------------------------------------------------------- texts

  const ReactLines: seq<string> := [
    @"  ""version"": ""1.0.0"",",
    @"  ""private"": true,",
    @"  ""dependencies"": {",
    @"    ""react"": ""^18.2.0"",",
    @"    ""react-dom"": ""^18.2.0"",",
    @"    ""react-router-dom"": ""^6.3.0"",",
    @"    ""axios"": ""^0.27.2""",
    @"  },",
    @"  ""devDependencies"": {",
    @"    ""@types/react"": ""^18.0.0"",",
    @"    ""@types/react-dom"": ""^18.0.0"",",
    @"    ""typescript"": ""^4.7.0"",",
    @"    ""vite"": ""^3.0.0""",
    @"  }",
    @"}"]

  const VueLines: seq<string> := [
    @"  ""version"": ""1.0.0"",",
    @"  ""private"": true,",
    @"  ""dependencies"": {",
    @"    ""vue"": ""^3.2.0"",",
    @"    ""vue-router"": ""^4.0.0"",",
    @"    ""axios"": ""^0.27.2""",
    @"  },",
    @"  ""devDependencies"": {",
    @"    ""@vitejs/plugin-vue"": ""^3.0.0"",",
    @"    ""typescript"": ""^4.7.0"",",
    @"    ""vite"": ""^3.0.0""",
    @"  }",
    @"}"]

  const AngularLines: seq<string> := [
    @"  ""version"": ""1.0.0"",",
    @"  ""private"": true,",
    @"  ""dependencies"": {",
    @"    ""@angular/core"": ""^14.0.0"",",
    @"    ""@angular/common"": ""^14.0.0"",",
    @"    ""@angular/router"": ""^14.0.0"",",
    @"    ""@angular/forms"": ""^14.0.0"",",
    @"    ""@angular/platform-browser"": ""^14.0.0"",",
    @"    ""@angular/platform-browser-dynamic"": ""^14.0.0""",
    @"  },",
    @"  ""devDependencies"": {",
    @"    ""@angular-devkit/build-angular"": ""^14.0.0"",",
    @"    ""@angular/cli"": ""^14.0.0"",",
    @"    ""typescript"": ""^4.7.0""",
    @"  }",
    @"}"]

  const BackendDockerfileLines: seq<string> := [
    "FROM maven:3.8.4-openjdk-11 AS build",
    "WORKDIR /app",
    "COPY backend/pom.xml .",
    "COPY backend/src ./src",
    "RUN mvn clean package -DskipTests",
    "",
    "FROM openjdk:11-jre-slim",
    "WORKDIR /app",
    "COPY --from=build /app/target/*.jar app.jar",
    "EXPOSE 8080",
    @"ENTRYPOINT [""java"", ""-jar"", ""app.jar""]"]

  const FrontendDockerfileLines: seq<string> := [
    "FROM node:16-alpine AS build",
    "WORKDIR /app",
    "COPY frontend/package*.json ./",
    "RUN npm install",
    "COPY frontend .",
    "RUN npm run build",
    "",
    "FROM nginx:alpine",
    "COPY --from=build /app/dist /usr/share/nginx/html",
    "EXPOSE 80",
    @"CMD [""nginx"", ""-g"", ""daemon off;""]"]

  /** docker-compose.yml up to the database URL. */
  const ComposeHead: string := Join([
    "version: '3.8'",
    "services:",
    "  backend:",
    "    build:",
    "      context: .",
    "      dockerfile: docker/Dockerfile.backend",
    "    ports:",
    @"      - ""8080:8080""",
    "    environment:",
    "      - SPRING_PROFILES_ACTIVE=prod",
    "      - SPRING_DATASOURCE_URL="], '\n')

  /** From the end of the database URL to the db image. */
  const ComposeMidHead: string := Join([
    "",
    "      - SPRING_DATASOURCE_USERNAME=postgres",
    "      - SPRING_DATASOURCE_PASSWORD=postgres",
    "    depends_on:",
    "      - db",
    "",
    "  frontend:",
    "    build:",
    "      context: .",
    "      dockerfile: docker/Dockerfile.frontend",
    "    ports:",
    @"      - ""80:80""",
    "    depends_on:",
    "      - backend",
    "",
    "  db:",
    "    "], '\n')

  /** From the db image to the POSTGRES_DB entry. */
  const ComposeMidTail: string := "\n    environment:\n      - "

  const ComposeMid: string := ComposeMidHead + PostgresImage + ComposeMidTail

  /** After the database name of the db service. */
  const ComposeTail: string := Join([
    "",
    "      - POSTGRES_USER=postgres",
    "      - POSTGRES_PASSWORD=postgres",
    "    volumes:",
    "      - postgres_data:/var/lib/postgresql/data",
    "",
    "volumes:",
    "  postgres_data:"], '\n')
}
