/**
 * src/templates/cli/database.ts: the same properties file as
 * src/utils/setup.ts, but the driver is chosen on the lower-cased type,
 * pom.xml is read without checking that it exists, and the block is
 * inserted without any guard.
 */
module SrcDatabase {
  import opened Wrappers
  import opened JsString
  import opened Files
  import opened PomEdit
  import opened MavenDeps
  import opened Setup

  /** The configuration this file reads; the database type is required here. */
  datatype SrcConfig = SrcConfig(
    projectPath: string,
    dbType: string,
    host: string,
    port: string,
    username: string,
    password: string)

  /** The properties are those of setupDatabase in src/utils/setup.ts for the same (present) type. */
  function SrcProps(c: SrcConfig): string
  {
    Props(DatabaseConfig(Some(c.dbType), c.host, c.port, c.username, c.password))
  }

  /** The driver, chosen on `type.toLowerCase()`; anything that is not one of the three gets H2. */
  function SrcDependencyFor(dbType: string): (dep: Dependency)
    ensures dep == PostgresDriver <==> Lower(dbType) == "postgresql"
    ensures dep == MysqlDriver <==> Lower(dbType) == "mysql"
    ensures dep == MongoStarter <==> Lower(dbType) == "mongodb"
    ensures dep == H2Driver <==> Lower(dbType) !in {"postgresql", "mysql", "mongodb"}
  {
    var t := Lower(dbType);
    if t == "postgresql" then PostgresDriver
    else if t == "mysql" then MysqlDriver
    else if t == "mongodb" then MongoStarter
    else H2Driver
  }

  /** Unlike src/utils/setup.ts, the capitalised label PostgreSQL gets the PostgreSQL driver too. */
  lemma CapitalisedLabelAccepted()
    ensures SrcDependencyFor("PostgreSQL") == PostgresDriver
    ensures DependencyFor(Some("postgresql")) == H2Driver
  {
    LowerPostgres();
  }

  /** Children indented by six spaces, the closing tag by four. */
  const SrcLayout: Layout := Layout("", "      ", "    ")

  function SrcDependency(dbType: string): string
  {
    DependencyXml(SrcDependencyFor(dbType), SrcLayout)
  }

  /**
   * `setupDatabase` on a snapshot: ensure the resources directory, write the
   * properties, read pom.xml (failing when it cannot be read, after the
   * properties were written) and write it back with the block inserted.
   */
  function SrcDatabaseEffect(files: map<string, Content>, dirs: set<string>, c: SrcConfig): Effect
  {
    var files1 := files[PropsPath(c.projectPath) := Text(SrcProps(c))];
    var pomPath := PomPath(c.projectPath);
    match TextAt(files1, DatabaseDirs(dirs, c.projectPath), pomPath)
    case Err(m) => Effect(Fail(m), files1)
    case Ok(pom) => Effect(Pass, files1[pomPath := Text(InsertBlock(pom, SrcDependency(c.dbType)))])
  }

  method SrcSetupDatabase(disk: Disk, c: SrcConfig) returns (r: Outcome)
    modifies disk
    ensures disk.dirs == DatabaseDirs(old(disk.dirs), c.projectPath)
    ensures Effect(r, disk.files) == SrcDatabaseEffect(old(disk.files), old(disk.dirs), c)
  {
    DatabasePaths(c.projectPath);
    disk.EnsureDir(ResourcesPath(c.projectPath));
    r := disk.WriteFile(PropsPath(c.projectPath), Text(SrcProps(c)));
    var pomPath := PomPath(c.projectPath);
    var pom := disk.ReadText(pomPath);
    if pom.Err? {
      r := Fail(pom.msg);
      return;
    }
    r := disk.WriteFile(pomPath, Text(InsertBlock(pom.value, SrcDependency(c.dbType))));
  }

  /**
   * Without a pom.xml the step fails with ENOENT, but only after it has
   * written (and overwritten) application.properties.
   */
  lemma SrcMissingPom(files: map<string, Content>, dirs: set<string>, c: SrcConfig)
    requires PomPath(c.projectPath) !in files && PomPath(c.projectPath) !in dirs
    ensures SrcDatabaseEffect(files, dirs, c).outcome == Fail(EnoentOpen(PomPath(c.projectPath)))
    ensures SrcDatabaseEffect(files, dirs, c).files == files[PropsPath(c.projectPath) := Text(SrcProps(c))]
  {
    DatabasePaths(c.projectPath);
    PomNotAncestor(c.projectPath);
    var files1 := files[PropsPath(c.projectPath) := Text(SrcProps(c))];
    assert PomPath(c.projectPath) !in files1;
  }

  /** Whatever application.properties held before, afterwards it holds exactly the generated text. */
  lemma SrcPropsOverwritten(files: map<string, Content>, dirs: set<string>, c: SrcConfig)
    ensures SrcDatabaseEffect(files, dirs, c).files[PropsPath(c.projectPath)] == Text(SrcProps(c))
  {
    DatabasePaths(c.projectPath);
  }

  /**
   * The insertion is unguarded: a second run on a pom with
   * `</dependencies>` adds a second copy of the block.
   */
  lemma SrcSecondRunDuplicates(files: map<string, Content>, dirs: set<string>, c: SrcConfig, pom: string)
    requires PomPath(c.projectPath) in files && files[PomPath(c.projectPath)] == Text(pom)
    requires Includes(pom, Closing)
    ensures var once := SrcDatabaseEffect(files, dirs, c);
      var twice := SrcDatabaseEffect(once.files, DatabaseDirs(dirs, c.projectPath), c);
      once.files[PomPath(c.projectPath)] == Text(InsertBlock(pom, SrcDependency(c.dbType))) &&
      twice.files[PomPath(c.projectPath)]
        == Text(InsertBlock(InsertBlock(pom, SrcDependency(c.dbType)), SrcDependency(c.dbType))) &&
      twice.files != once.files
  {
    DatabasePaths(c.projectPath);
    var pomPath := PomPath(c.projectPath);
    var dep := SrcDependency(c.dbType);
    var once := SrcDatabaseEffect(files, dirs, c);
    var files1 := files[PropsPath(c.projectPath) := Text(SrcProps(c))];
    assert files1[pomPath] == Text(pom);
    assert once.files[pomPath] == Text(InsertBlock(pom, dep));
    var twice := SrcDatabaseEffect(once.files, DatabaseDirs(dirs, c.projectPath), c);
    var files2 := once.files[PropsPath(c.projectPath) := Text(SrcProps(c))];
    assert files2[pomPath] == Text(InsertBlock(pom, dep));
    InsertBlockTwice(pom, dep);
    assert twice.files[pomPath] != once.files[pomPath];
  }
}
