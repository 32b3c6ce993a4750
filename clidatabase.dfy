/**
 * templates/cli/database.ts: `setupDatabase` looks the type up in a table
 * keyed by the lower-case names, writes MongoDB or JDBC properties from the
 * table row, inserts the matching driver block into pom.xml without a
 * guard, and rethrows every error with a French prefix.
 */
module CliDatabase {
  import opened Wrappers
  import opened JsString
  import opened Files
  import opened PomEdit
  import opened MavenDeps
  import opened Setup

  datatype CliDbConfig = CliDbConfig(
    projectPath: string,
    projectName: string,
    dbType: string,
    host: string,
    port: string,
    username: string,
    password: string)

  /** One row of `dbConfig`; the MongoDB row has no driver and no dialect. */
  datatype DbRow = DbRow(url: string, driver: Option<string>, dialect: Option<string>)

  /** `dbConfig[dbType]`, for the four keys of the table. */
  function DbTable(dbType: string): (row: Option<DbRow>)
    ensures row.Some? <==> dbType in {"postgresql", "mysql", "mongodb", "h2"}
    ensures row.Some? ==> (row.value.driver.None? <==> dbType == "mongodb")
  {
    match dbType
    case "postgresql" => Some(DbRow("jdbc:postgresql://localhost:5432/${spring.datasource.database}",
                                    Some("org.postgresql.Driver"), Some("org.hibernate.dialect.PostgreSQLDialect")))
    case "mysql" => Some(DbRow("jdbc:mysql://localhost:3306/${spring.datasource.database}",
                               Some("com.mysql.cj.jdbc.Driver"), Some("org.hibernate.dialect.MySQL8Dialect")))
    case "mongodb" => Some(DbRow("mongodb://localhost:27017/${spring.data.mongodb.database}", None, None))
    case "h2" => Some(DbRow("jdbc:h2:mem:testdb", Some("org.h2.Driver"), Some("org.hibernate.dialect.H2Dialect")))
    case _ => None
  }

  /** `dbDependencies[dbType]`, keyed by the same four names. */
  function DependencyTable(dbType: string): (dep: Option<Dependency>)
    ensures dep.Some? <==> DbTable(dbType).Some?
  {
    match dbType
    case "postgresql" => Some(PostgresDriver)
    case "mysql" => Some(MysqlDriver)
    case "mongodb" => Some(MongoStarter)
    case "h2" => Some(H2Driver)
    case _ => None
  }

  /** Each block starts on a new line indented by four spaces; children by six. */
  const CliLayout: Layout := Layout("\n    ", "      ", "    ")

  /** `${dbDependencies[dbType]}`. */
  function DependencyText(dbType: string): string
  {
    match DependencyTable(dbType)
    case Some(d) => DependencyXml(d, CliLayout)
    case None => "undefined"
  }

  // ------------------------------------------------------------ properties

  /** One `key=value` line of application.properties. */
  datatype Prop = Prop(key: string, value: string)

  /** The text: a leading newline, then one line per property, each ending in a newline. */
  function RenderProps(ps: seq<Prop>): string
  {
    "\n" + PropLines(ps)
  }

  function PropLines(ps: seq<Prop>): string
    decreases |ps|
  {
    if ps == [] then "" else ps[0].key + "=" + ps[0].value + "\n" + PropLines(ps[1..])
  }

  /** The value of the first line with key `k`. */
  function PropValue(ps: seq<Prop>, k: string): (v: Option<string>)
    ensures v.Some? <==> exists i :: 0 <= i < |ps| && ps[i].key == k
    decreases |ps|
  {
    if ps == [] then None
    else if ps[0].key == k then Some(ps[0].value)
    else
      var rest := PropValue(ps[1..], k);
      assert rest.Some? ==> exists i :: 0 <= i < |ps| && ps[i].key == k by {
        if rest.Some? {
          var j :| 0 <= j < |ps[1..]| && ps[1..][j].key == k;
          assert ps[j + 1].key == k;
        }
      }
      rest
  }

  /** `${x}` of a possibly missing table field. */
  function Field(x: Option<string>): string
  {
    Interp(x)
  }

  function MongoProps(c: CliDbConfig, row: DbRow): seq<Prop>
  {
    [ Prop("spring.data.mongodb.uri", row.url),
      Prop("spring.data.mongodb.database", Lower(c.projectName)),
      Prop("spring.data.mongodb.host", c.host),
      Prop("spring.data.mongodb.port", c.port) ]
  }

  function JdbcProps(c: CliDbConfig, row: DbRow): seq<Prop>
  {
    [ Prop("spring.datasource.url", row.url),
      Prop("spring.datasource.username", c.username),
      Prop("spring.datasource.password", c.password),
      Prop("spring.datasource.driver-class-name", Field(row.driver)),
      Prop("spring.jpa.database-platform", Field(row.dialect)),
      Prop("spring.jpa.hibernate.ddl-auto", "update"),
      Prop("spring.jpa.show-sql", "true"),
      Prop("spring.jpa.properties.hibernate.format_sql", "true") ]
  }

  function PropsFor(c: CliDbConfig, row: DbRow): seq<Prop>
  {
    if c.dbType == "mongodb" then MongoProps(c, row) else JdbcProps(c, row)
  }

  /** The first line whose key is `k` gives the value. */
  lemma {:induction false} PropValueFirst(ps: seq<Prop>, i: nat, k: string)
    requires i < |ps| && ps[i].key == k
    requires forall j :: 0 <= j < i ==> ps[j].key != k
    ensures PropValue(ps, k) == Some(ps[i].value)
    decreases i
  {
    if i > 0 {
      PropValueFirst(ps[1..], i - 1, k);
    }
  }

  /**
   * MongoDB gets the `spring.data.mongodb.*` keys, its database named after
   * the lower-cased project, and no driver or dialect; the other types get
   * the driver and dialect of their own table row.
   */
  lemma PropsChoice(c: CliDbConfig)
    requires DbTable(c.dbType).Some?
    ensures var ps := PropsFor(c, DbTable(c.dbType).value);
      c.dbType == "mongodb" ==>
        PropValue(ps, "spring.data.mongodb.database") == Some(Lower(c.projectName)) &&
        PropValue(ps, "spring.datasource.driver-class-name").None? &&
        PropValue(ps, "spring.jpa.database-platform").None?
    ensures var row := DbTable(c.dbType).value; var ps := PropsFor(c, row);
      c.dbType != "mongodb" ==>
        PropValue(ps, "spring.datasource.driver-class-name") == Some(row.driver.value) &&
        PropValue(ps, "spring.jpa.database-platform") == Some(row.dialect.value) &&
        PropValue(ps, "spring.datasource.url") == Some(row.url)
  {
    var row := DbTable(c.dbType).value;
    if c.dbType == "mongodb" {
      MongoLookups(c, row);
    } else {
      JdbcLookups(c, row);
    }
  }

  lemma MongoLookups(c: CliDbConfig, row: DbRow)
    ensures PropValue(MongoProps(c, row), "spring.data.mongodb.database") == Some(Lower(c.projectName))
    ensures PropValue(MongoProps(c, row), "spring.datasource.driver-class-name").None?
    ensures PropValue(MongoProps(c, row), "spring.jpa.database-platform").None?
  {
    var ps := MongoProps(c, row);
    assert |ps[0].key| == 23;
    PropValueFirst(ps, 1, "spring.data.mongodb.database");
    forall i | 0 <= i < |ps|
      ensures |ps[i].key| < 29
    {
    }
  }

  lemma JdbcLookups(c: CliDbConfig, row: DbRow)
    requires row.driver.Some? && row.dialect.Some?
    ensures PropValue(JdbcProps(c, row), "spring.datasource.driver-class-name") == Some(row.driver.value)
    ensures PropValue(JdbcProps(c, row), "spring.jpa.database-platform") == Some(row.dialect.value)
    ensures PropValue(JdbcProps(c, row), "spring.datasource.url") == Some(row.url)
  {
    var ps := JdbcProps(c, row);
    assert |ps[0].key| == 21 && |ps[1].key| == 26 && |ps[2].key| == 26 && |ps[3].key| == 35;
    PropValueFirst(ps, 3, "spring.datasource.driver-class-name");
    PropValueFirst(ps, 4, "spring.jpa.database-platform");
  }

  // --------------------------------------------------------- setupDatabase

  const ErrorPrefix: string := "Erreur lors de la configuration de la base de données: "

  function Unsupported(dbType: string): string
  {
    "Type de base de données non supporté: " + dbType
  }

  /** What the `catch` rethrows. */
  function Wrapped(message: string): string
  {
    ErrorPrefix + message
  }

  /**
   * `setupDatabase` on a snapshot: ensure the resources directory, look up
   * the type, write the properties, read pom.xml and write it back with the
   * block inserted; any failure becomes the prefixed error.
   */
  function CliDatabaseEffect(files: map<string, Content>, dirs: set<string>, c: CliDbConfig): Effect
  {
    match DbTable(c.dbType)
    case None => Effect(Fail(Wrapped(Unsupported(c.dbType))), files)
    case Some(row) =>
      var files1 := files[PropsPath(c.projectPath) := Text(RenderProps(PropsFor(c, row)))];
      var pomPath := PomPath(c.projectPath);
      match TextAt(files1, DatabaseDirs(dirs, c.projectPath), pomPath)
      case Err(m) => Effect(Fail(Wrapped(m)), files1)
      case Ok(pom) => Effect(Pass, files1[pomPath := Text(InsertBlock(pom, DependencyText(c.dbType)))])
  }

  method CliSetupDatabase(disk: Disk, c: CliDbConfig) returns (r: Outcome)
    modifies disk
    ensures disk.dirs == DatabaseDirs(old(disk.dirs), c.projectPath)
    ensures Effect(r, disk.files) == CliDatabaseEffect(old(disk.files), old(disk.dirs), c)
  {
    DatabasePaths(c.projectPath);
    var resourcesPath := ResourcesPath(c.projectPath);
    disk.EnsureDir(resourcesPath);
    var row := DbTable(c.dbType);
    if row.None? {
      r := Fail(Wrapped(Unsupported(c.dbType)));
      return;
    }
    var props := RenderProps(PropsFor(c, row.value));
    disk.EnsureDir(resourcesPath);
    r := disk.WriteFile(PropsPath(c.projectPath), Text(props));
    var pomPath := PomPath(c.projectPath);
    var pom := disk.ReadText(pomPath);
    if pom.Err? {
      r := Fail(Wrapped(pom.msg));
      return;
    }
    r := disk.WriteFile(pomPath, Text(InsertBlock(pom.value, DependencyText(c.dbType))));
  }

  /**
   * Only the four lower-case keys are accepted; any other type, 'PostgreSQL'
   * included, fails before a file is written.
   */
  lemma UnsupportedWritesNothing(files: map<string, Content>, dirs: set<string>, c: CliDbConfig)
    requires c.dbType !in {"postgresql", "mysql", "mongodb", "h2"}
    ensures CliDatabaseEffect(files, dirs, c)
         == Effect(Fail(ErrorPrefix + "Type de base de données non supporté: " + c.dbType), files)
  {
    assert DbTable(c.dbType).None?;
    assert Wrapped(Unsupported(c.dbType)) == ErrorPrefix + "Type de base de données non supporté: " + c.dbType;
  }

  /** Every failure carries the prefix. */
  lemma ErrorsPrefixed(files: map<string, Content>, dirs: set<string>, c: CliDbConfig)
    ensures CliDatabaseEffect(files, dirs, c).outcome.Fail? ==>
      StartsWith(CliDatabaseEffect(files, dirs, c).outcome.msg, ErrorPrefix)
  {
    var e := CliDatabaseEffect(files, dirs, c);
    if e.outcome.Fail? {
      var m: string;
      if DbTable(c.dbType).None? {
        m := Unsupported(c.dbType);
      } else {
        var row := DbTable(c.dbType).value;
        var files1 := files[PropsPath(c.projectPath) := Text(RenderProps(PropsFor(c, row)))];
        m := TextAt(files1, DatabaseDirs(dirs, c.projectPath), PomPath(c.projectPath)).msg;
      }
      assert e.outcome.msg == Wrapped(m);
      assert Wrapped(m)[..|ErrorPrefix|] == ErrorPrefix;
    }
  }

  /** A supported type inserts its own block before the first `</dependencies>` of a text pom. */
  lemma SupportedInsertsOwnBlock(files: map<string, Content>, dirs: set<string>, c: CliDbConfig, pom: string)
    requires DbTable(c.dbType).Some?
    requires PomPath(c.projectPath) in files && files[PomPath(c.projectPath)] == Text(pom)
    ensures CliDatabaseEffect(files, dirs, c).outcome == Pass
    ensures CliDatabaseEffect(files, dirs, c).files[PomPath(c.projectPath)]
         == Text(InsertBlock(pom, DependencyXml(DependencyTable(c.dbType).value, CliLayout)))
  {
    DatabasePaths(c.projectPath);
    var row := DbTable(c.dbType).value;
    var files1 := files[PropsPath(c.projectPath) := Text(RenderProps(PropsFor(c, row)))];
    assert files1[PomPath(c.projectPath)] == Text(pom);
  }
}
