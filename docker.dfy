/**
 * src/templates/cli/docker.ts: `setupDocker` writes a Dockerfile and a
 * docker-compose.yml at the project root when Docker deployment is on.
 * The db service is chosen on the exact labels PostgreSQL and MySQL; every
 * other type gets MongoDB.
 */
module SrcDocker {
  import opened Wrappers
  import opened JsString
  import opened Files
  import opened Compose
  import opened Setup

  /** The database settings the compose file reads. */
  datatype DockerDb = DockerDb(dbType: string, port: string, username: string, password: string)

  /**
   * `deployment` and `database` may be missing: `docker` is None without a
   * `deployment` object, and `database` is None without a `database` one.
   */
  datatype DockerConfig = DockerConfig(projectPath: string, docker: Option<bool>, database: Option<DockerDb>)

  /** `config.deployment?.docker` is truthy. */
  predicate DockerOn(c: DockerConfig)
  {
    c.docker == Some(true)
  }

  /** `config.database?.type`. */
  function DbType(c: DockerConfig): Option<string>
  {
    if c.database.Some? then Some(c.database.value.dbType) else None
  }

  /** The three ternaries over `config.database?.type`. */
  function ServiceForLabel(dbType: Option<string>): (svc: DbService)
    ensures svc == Postgres <==> dbType == Some("PostgreSQL")
    ensures svc == MySql <==> dbType == Some("MySQL")
    ensures svc == Mongo <==> dbType != Some("PostgreSQL") && dbType != Some("MySQL")
  {
    if dbType == Some("PostgreSQL") then Postgres
    else if dbType == Some("MySQL") then MySql
    else Mongo
  }

  /** `${config.database?.port}`, `${…username}`, `${…password}`: "undefined" without a database. */
  function PortText(c: DockerConfig): string
  {
    Interp(if c.database.Some? then Some(c.database.value.port) else None)
  }

  function UserText(c: DockerConfig): string
  {
    Interp(if c.database.Some? then Some(c.database.value.username) else None)
  }

  function PasswordText(c: DockerConfig): string
  {
    Interp(if c.database.Some? then Some(c.database.value.password) else None)
  }

  function ComposeText(c: DockerConfig): string
  {
    ComposeYaml(ServiceForLabel(DbType(c)), PortMapping(PortText(c), PortText(c)), UserText(c), PasswordText(c))
  }

  function DockerfilePath(c: DockerConfig): string
  {
    JoinPath(c.projectPath, "Dockerfile")
  }

  function ComposePath(c: DockerConfig): string
  {
    JoinPath(c.projectPath, "docker-compose.yml")
  }

  /** `setupDocker` on a snapshot: nothing when Docker is off, otherwise the two writes in order. */
  function DockerEffect(files: map<string, Content>, dirs: set<string>, c: DockerConfig): Effect
  {
    if !DockerOn(c) then Effect(Pass, files)
    else WriteBoth(files, dirs, DockerfilePath(c), Text(Dockerfile), ComposePath(c), Text(ComposeText(c)))
  }

  /** Two awaited writes in a row: the second is not attempted when the first fails. */
  function WriteBoth(files: map<string, Content>, dirs: set<string>, a: string, ca: Content, b: string, cb: Content): Effect
  {
    if Parent(a) !in dirs then Effect(Fail(EnoentOpen(a)), files)
    else if Parent(b) !in dirs then Effect(Fail(EnoentOpen(b)), files[a := ca])
    else Effect(Pass, files[a := ca][b := cb])
  }

  method SetupDocker(disk: Disk, c: DockerConfig) returns (r: Outcome)
    modifies disk
    ensures Effect(r, disk.files) == DockerEffect(old(disk.files), old(disk.dirs), c)
    ensures disk.dirs == old(disk.dirs)
  {
    if !DockerOn(c) {
      return Pass;
    }
    r := disk.WriteFile(DockerfilePath(c), Text(Dockerfile));
    if r.Fail? {
      return;
    }
    r := disk.WriteFile(ComposePath(c), Text(ComposeText(c)));
  }

  /** Without Docker deployment no file is written. */
  lemma NothingWithoutDocker(files: map<string, Content>, dirs: set<string>, c: DockerConfig)
    requires !DockerOn(c)
    ensures DockerEffect(files, dirs, c) == Effect(Pass, files)
  {
  }

  /**
   * With Docker on and an existing project directory, exactly the two files
   * at the project root are added or replaced, and nothing else changes.
   */
  lemma ExactlyTwoFiles(files: map<string, Content>, dirs: set<string>, c: DockerConfig)
    requires DockerOn(c) && c.projectPath in dirs
    ensures var e := DockerEffect(files, dirs, c);
      e.outcome == Pass &&
      e.files.Keys == files.Keys + {DockerfilePath(c), ComposePath(c)} &&
      e.files[DockerfilePath(c)] == Text(Dockerfile) &&
      e.files[ComposePath(c)] == Text(ComposeText(c)) &&
      (forall p :: p in files && p != DockerfilePath(c) && p != ComposePath(c) ==> e.files[p] == files[p])
  {
    ParentJoin(c.projectPath, "Dockerfile");
    ParentJoin(c.projectPath, "docker-compose.yml");
    assert DockerfilePath(c)[|c.projectPath| + 1] != ComposePath(c)[|c.projectPath| + 1];
    BothWritten(files, dirs, DockerfilePath(c), Text(Dockerfile), ComposePath(c), Text(ComposeText(c)));
  }

  /** Two writes to different paths in an existing directory add those two paths and leave every other file alone. */
  lemma BothWritten(files: map<string, Content>, dirs: set<string>, a: string, ca: Content, b: string, cb: Content)
    requires a != b && Parent(a) in dirs && Parent(b) in dirs
    ensures var e := WriteBoth(files, dirs, a, ca, b, cb);
      e.outcome == Pass && e.files.Keys == files.Keys + {a, b} && e.files[a] == ca && e.files[b] == cb &&
      (forall p :: p in files && p != a && p != b ==> e.files[p] == files[p])
  {
  }

  /**
   * Both sides of the port mapping are the configured port (the text
   * "undefined" when no database is configured).
   */
  lemma PortsBothSides(c: DockerConfig)
    requires c.database.Some? ==> ':' !in c.database.value.port
    ensures Split(PortMapping(PortText(c), PortText(c)), ':') == [PortText(c), PortText(c)]
    ensures c.database.Some? ==> PortText(c) == c.database.value.port
  {
    assert ':' !in PortText(c);
    PortMappingSplit(PortText(c), PortText(c));
  }

  /** The lower-case and H2 labels all fall through to MongoDB, as does a missing database. */
  lemma OtherLabelsGetMongo()
    ensures ServiceForLabel(Some("H2")) == Mongo
    ensures ServiceForLabel(Some("postgresql")) == Mongo
    ensures ServiceForLabel(None) == Mongo
    ensures ServiceForLabel(Some("PostgreSQL")).image == "postgres:15-alpine"
    ensures ServiceForLabel(Some("MySQL")).dbVar == "MYSQL_DATABASE"
  {
  }
}
