/**
 * The per-environment Spring profiles written by the deployment step
 * (templates/cli/deployment.ts): the database URL, the default
 * credentials and the dev/test/prod choice of schema and logging settings.
 */
module Deployment {
  import opened Wrappers
  import opened JsString
  import opened Files

  /** The part of the configuration the profiles read. */
  datatype DeployConfig = DeployConfig(projectName: string, databaseType: string)

  predicate Supported(databaseType: string)
  {
    databaseType == "PostgreSQL" || databaseType == "MySQL" || databaseType == "MongoDB"
  }

  /** Scheme, host and port of each supported database's default local server. */
  function Endpoint(databaseType: string): string
    requires Supported(databaseType)
  {
    if databaseType == "PostgreSQL" then "jdbc:postgresql://localhost:5432/"
    else if databaseType == "MySQL" then "jdbc:mysql://localhost:3306/"
    else "mongodb://localhost:27017/"
  }

  /** The database name: the lower-cased project name and the environment. */
  function DbName(config: DeployConfig, environment: string): string
  {
    Lower(config.projectName) + "_" + environment
  }

  /** `getDatabaseUrl`. */
  function DatabaseUrl(config: DeployConfig, environment: string): string
  {
    var dbName := DbName(config, environment);
    match config.databaseType
    case "PostgreSQL" => "jdbc:postgresql://localhost:5432/" + dbName
    case "MySQL" => "jdbc:mysql://localhost:3306/" + dbName
    case "MongoDB" => "mongodb://localhost:27017/" + dbName
    case _ => ""
  }

  /** `getDefaultUsername`: root for the two SQL servers, empty otherwise. */
  function DefaultUsername(config: DeployConfig): (r: string)
    ensures r == "root" <==> config.databaseType == "PostgreSQL" || config.databaseType == "MySQL"
    ensures r != "root" ==> r == ""
  {
    match config.databaseType
    case "PostgreSQL" => "root"
    case "MySQL" => "root"
    case "MongoDB" => ""
    case _ => ""
  }

  /** `getDefaultPassword`: always the same as the default user name. */
  function DefaultPassword(config: DeployConfig): (r: string)
    ensures r == DefaultUsername(config)
  {
    match config.databaseType
    case "PostgreSQL" => "root"
    case "MySQL" => "root"
    case "MongoDB" => ""
    case _ => ""
  }

  /** The three supported types share one URL shape: endpoint, then the database name. */
  lemma DatabaseUrlShape(config: DeployConfig, environment: string)
    ensures Supported(config.databaseType) ==>
      DatabaseUrl(config, environment) == Endpoint(config.databaseType) + DbName(config, environment)
    ensures !Supported(config.databaseType) ==> DatabaseUrl(config, environment) == ""
  {
  }

  /** The URL is empty exactly for the unsupported types (H2, Other, anything else). */
  lemma DatabaseUrlEmptyIff(config: DeployConfig, environment: string)
    ensures DatabaseUrl(config, environment) == "" <==> !Supported(config.databaseType)
  {
    if Supported(config.databaseType) {
      DatabaseUrlShape(config, environment);
      assert |DatabaseUrl(config, environment)| >= |Endpoint(config.databaseType)| > 0;
    }
  }

  /** Different environments never share a database URL. */
  lemma DatabaseUrlSeparatesEnvironments(config: DeployConfig, e1: string, e2: string)
    requires Supported(config.databaseType)
    requires DatabaseUrl(config, e1) == DatabaseUrl(config, e2)
    ensures e1 == e2
  {
    var prefix := Endpoint(config.databaseType) + Lower(config.projectName) + "_";
    assert DatabaseUrl(config, e1) == prefix + e1 by {
      DatabaseUrlShape(config, e1);
    }
    assert DatabaseUrl(config, e2) == prefix + e2 by {
      DatabaseUrlShape(config, e2);
    }
    CancelPrefix(prefix, e1, e2);
  }

  /** Two supported types give the same database name; only the endpoint differs. */
  lemma SameDatabaseName(c1: DeployConfig, c2: DeployConfig, environment: string)
    requires Supported(c1.databaseType) && Supported(c2.databaseType)
    requires c1.projectName == c2.projectName
    ensures DatabaseUrl(c1, environment)[|Endpoint(c1.databaseType)|..]
         == DatabaseUrl(c2, environment)[|Endpoint(c2.databaseType)|..]
  {
    DatabaseUrlShape(c1, environment);
    DatabaseUrlShape(c2, environment);
    var n := DbName(c1, environment);
    assert (Endpoint(c1.databaseType) + n)[|Endpoint(c1.databaseType)|..] == n;
    assert (Endpoint(c2.databaseType) + n)[|Endpoint(c2.databaseType)|..] == n;
  }

  // ---------------------------------------------------------------- profiles

  /** The values one profile file carries. */
  datatype Profile = Profile(
    active: string,
    url: string,
    username: string,
    password: string,
    ddlAuto: string,
    showSql: string,
    rootLevel: string,
    appLevel: string,
    appPackage: string)

  /** The profile `setupEnvironments` writes for `environment` (dev, test or prod). */
  function ProfileFor(config: DeployConfig, environment: string): (p: Profile)
    ensures p.url == "" <==> !Supported(config.databaseType)
    ensures p.password == p.username
    ensures p.username == "root" <==> config.databaseType == "PostgreSQL" || config.databaseType == "MySQL"
    ensures p.ddlAuto == "update" <==> p.showSql == "true"
  {
    DatabaseUrlEmptyIff(config, environment);
    var dev := environment == "dev";
    Profile(
      environment,
      DatabaseUrl(config, environment),
      DefaultUsername(config),
      DefaultPassword(config),
      if dev then "update" else "validate",
      if dev then "true" else "false",
      if dev then "INFO" else "WARN",
      if dev then "DEBUG" else "INFO",
      Lower(config.projectName))
  }

  /** The dev profile updates the schema and logs SQL; test and prod validate it and do not. */
  lemma ProfileSettings(config: DeployConfig)
    ensures ProfileFor(config, "dev").ddlAuto == "update" && ProfileFor(config, "dev").showSql == "true"
    ensures ProfileFor(config, "dev").rootLevel == "INFO" && ProfileFor(config, "dev").appLevel == "DEBUG"
    ensures forall e :: e in {"test", "prod"} ==>
      ProfileFor(config, e).ddlAuto == "validate" && ProfileFor(config, e).showSql == "false" &&
      ProfileFor(config, e).rootLevel == "WARN" && ProfileFor(config, e).appLevel == "INFO"
  {
  }

  /** Each profile's URL ends with its own environment name. */
  lemma ProfileUrlEmbedsEnvironment(config: DeployConfig, environment: string)
    requires Supported(config.databaseType)
    ensures EndsWith(ProfileFor(config, environment).url, "_" + environment)
  {
    DatabaseUrlShape(config, environment);
    var url := ProfileFor(config, environment).url;
    var pre := Endpoint(config.databaseType) + Lower(config.projectName);
    assert url == pre + ("_" + environment);
    assert url[|url| - |"_" + environment|..] == "_" + environment;
  }

  predicate EndsWith(s: string, suffix: string)
  {
    |suffix| <= |s| && s[|s| - |suffix|..] == suffix
  }

  /** The YAML text of one profile file. */
  function ProfileYaml(p: Profile): string
  {
    @"
spring:
  profiles:
    active: " + p.active + @"
  datasource:
    url: " + p.url + @"
    username: " + p.username + @"
    password: " + p.password + @"
  jpa:
    hibernate:
      ddl-auto: " + p.ddlAuto + @"
    show-sql: " + p.showSql + @"
  logging:
    level:
      root: " + p.rootLevel + @"
      com." + p.appPackage + @": " + p.appLevel + @"
"
  }

  function ResourcesPath(projectPath: string): string
  {
    JoinPath(JoinPath(projectPath, "backend"), "src/main/resources")
  }

  function ProfilePath(projectPath: string, environment: string): string
  {
    JoinPath(ResourcesPath(projectPath), "application-" + environment + ".yml")
  }

  /**
   * `setupEnvironments`: writes application-dev.yml, application-test.yml and
   * application-prod.yml into backend/src/main/resources, which it does not
   * create; when that directory is missing the first write fails.
   */
  method SetupEnvironments(disk: Disk, projectPath: string, config: DeployConfig) returns (r: Outcome)
    modifies disk
    ensures r == if ResourcesPath(projectPath) in old(disk.dirs) then Pass
                 else Fail(EnoentOpen(ProfilePath(projectPath, "dev")))
    ensures disk.files == if r.Fail? then old(disk.files) else old(disk.files)
      [ProfilePath(projectPath, "dev") := Text(ProfileYaml(ProfileFor(config, "dev")))]
      [ProfilePath(projectPath, "test") := Text(ProfileYaml(ProfileFor(config, "test")))]
      [ProfilePath(projectPath, "prod") := Text(ProfileYaml(ProfileFor(config, "prod")))]
    ensures disk.dirs == old(disk.dirs)
  {
    ParentJoin(ResourcesPath(projectPath), "application-" + "dev" + ".yml");
    ParentJoin(ResourcesPath(projectPath), "application-" + "test" + ".yml");
    ParentJoin(ResourcesPath(projectPath), "application-" + "prod" + ".yml");
    r := disk.WriteFile(ProfilePath(projectPath, "dev"), Text(ProfileYaml(ProfileFor(config, "dev"))));
    if r.Fail? {
      return;
    }
    r := disk.WriteFile(ProfilePath(projectPath, "test"), Text(ProfileYaml(ProfileFor(config, "test"))));
    if r.Fail? {
      return;
    }
    r := disk.WriteFile(ProfilePath(projectPath, "prod"), Text(ProfileYaml(ProfileFor(config, "prod"))));
  }
}
