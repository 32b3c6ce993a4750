# spring-fullstack generators in Dafny

spring-fullstack is a command-line tool that scaffolds a Spring Boot backend
with an optional JavaScript frontend. Almost everything it does is writing
text into files, so this model captures the decisions that choose which
files get written and what goes into them:

- the database-vendor tables (URLs, credentials, Docker images, Maven blocks);
- the README feature lists built by conditional pushes;
- the edits to pom.xml and package.json (inserting a dependency block,
  merging `devDependencies` and `scripts`);
- the `{{…}}` placeholder chains, global and first-occurrence;
- the framework and type dispatch that decides the files written;
- the `git ls-remote --tags` line parser behind `list`;
- `createProject` with the generators of src/commands/create.ts.

The file system is the class `Files.Disk`. It holds a map from path to
content (text or a JSON document) and the set of existing directories.

- Its methods follow Node and fs-extra. `writeFile` fails with ENOENT when
  the parent directory is missing. `ensureDir`/`mkdirp` make a directory and
  all its ancestors. `mkdirSync` fails on an existing path or a missing
  parent.
- Each generator is a method over a `Disk`. Its `ensures` ties the new state
  to a specification function of the old state. That function is usually a
  `Run` (outcome, files, directories) that stops at the first failure, as
  the awaited calls of the source do.
- The lemmas state what the source promises about those functions.

Strings are JavaScript strings, with these operations (module `JsString`):

- `replace` with a string pattern changes the first occurrence only.
- `replace(/…/g)` changes every occurrence, left to right, without
  rescanning.
- `replace` also expands the `$` patterns of the replacement string (`$$`,
  `$&`, `` $` ``, `$'`). `ReplaceFirstExpanding` and `ReplaceAllExpanding`
  do this. `ReplaceFirst` and `ReplaceAll` insert the replacement
  literally, which is what the generators intend. The two agree exactly
  when the replacement holds no `$` (`ReplaceFirstLiteral`,
  `ReplaceAllLiteral`). The rest of the model uses the literal ones; the
  "## Findings" section shows where they part.
- `includes` is a substring test.
- `split` works on one character.
- `toLowerCase` is modelled on ASCII letters only. JavaScript lower-cases
  every Unicode letter, which the model does not (see "## Left out").

Templates with `{{name}}` markers are sequences of literal pieces and
markers (module `Placeholders`). This lets the replace chains be stated
piece by piece.

One module per source file:

| module | source file |
|---|---|
| Deployment | templates/cli/deployment.ts |
| Generators, BackendTemplate, Layout, Compose | src/commands/generators.ts |
| UtilGenerator (with BackendTemplate) | src/utils/generator.ts |
| CliGenerator | templates/cli/generator.ts |
| Setup | src/utils/setup.ts |
| SrcDatabase | src/templates/cli/database.ts |
| CliDatabase | templates/cli/database.ts |
| Testing | src/templates/cli/testing.ts |
| SrcDocker | src/templates/cli/docker.ts |
| TagList | src/commands/list.ts |
| TemplateGen | src/utils/templates.ts |
| SrcFrontend | src/templates/cli/frontend.ts |
| CliFrontend | templates/cli/frontend.ts |
| Create | src/commands/create.ts |

Shared modules:

| module | what it holds |
|---|---|
| Wrappers | `Option`, `Result`, `Outcome` |
| JsString | the JavaScript string operations |
| JsonValue | objects whose properties stay in insertion order, assignment and spread |
| Files | the disk |
| GatedList | lists built by conditional pushes |
| PomEdit | insertion before the first `</dependencies>` |
| MavenDeps | the four driver blocks |

Behaviour of the source that the model makes explicit:

- **pom.xml closers.** The pom chain of `setupBasicStructure` (both
  copies) replaces `{{/if}}` globally after the MySQL opener. That first
  replacement consumes every closer: with PostgreSQL selected, the
  PostgreSQL section loses its opener but keeps a stray `-->`
  (`BackendTemplate.PostgresSectionStrayCloser`).
- **Application.java.** `setupBasicStructure` writes Application.java
  into `com/example/<name>`, a directory it never creates. That write
  succeeds only when the directory is already there
  (`BackendTemplate.SetupBasicStructure`). In src/utils/generator.ts the
  failure is rethrown, so on a new project `generateProject` stops there:
  no later step runs and no README is written
  (`UtilGenerator.GenerateProject`).
- **Swapped frontend arguments.** templates/cli/generator.ts:34 calls
  `setupFrontend(config.frontendFramework, projectPath)`, while
  templates/cli/frontend.ts:5 declares `(projectPath, config)`. The call
  throws a TypeError, so with a frontend chosen no later step runs (see
  Findings).
- **Unguarded insertions.** src/templates/cli/database.ts and
  templates/cli/database.ts insert their driver block without a guard, so
  running either twice duplicates the block.
  - src/utils/setup.ts guards the insertion and is idempotent.
  - src/templates/cli/testing.ts guards the insertion and is idempotent.
- **`__dirname` in src/utils/templates.ts.** The file reads `__dirname`
  at lines 24, 45, 71, 80 and 89 but never defines it. The package runs as
  an ES module: bin/spring-fullstack.js uses `import`, and the sibling
  files derive their own `__dirname` from `import.meta.url`
  (src/utils/setup.ts:6-7). So, for options carrying a string
  `projectName`, `generateTemplate` rejects with a ReferenceError right
  after making its target directory, for the backend and for every
  frontend but None (see Findings). The model keeps that
  behaviour (`TemplateGen.GenerateTemplateAsWritten`). Beside it stands the
  corrected file, with the templates directory supplied, which the rest of
  TemplateGen describes.
- **Vue.js template directory.** In the corrected src/utils/templates.ts,
  the Vue.js templates are copied from `vue.js` but the Vue configuration
  is read from `vue`.
- **Project name in create.ts.** In src/commands/create.ts the generators
  receive the prompt's answers, and the prompt asks for no project name.
  Every `${options.projectName}` therefore renders as `undefined` (see
  Findings). The model's `createProject` passes the name; the as-written
  behaviour is kept beside it.
- **Local generators in create.ts.** src/commands/create.ts has its own
  `generateBackend`, `generateFrontend` and `generateDocker`. It also
  imports those names from ./generators (line 12) and declares them
  again at lines 214, 302 and 396. TypeScript rejects such a clash
  (TS2440), and an ES module may not bind one name twice. The model
  assumes the local definitions, which take `(projectPath, answers)`,
  are the ones that would run.
  - The database answer is never used: compose always describes Postgres.

## Model

| member | source | states |
|---|---|---|
| Deployment.DefaultUsername | templates/cli/deployment.ts:318-328 | the username is "root" exactly for PostgreSQL and MySQL, and empty for every other type |
| Deployment.DefaultPassword | templates/cli/deployment.ts:330-340 | the password equals the username for every configuration |
| Deployment.DatabaseUrlShape | templates/cli/deployment.ts:304-316 | a supported type gives its endpoint followed by the lower-cased project name, `_` and the environment; any other type gives "" |
| Deployment.DatabaseUrlEmptyIff | templates/cli/deployment.ts:313-314 | the URL is empty exactly when the type is not PostgreSQL, MySQL or MongoDB |
| Deployment.DatabaseUrlSeparatesEnvironments | templates/cli/deployment.ts:305 | for a supported type, two environments get the same URL only if they are the same environment |
| Deployment.SameDatabaseName | templates/cli/deployment.ts:305-312 | all three supported vendors use the same database name after their endpoint |
| Deployment.ProfileFor | templates/cli/deployment.ts:16-33 | a profile's URL is empty exactly for an unsupported database type; its password equals its user name, which is `root` exactly for PostgreSQL and MySQL; it updates the schema exactly when it shows SQL |
| Deployment.ProfileSettings | templates/cli/deployment.ts:24-31 | dev uses ddl-auto update, show-sql true and root level INFO; test and prod use validate, show-sql false and root level WARN |
| Deployment.ProfileUrlEmbedsEnvironment | templates/cli/deployment.ts:21 | for a supported type, each profile's URL ends with `_` and its own environment name |
| Deployment.SetupEnvironments | templates/cli/deployment.ts:11-86 | writes the dev, test and prod profiles in that order into the resources directory; fails without writing anything when that directory is missing |
| SrcDocker.ServiceForLabel | src/templates/cli/docker.ts:30-36 | the db service is Postgres exactly for the label PostgreSQL, MySQL exactly for MySQL, and Mongo for every other label or a missing database |
| SrcDocker.SetupDocker | src/templates/cli/docker.ts:5-40 | the files after the call are the docker effect of the configuration: Dockerfile, then docker-compose.yml, at the project root |
| SrcDocker.NothingWithoutDocker | src/templates/cli/docker.ts:6-8 | without a truthy deployment.docker, nothing is written |
| SrcDocker.ExactlyTwoFiles | src/templates/cli/docker.ts:10-39 | with docker on and an existing project directory, exactly Dockerfile and docker-compose.yml are added, with their texts, and every other file keeps its content |
| SrcDocker.PortsBothSides | src/templates/cli/docker.ts:32 | both sides of the db port mapping are the configured database port |
| SrcDocker.OtherLabelsGetMongo | src/templates/cli/docker.ts:30-34 | H2, lower-case postgresql and a missing database all map to Mongo; PostgreSQL gets postgres:15-alpine and MySQL gets MYSQL_DATABASE |
| Generators.FeaturesList | src/commands/generators.ts:362-385 | the list is the entries of the enabled pushes in order: database, REST API, then authentication, frontend, testing and docker when switched on |
| Generators.LaterFeatures | src/commands/generators.ts:372-384 | given the entries of the first three pushes, the frontend, testing and docker pushes complete the list of enabled entries in order |
| Generators.FeaturesStart | src/commands/generators.ts:363-366 | the list always opens with the database entry, then the REST API entry |
| Generators.FeaturesCount | src/commands/generators.ts:368-384 | the length is 2 plus the number of enabled options, so at most 6 |
| Generators.AuthEntryIff | src/commands/generators.ts:368-370 | "Authentication (type)" is listed exactly when authentication is enabled |
| Generators.GenPomClosers | src/commands/generators.ts:264-275 | the pom text this file writes is the template with each marker filled by its first replacement, and every `{{/if}}` of it becomes "" for mysql and `-->` for every other type, because the first global closer replacement consumes them all |
| Generators.ComposeMapping | src/commands/generators.ts:213-219 | postgresql gets postgres:15-alpine, mysql gets mysql:8, every other type gets the Mongo service; the port ternary names the chosen image's own port |
| Generators.ComposePortsMatch | src/commands/generators.ts:215 | the published port and the container port of the db service are the same |
| Generators.GenerateDocker | src/commands/generators.ts:192-223 | writes Dockerfile and then docker-compose.yml at the project path; fails with ENOENT and writes nothing when that directory is missing |
| Generators.PackageFields | src/commands/generators.ts:117-120 | every frontend package.json carries its name, version 1.0.0, private true and its dependencies |
| Generators.FrontendPackageShape | src/commands/generators.ts:106-117 | only react, vue and angular get a package.json, and it is named "frontend" after the directory |
| Generators.GenerateFrontend | src/commands/generators.ts:100-113 | 'none' changes nothing; any other type makes the frontend directory, and writes package.json only for the three known types |
| Generators.GenerateBackend | src/commands/generators.ts:12-98 | makes the backend directory, lays out the structure under it, then writes pom.xml there |
| Generators.BackendLayout | src/commands/generators.ts:17-49 | Application.java and ApplicationTests.java are written as empty files |
| Generators.BackendPackagesAreDirs | src/commands/generators.ts:17-46 | the seven package names without a dot become directories |
| BackendTemplate.PomSectionsWithoutClosers | src/commands/generators.ts:266-275 | once the first global `{{/if}}` replacement has run, the later closer replacements of the pom chain find nothing and the chain reduces to its opener replacements |
| BackendTemplate.PomLaterClosersNoOp | src/commands/generators.ts:264-275 | on any well-formed template the whole pom.xml chain gives the same text as the chain keeping only the first (MySQL) closer replacement |
| BackendTemplate.PomClosersFollowMysql | src/commands/generators.ts:264-275 | every `{{/if}}` of the pom template is replaced by the MySQL closer ("" when MySQL, `-->` otherwise) and every `{{#if postgresql}}` by the PostgreSQL opener |
| BackendTemplate.PomEnvValues | src/commands/generators.ts:266-268 | the first replacement of `{{/if}}` decides the MySQL closer and the PostgreSQL opener is decided by its own test |
| BackendTemplate.PomStepsHead | src/commands/generators.ts:265-268 | the pom chain starts with the project name, then the MySQL opener, the MySQL closer and the PostgreSQL opener, in that order |
| BackendTemplate.PomWithoutName | src/commands/generators.ts:264-275 | over a template without `{{projectName}}` the pom.xml chain is the first-wins fill for every project name |
| BackendTemplate.PostgresSectionStrayCloser | src/commands/generators.ts:266-269 | with PostgreSQL and authentication on, a PostgreSQL section `{{#if postgresql}}body{{/if}}` renders as `body-->` for every project name: its opener vanishes but its closer becomes a comment end |
| BackendTemplate.PostgresSectionFilled | src/commands/generators.ts:266-269 | the same section filled piece by piece gives `body-->` |
| BackendTemplate.PropsStepsHead | src/commands/generators.ts:282-284 | the properties chain starts with the project name, the MySQL opener and the removal of closers |
| BackendTemplate.PropsLeaveNoMarkers | src/commands/generators.ts:281-292 | application.properties keeps no `{{/if}}`, `{{#if mysql}}` or `{{projectName}}` marker |
| BackendTemplate.PomNameSpellsCloser | src/commands/generators.ts:264-275 | the name goes in before the section replacements: a template `{{projectName}}` with the name `{{/if}}` gives the MySQL closer, not the name |
| BackendTemplate.PropsNameSpellsMarker | src/commands/generators.ts:281-292 | the name `{{projectName}}` over a template `{{projectName}}` leaves that marker in application.properties |
| BackendTemplate.PomContentLiteral | src/commands/generators.ts:264-275 | for a project name without `$`, the pom.xml text the source computes is the literal chain's |
| BackendTemplate.PropsContentLiteral | src/commands/generators.ts:281-292 | for a project name without `$`, the application.properties text the source computes is the literal chain's |
| BackendTemplate.PropsNameMatchedKept | src/commands/generators.ts:281-292 | with the project name `$&`, application.properties as the source computes it still holds `{{projectName}}` |
| BackendTemplate.PropsWithoutName | src/commands/generators.ts:281-292 | over a template without `{{projectName}}` the properties chain is the first-wins fill for every project name |
| BackendTemplate.PropsSectionOff | src/commands/generators.ts:283-284 | an off MySQL section of application.properties is kept with `# ` in front of its first line and no closer, for every project name |
| BackendTemplate.MysqlSectionFilled | src/commands/generators.ts:283-284 | the same section filled piece by piece gives `# body` |
| BackendTemplate.SetupBasicStructure | src/commands/generators.ts:255-304 | makes src/main/java and src/main/resources, writes pom.xml and application.properties, and writes Application.java only when its com/example/<name> directory already exists (ENOENT otherwise) |
| BackendTemplate.WriteBuildFiles | src/commands/generators.ts:263-294 | writes pom.xml at the project root and application.properties under resources, changing nothing else |
| BackendTemplate.MainClassDirIsNew | src/commands/generators.ts:255-302 | the directory Application.java is written to is not among those made by the two `ensureDir` calls |
| BackendTemplate.MainClassPathShape | src/commands/generators.ts:301 | Application.java lies in a directory named after the lower-cased project name |
| CliDatabase.DbTable | templates/cli/database.ts:15-37 | the table has a row exactly for postgresql, mysql, mongodb and h2, and only the mongodb row lacks a driver |
| CliDatabase.DependencyTable | templates/cli/database.ts:70-94 | there is a driver block exactly for the types the properties table knows |
| CliDatabase.PropValue | templates/cli/database.ts:42-61 | a key has a value in a properties text exactly when some line sets it |
| CliDatabase.PropValueFirst | templates/cli/database.ts:42-61 | the value of a key is the one given by its first line |
| CliDatabase.PropsChoice | templates/cli/database.ts:42-61 | mongodb gets a mongodb database named after the lower-cased project and no JDBC driver or dialect; every other supported type gets its row's URL, driver and dialect |
| CliDatabase.MongoLookups | templates/cli/database.ts:43-49 | the MongoDB properties name the lower-cased project as database and set no driver or dialect |
| CliDatabase.JdbcLookups | templates/cli/database.ts:50-61 | the JDBC properties carry the row's URL, driver and dialect |
| CliDatabase.CliSetupDatabase | templates/cli/database.ts:7-105 | makes the resources directory, then has exactly the effect of the specification: properties, then the pom insertion, or a prefixed failure |
| CliDatabase.UnsupportedWritesNothing | templates/cli/database.ts:38-103 | an unknown type fails with the prefixed "not supported" message and writes nothing |
| CliDatabase.ErrorsPrefixed | templates/cli/database.ts:102-103 | every failure message starts with the French configuration-error prefix |
| CliDatabase.SupportedInsertsOwnBlock | templates/cli/database.ts:66-101 | for a supported type and an existing pom.xml the call succeeds and pom.xml gets that type's dependency block before its first `</dependencies>` |
| CliGenerator.ProjectPathParts | templates/cli/generator.ts:14 | the project directory is the project name directly under the working directory |
| CliGenerator.FeaturesList | templates/cli/generator.ts:125-159 | the list is the entries of the enabled options in source order |
| CliGenerator.FeaturesCount | templates/cli/generator.ts:125-159 | the list has one entry per enabled option, at most seven, and is empty when nothing is set |
| CliGenerator.ListedByOwnGate | templates/cli/generator.ts:125-159 | each option's entry is listed exactly when that option is on |
| CliGenerator.FeatureEntriesIff | templates/cli/generator.ts:128-142 | the authentication, frontend and database entries are listed exactly when their options are set (a frontend other than None) |
| CliGenerator.DirsOfIff | templates/cli/generator.ts:82-84 | a directory is made exactly when it is an ancestor of one of the joined structure paths |
| CliGenerator.StructureDirsMade | templates/cli/generator.ts:71-84 | all eight structure directories and the project directory exist afterwards |
| CliGenerator.SetupBasicStructure | templates/cli/generator.ts:69-123 | makes the eight directories and writes README.md with the feature list; README fails with ENOENT only when the project directory is absent |
| CliGenerator.GenerateProject | templates/cli/generator.ts:13-67 | as written: makes the project directory, lays out the structure and README, then attempts the enabled steps in source order; a frontend step rejects with the TypeError of the swapped arguments and ends the run, so no later step is attempted |
| CliGenerator.StepGating | templates/cli/generator.ts:23-61 | with the frontend arguments corrected: the frontend step runs exactly when the README lists a frontend, the database step exactly when a type is set, the email step exactly when email is enabled |
| CliGenerator.GenerateProjectCorrected | templates/cli/generator.ts:13-67 | with `setupFrontend(projectPath, config)` as declared: the same directories and README, and exactly the enabled steps, in source order |
| CliGenerator.MakeRootAndStructure | templates/cli/generator.ts:14-20 | `mkdirp` of the project path, then the eight directories and the README, which cannot fail once the root exists |
| CliGenerator.StepGatingAsWritten | templates/cli/generator.ts:23-58 | as written: the database and frontend steps run under their own conditions, email only when enabled and no frontend step is taken, and a frontend step is always the last attempted |
| CliGenerator.LeadStepsStop | templates/cli/generator.ts:23-35 | with a frontend step, the attempted steps are the database, authentication and frontend ones, ending with the frontend, and never email |
| CliGenerator.AllStepsMembers | templates/cli/generator.ts:23-66 | in the full step list, the database, frontend and email steps are listed exactly under their conditions |
| CliGenerator.AsWrittenSkipsTesting | templates/cli/generator.ts:34-50 | with a frontend and testing chosen, the corrected run reaches setupTesting and the run as written does not |
| CliGenerator.EmailArgs | templates/cli/generator.ts:58-65 | the email step gets the database username or "user" when it is empty, and the two fixed localhost URLs |
| CliFrontend.SetupFrontend | templates/cli/frontend.ts:5-24 | the effect is the dispatch on the exact label: React and JavaTemplate have their own effect, every other label none |
| CliFrontend.OtherLabelsDoNothing | templates/cli/frontend.ts:220-228 | Vue.js and Angular reach handlers with empty bodies, and an unknown label takes the empty default of the switch (lines 12-22), so all of them change nothing and succeed |
| CliFrontend.SetupReactFrontend | templates/cli/frontend.ts:26-218 | the React setup has exactly the specified effect: the frontend directory, three root files, src, three source files |
| CliFrontend.WriteThree | templates/cli/frontend.ts:67-124 | three writes in order have the effect of three specified writes, stopping at the first failure |
| CliFrontend.Write3Succeeds | templates/cli/frontend.ts:67-124 | when the three parents exist, the three writes succeed and set exactly those three paths |
| CliFrontend.RootParents | templates/cli/frontend.ts:67-124 | package.json, vite.config.ts and tsconfig.json lie directly in the frontend directory |
| CliFrontend.SrcParents | templates/cli/frontend.ts:181-217 | App.tsx, main.tsx and index.css lie directly in src |
| CliFrontend.ReactPathsDistinct | templates/cli/frontend.ts:67-217 | the six React files have six different paths |
| CliFrontend.ReactWritesSix | templates/cli/frontend.ts:26-218 | the React setup always succeeds, adds exactly the six files, writes App.tsx for the authentication flag and the named package.json, and keeps every other file |
| CliFrontend.StepsWriteSix | templates/cli/frontend.ts:26-218 | whatever the six contents, the React steps add exactly the six paths with those contents and keep every other file |
| CliFrontend.AuthShown | templates/cli/frontend.ts:139-175 | with authentication enabled App.tsx holds the login and register routes and components |
| CliFrontend.AuthBlocksRemoved | templates/cli/frontend.ts:139-175 | App.tsx without authentication is App.tsx with authentication minus exactly the routes block and the components block |
| CliFrontend.SetupJavaTemplateFrontend | templates/cli/frontend.ts:230-287 | the JavaTemplate setup has exactly the specified effect |
| CliFrontend.JavaTemplatePages | templates/cli/frontend.ts:230-287 | makes backend/src/main/resources/templates and writes base.html, named after the project, and home.html there |
| CliFrontend.PagesWritten | templates/cli/frontend.ts:235-286 | whatever the two page contents, the two pages are written under the templates directory, which is created first |
| CliFrontend.PagesInBackend | templates/cli/frontend.ts:231-233 | the JavaTemplate pages lie under the backend directory and not under the frontend directory |
| CliFrontend.PackageNamed | templates/cli/frontend.ts:31-34 | package.json is named `<project>-frontend`, has version 0.1.0 and is private |
| Compose.PortMappingSplit | src/commands/generators.ts:215 | a `host:container` port mapping splits back into its two ports |
| Files.LastSlash | src/commands/create.ts:61 | finds the last `/` of a path, or none when the path has none |
| Files.ParentJoin | src/commands/create.ts:61 | joining a name without `/` onto a directory gives a path whose parent is that directory and whose basename is that name |
| Files.AncestorsJoin | src/utils/setup.ts:13 | making a path below a directory also makes every ancestor of that directory |
| Files.AncestorsShorter | src/utils/setup.ts:13 | every ancestor `ensureDir` makes is a prefix of the requested path |
| Files.TextAt | src/templates/cli/testing.ts:27 | reading text succeeds exactly when a text file is stored at the path |
| Files.JsonAt | src/templates/cli/testing.ts:75 | reading JSON succeeds exactly when a JSON document is stored at the path |
| Files.CopiedFilesAt | src/utils/templates.ts:24 | every file of the copied tree is present under the destination with its text |
| Files.Disk.PathExists | src/templates/cli/testing.ts:10 | true exactly when a file or directory exists at the path |
| Files.Disk.EnsureDir | src/utils/setup.ts:13 | adds the path and all its ancestors to the directories and changes no file |
| Files.Disk.MakeDir | src/commands/create.ts:72 | fails with EEXIST when the path exists, with ENOENT when its parent is missing, and otherwise adds exactly that directory |
| Files.Disk.WriteFile | src/templates/cli/testing.ts:93 | writes the content when the parent directory exists and fails with ENOENT, changing nothing, otherwise |
| Files.Disk.ReadText | src/templates/cli/testing.ts:27 | returns the stored text, or an error when there is none |
| Files.Disk.ReadJson | src/templates/cli/testing.ts:75 | returns the stored JSON document, or an error when there is none |
| Files.Disk.CopyTree | src/utils/templates.ts:24 | adds every file of the tree under the destination, with its directories |
| GatedList.EnabledLength | src/commands/generators.ts:362-385 | a pushed list has one entry per enabled option, never more than the options |
| GatedList.EnabledAppend | src/commands/generators.ts:362-385 | pushing two runs of options in turn gives the concatenation of their lists |
| GatedList.EnabledMember | src/commands/generators.ts:362-385 | an entry is listed exactly when some enabled option pushes it |
| GatedList.AllOffEmpty | src/commands/generators.ts:362-385 | with every option off the list is empty |
| GatedList.PushStep | src/commands/generators.ts:368-370 | one conditional push extends the list built so far by that option's entry exactly when it is enabled |
| JsonValue.Get | src/templates/cli/testing.ts:75-92 | a property lookup misses exactly when the object lacks the key |
| JsonValue.SetExistingGet | src/templates/cli/testing.ts:77 | assigning an existing property changes that property alone |
| JsonValue.SetExistingKeys | src/templates/cli/testing.ts:77 | assigning an existing property keeps the property order |
| JsonValue.GetPut | src/templates/cli/testing.ts:77-87 | after an assignment the property has the new value and every other property keeps its value |
| JsonValue.KeysPut | src/templates/cli/testing.ts:77-87 | an assignment keeps the place of an existing property and appends a new one |
| JsonValue.GetPutAll | src/templates/cli/testing.ts:77-84 | after a spread followed by literal properties, a listed key has its last literal value and every other key keeps the spread value |
| JsonValue.KeysPutAll | src/templates/cli/testing.ts:77-84 | the keys after the spread are those of the old object and of the literal properties |
| JsString.Lower | templates/cli/deployment.ts:31 | lower-casing keeps the length and lower-cases each ASCII letter in place |
| JsString.LowerIdempotent | templates/cli/deployment.ts:31 | lower-casing twice is lower-casing once |
| JsString.IndexFrom | templates/cli/database.ts:96 | the search returns the first occurrence at or after the start, or none when there is none |
| JsString.ReplaceFirstSpec | templates/cli/database.ts:96-99 | a string-pattern replace leaves a string without the pattern unchanged and otherwise swaps exactly its first occurrence |
| JsString.ReplaceFirstIncludes | templates/cli/database.ts:96-99 | after replacing an occurrence, the result contains the replacement |
| JsString.SubstitutionPlain | src/commands/generators.ts:265 | a replacement string without `$` is inserted as it is |
| JsString.ReplaceFirstLiteral | src/utils/templates.ts:29 | the first-occurrence replace with its `$` patterns expanded equals the literal replace whenever the replacement holds no `$` |
| JsString.ReplaceAllLiteral | src/commands/generators.ts:265 | the global replace with its `$` patterns expanded equals the literal global replace whenever the replacement holds no `$` |
| JsString.ReplaceAllMatched | src/commands/generators.ts:265 | a global replace whose replacement is `$&` puts every match back, leaving the text unchanged |
| JsString.ReplaceAllAbsent | src/commands/generators.ts:265 | a global replace of a pattern the text lacks changes nothing |
| JsString.ReplaceAllShift | src/commands/generators.ts:265 | a global replace leaves a prefix without matches as it is |
| JsString.Split | src/commands/list.ts:13-14 | split gives at least one part and no part holds the separator |
| JsString.JoinSplit | src/commands/list.ts:13-14 | joining the parts of a split gives the string back |
| JsString.SplitJoin | src/commands/list.ts:13-14 | splitting a join of separator-free parts gives the parts back |
| Layout.Materialize | src/commands/generators.ts:40-49 | after the loop the files are the old files plus the layout's empty files and the directories the old ones plus the layout's directories |
| Layout.MaterializeItems | src/commands/generators.ts:42-48 | the inner loop adds exactly the item files and item directories of one base path |
| Layout.MaterializeItem | src/commands/generators.ts:43-47 | an item with a dot is written as an empty file, an item without one is made a directory |
| Layout.LayoutStep | src/commands/generators.ts:40-49 | one more entry adds its base directory, its item directories and its item files |
| Layout.ItemsStep | src/commands/generators.ts:42-48 | one more item adds its own file or directory |
| Layout.FileItemWritten | src/commands/generators.ts:44-45 | every item with a dot ends up as an empty file under its base path |
| Layout.ItemFilesEmpty | src/commands/generators.ts:44-45 | every file the structure rule writes is empty |
| Layout.DirItemMade | src/commands/generators.ts:46-47 | every item without a dot ends up as a directory under its base path |
| Layout.OnlyFileItemsWritten | src/commands/generators.ts:40-49 | the structure rule writes no file other than its items with a dot |
| MavenDeps.ArtifactTagIncluded | src/utils/setup.ts:32-53 | every dependency block holds its own groupId and artifactId tags |
| MavenDeps.RuntimeScopes | src/utils/setup.ts:32-53 | the PostgreSQL, MySQL and H2 drivers have runtime scope and the MongoDB starter has no scope line |
| PomEdit.InsertBlockSpec | templates/cli/database.ts:96-99 | a pom without `</dependencies>` is left unchanged; otherwise the block and a newline with indentation go just before the first `</dependencies>` |
| PomEdit.InsertBlockContains | templates/cli/database.ts:96-99 | after insertion the pom holds the block and still holds `</dependencies>`, and has grown by the block plus five characters |
| PomEdit.InsertBlockTwice | templates/cli/database.ts:96-99 | the unguarded insertion is not idempotent: running it twice inserts the block twice |
| PomEdit.InsertUnlessPresentIdempotent | src/utils/setup.ts:55-61 | the guarded insertion is idempotent |
| Placeholders.Fill | src/commands/generators.ts:264-275 | filling keeps the pieces in place and replaces exactly the markers the environment names |
| Placeholders.ReplaceAllRender | src/commands/generators.ts:265 | a global `{{name}}` replace on a rendered template is the template with every such marker filled |
| Placeholders.ReplaceFirstRender | src/utils/templates.ts:27-31 | a string-pattern `{{name}}` replace on a rendered template fills the first such marker alone |
| Placeholders.SecondMarkerSurvives | src/utils/templates.ts:27-31 | after a string-pattern replace a template with the marker twice still holds the marker |
| Placeholders.SurvivesAfterFirst | src/utils/templates.ts:27-31 | filling the first occurrence keeps every later occurrence as a marker |
| Placeholders.ChainRender | src/commands/generators.ts:264-275 | a chain of global replaces equals one fill in which the first replacement of each marker wins |
| Placeholders.ChainLeavesNoMarker | src/commands/generators.ts:264-275 | a chain leaves no marker that any of its steps names |
| Placeholders.ChainSkipAbsent | src/commands/generators.ts:264-275 | a first replacement whose marker the template lacks changes nothing, whatever its replacement text |
| Placeholders.FillIgnoresAbsent | src/commands/generators.ts:264-275 | a value for a marker the template lacks plays no part in the fill |
| Placeholders.ChainDropShadowed | src/commands/generators.ts:264-275 | a later replacement of a marker already replaced can be dropped from the chain without changing the result |
| Placeholders.ChainLiteral | src/commands/generators.ts:264-275 | the chain as JavaScript runs it equals the literal chain when no replacement holds `$` |
| Placeholders.ChainExpandingRender | src/commands/generators.ts:264-275 | for replacements without `$`, the chain as JavaScript runs it equals the fill in which the first replacement of each marker wins |
| Placeholders.MatchedReplacementKeepsMarker | src/commands/generators.ts:264-275 | a first step whose replacement is `$&` leaves its marker in the output when no later step names it |
| Placeholders.ChainAppend | src/commands/generators.ts:264-275 | a chain of two runs of replaces is the second run applied to the result of the first |
| Placeholders.FillFill | src/commands/generators.ts:264-275 | filling one marker and then an environment is filling the environment updated with that marker |
| Placeholders.FillRemoves | src/commands/generators.ts:264-275 | a filled marker no longer appears |
| Placeholders.FirstWinsAt | src/commands/generators.ts:264-275 | the value a marker gets is the one of its first step |
| Setup.SchemeLowercase | src/utils/setup.ts:17 | the URL scheme is the lower-cased type (already lower-case), so PostgreSQL gives `postgresql` |
| Setup.LowerUndefined | src/utils/setup.ts:17 | a missing type renders the scheme `undefined` |
| Setup.PropsReadBack | src/utils/setup.ts:16-23 | the properties text splits back into its lines, the second being `spring.datasource.url=` followed by the JDBC URL |
| Setup.DependencyFor | src/utils/setup.ts:32-53 | PostgreSQL, MySQL and MongoDB (exact labels) get their own block, and every other type, a missing one included, gets the H2 block |
| Setup.GuardedPomStepKeeps | src/utils/setup.ts:29-62 | the pom step touches no file other than pom.xml |
| Setup.GuardedPomStepTwice | src/utils/setup.ts:55-61 | the guarded pom step run twice is the step run once |
| Setup.DatabasePaths | src/utils/setup.ts:10-28 | application.properties sits in the resources directory and pom.xml in the backend directory, both made by `ensureDir` |
| Setup.SetupDatabase | src/utils/setup.ts:9-63 | makes the resources directory and then has exactly the specified effect: properties, then the guarded pom insertion |
| Setup.DatabaseWithoutPom | src/utils/setup.ts:29 | without pom.xml, only application.properties is written and the call succeeds |
| Setup.PomNotAncestor | src/utils/setup.ts:13-28 | `ensureDir` of resources never makes pom.xml a directory |
| Setup.DatabasePomInsert | src/utils/setup.ts:29-61 | with pom.xml, the call succeeds and pom.xml gets the type's block unless it already holds it |
| Setup.GuardedPomStepText | src/utils/setup.ts:55-61 | the pom step writes the guarded insertion of the block |
| Setup.DatabaseIdempotent | src/utils/setup.ts:9-63 | running setupDatabase again on its own result changes nothing more |
| Setup.WriteThenPomStepTwice | src/utils/setup.ts:25-62 | writing a file and then the guarded pom insertion, repeated on the result, leave it as it was |
| Setup.SecondInsertNoOp | src/utils/setup.ts:55-61 | after a guarded insertion either the pom holds the block or it has no `</dependencies>` to insert before |
| Setup.DependenciesChoice | src/utils/setup.ts:78-96 | React, Vue.js and Angular get their own runtime dependencies; every other label gets none |
| Setup.DevDependenciesBase | src/utils/setup.ts:97-99 | typescript ^5.0.4 and vite ^4.3.9 are always development dependencies |
| Setup.PackageName | src/utils/setup.ts:70 | package.json is named `frontend`, after its directory |
| Setup.SetupFrontend | src/utils/setup.ts:65-113 | makes the frontend directory and writes exactly package.json there |
| SrcDatabase.SrcDependencyFor | src/templates/cli/database.ts:31-53 | the block is chosen on the lower-cased type: postgresql, mysql and mongodb get their own, any other type H2 |
| SrcDatabase.CapitalisedLabelAccepted | src/templates/cli/database.ts:31 | the label PostgreSQL gets the PostgreSQL driver here, while the exact-label test of src/utils/setup.ts gives lower-case postgresql the H2 driver |
| SrcDatabase.SrcSetupDatabase | src/templates/cli/database.ts:9-61 | makes the resources directory and then has exactly the specified effect |
| SrcDatabase.SrcMissingPom | src/templates/cli/database.ts:25-29 | without pom.xml the call fails with ENOENT after application.properties has been written |
| SrcDatabase.SrcPropsOverwritten | src/templates/cli/database.ts:25 | application.properties is always written, over any previous content |
| SrcDatabase.SrcSecondRunDuplicates | src/templates/cli/database.ts:55-60 | without a guard, a second run inserts the block a second time |
| SrcFrontend.SetupFramework | src/templates/cli/frontend.ts:27-153 | each supported framework has exactly its specified effect: package.json, src, one source file |
| SrcFrontend.SetupFrontend | src/templates/cli/frontend.ts:5-25 | makes the frontend directory, then dispatches on the exact label |
| SrcFrontend.FrontendDirAlwaysMade | src/templates/cli/frontend.ts:7 | the frontend directory is made whatever the label, and no directory is lost |
| SrcFrontend.OtherLabelsWriteNothing | src/templates/cli/frontend.ts:19-23 | None succeeds and any other unsupported label fails with "Unsupported frontend framework", and neither writes a file |
| SrcFrontend.FrontendPaths | src/templates/cli/frontend.ts:51-73 | package.json lies in the frontend directory and the source file in src, at different paths |
| SrcFrontend.SupportedWritesTwoFiles | src/templates/cli/frontend.ts:27-153 | a supported label succeeds, adds exactly package.json and its source file with their contents, and keeps every other file |
| SrcFrontend.SourceFiles | src/templates/cli/frontend.ts:73-153 | React writes App.js, Vue.js App.vue and Angular app.component.html |
| SrcFrontend.PackageHead | src/templates/cli/frontend.ts:28-31 | package.json is named after the lower-cased project, has version 1.0.0, is private and has its six keys in order |
| SrcFrontend.WelcomeShown | src/templates/cli/frontend.ts:150 | the Angular page welcomes the project by name, and the Vue page does not depend on it |
| TagList.NoTabNoField | src/commands/list.ts:14 | a line without a tab has no second field |
| TagList.SecondField | src/commands/list.ts:14 | the field taken is the text after the first tab |
| TagList.TagLineVersion | src/commands/list.ts:14-16 | a tag line gives the version after `refs/tags/` |
| TagList.DroppedLine | src/commands/list.ts:15 | a line whose field is missing, empty or not a tag gives no version |
| TagList.VersionsAppend | src/commands/list.ts:12-16 | the versions of two runs of lines are concatenated in order |
| TagList.VersionsBound | src/commands/list.ts:12-16 | there are never more versions than lines |
| TagList.VersionsSound | src/commands/list.ts:12-16 | every version comes from a line whose field is `refs/tags/` followed by it |
| TemplateGen.TemplateText | src/utils/templates.ts:27 | reading a template succeeds exactly when the tool ships that file |
| TemplateGen.PomSecondSlotKept | src/utils/templates.ts:28-30 | a pom template with `{{projectName}}` twice keeps the second one, because the replace is not global |
| TemplateGen.ConfigGetsApiUrl | src/utils/templates.ts:72-74 | a framework configuration template with an `{{apiUrl}}` slot gets http://localhost:8080 |
| TemplateGen.FrameworkConfig | src/utils/templates.ts:56-66 | there is a configuration file exactly for React, Vue.js and Angular |
| TemplateGen.TemplateDirectories | src/utils/templates.ts:45-89 | React and Angular read their configuration from the directory their package is copied from, Vue.js does not (vue.js versus vue) |
| TemplateGen.GenerateBackend | src/utils/templates.ts:22-39 | with the templates directory supplied, copies the backend tree, then writes the filled pom.xml and application.yml: exactly the specified effect |
| TemplateGen.GenerateConfig | src/utils/templates.ts:55-94 | with the templates directory supplied, writes the framework's configuration file, filled, or nothing for other labels |
| TemplateGen.GenerateFrontend | src/utils/templates.ts:41-67 | None does nothing; with the templates directory supplied, any other label copies its tree, writes package.json and its configuration: exactly the specified effect |
| TemplateGen.GenerateTemplate | src/utils/templates.ts:5-20 | makes `<cwd>/<name>/<type>` and dispatches on the type, with the templates directory supplied: exactly the specified effect |
| TemplateGen.UnknownTypeFails | src/utils/templates.ts:17-18 | an unknown type fails with "Type de template inconnu" after the target directory has been made, writing nothing |
| TemplateGen.NoneFrontendWritesNothing | src/utils/templates.ts:42 | a None frontend makes the target directory and writes nothing |
| TemplateGen.TargetParts | src/utils/templates.ts:6 | the target is the type directory under the project directory under the working directory |
| TemplateGen.BackendWritesFilled | src/utils/templates.ts:22-39 | with both templates shipped, the backend succeeds and pom.xml and application.yml hold their filled templates |
| TemplateGen.BackendParents | src/utils/templates.ts:24-38 | the copy makes the directories pom.xml and application.yml are written to |
| TemplateGen.ConfigRunFrame | src/utils/templates.ts:55-94 | the configuration step changes no file but its own target |
| TemplateGen.FrontendWritesPackage | src/utils/templates.ts:46-53 | with the framework's templates shipped, package.json holds the filled template |
| TemplateGen.VueConfigNeedsVueDir | src/utils/templates.ts:45-80 | with the templates directory supplied, Vue.js fails reading vue/vue.config.js.template when only the vue.js directory is shipped |
| TemplateGen.GenerateTemplateAsWritten | src/utils/templates.ts:5-45 | the file as written: the target directory is made, then the backend and every frontend but None reject with "__dirname is not defined" |
| TemplateGen.AsWrittenWritesNothing | src/utils/templates.ts:5-45 | as written, no file is ever written, and the run succeeds exactly for a None frontend |
| TemplateGen.ConfigAsWrittenFails | src/utils/templates.ts:69-94 | as written, each configuration generator rejects for its own label without writing |
| TemplateGen.AsWrittenAgrees | src/utils/templates.ts:5-42 | where `__dirname` is never read (an unknown type, a None frontend) the file as written and the corrected model agree |
| TemplateGen.AsWrittenBackendDiffers | src/utils/templates.ts:22-24 | with the backend templates shipped, the corrected backend run succeeds, while as written it rejects having written nothing |
| TemplateGen.AsWrittenFrontendDiffers | src/utils/templates.ts:41-46 | with a framework's templates shipped, the corrected run writes package.json, while as written it rejects after making the target directory only |
| Testing.TestBlockHasGuard | src/templates/cli/testing.ts:28-45 | the inserted block holds the artifact the guard looks for |
| Testing.PomStepPlacement | src/templates/cli/testing.ts:45-50 | a pom holding the test starter is left as is; otherwise the test block goes just before the first `</dependencies>` |
| Testing.BackendPaths | src/templates/cli/testing.ts:21-25 | pom.xml lies in the backend directory and ApplicationTests.java in the test directory made by `ensureDir` |
| Testing.SetupBackendTesting | src/templates/cli/testing.ts:20-70 | makes the test directory, updates pom.xml, writes the sample test: exactly the specified effect |
| Testing.BackendOutcome | src/templates/cli/testing.ts:26-70 | the backend half fails exactly when pom.xml exists but is not a readable text file, and on success the sample test is written |
| Testing.PomStepFrame | src/templates/cli/testing.ts:26-52 | the pom step does not depend on, and does not change, any other file |
| Testing.PomStepTwice | src/templates/cli/testing.ts:45 | the guarded pom step run twice is the step run once |
| Testing.BlockStepTwice | src/templates/cli/testing.ts:26-52 | a guarded insertion whose block contains its own guard, run again after it passed, changes nothing |
| Testing.BackendIdempotent | src/templates/cli/testing.ts:20-70 | running the backend half again on its own result changes nothing |
| Testing.StepThenWriteTwice | src/templates/cli/testing.ts:26-69 | the guarded pom insertion followed by one file write, repeated on a successful result, changes nothing when the block contains its guard |
| Testing.BackendFootprint | src/templates/cli/testing.ts:20-70 | the backend half adds no file other than pom.xml and ApplicationTests.java, and no directory other than the test directory and its ancestors |
| Testing.TestingVersions | src/templates/cli/testing.ts:77-84 | every testing dependency has its listed version |
| Testing.DevDependenciesMerged | src/templates/cli/testing.ts:77-84 | devDependencies keeps every other existing entry and gets every testing dependency with its version |
| Testing.ScriptsMerged | src/templates/cli/testing.ts:87-90 | scripts gets test=jest and keeps every other script; every property other than devDependencies and scripts is unchanged |
| Testing.PackageKeysKept | src/templates/cli/testing.ts:77-90 | no property of package.json is lost |
| Testing.RewritePackage | src/templates/cli/testing.ts:74-94 | reads, merges and writes package.json back: exactly the specified effect |
| Testing.FrontendPaths | src/templates/cli/testing.ts:73-97 | package.json lies in the frontend directory and App.test.js in src |
| Testing.SetupFrontendTesting | src/templates/cli/testing.ts:72-113 | updates package.json when it exists, then writes the sample React test: exactly the specified effect |
| Testing.FrontendWithoutPackage | src/templates/cli/testing.ts:74-111 | on success App.test.js looks for the project's welcome; without package.json the call succeeds and writes none |
| Testing.SetupTesting | src/templates/cli/testing.ts:5-18 | runs each half only when its directory exists: exactly the specified effect |
| Testing.NothingWithoutDirectories | src/templates/cli/testing.ts:10-17 | without backend and frontend directories nothing changes |
| Testing.BackendLeavesFrontendAlone | src/templates/cli/testing.ts:10-17 | the backend half never makes the frontend path exist, so the frontend test does not start because of it |
| UtilGenerator.FeaturesList | src/utils/generator.ts:159-196 | the list is the entries of the enabled pushes in order, after the database and REST entries |
| UtilGenerator.FeaturesStart | src/utils/generator.ts:160-163 | the list opens with `<type> database integration`, then the REST API entry |
| UtilGenerator.FeaturesCount | src/utils/generator.ts:165-192 | the length is 2 plus the number of enabled options, at most 9 |
| UtilGenerator.FrontendEntryIff | src/utils/generator.ts:169-171 | the frontend entry is listed exactly when the framework is not None, and a missing framework lists `undefined frontend` |
| UtilGenerator.OnlyFrontendEndsInD | src/utils/generator.ts:159-196 | the frontend entry is the only one of its kind, so it is told apart from the others |
| UtilGenerator.UtilPomClosers | src/utils/generator.ts:61-72 | every `{{/if}}` of the pom becomes "" for MySQL and `-->` otherwise, as in src/commands/generators.ts |
| UtilGenerator.UtilPropsNoClosers | src/utils/generator.ts:78-89 | application.properties keeps no `{{/if}}` marker |
| UtilGenerator.GenerateProject | src/utils/generator.ts:15-101 | `ensureDir`, then `setupBasicStructure` with its exact disk effect; its Application.java write fails with ENOENT unless `com/example/<lower name>` already existed, and then the run rethrows and attempts nothing more; otherwise the enabled steps follow in source order, README last |
| UtilGenerator.MakeStructure | src/utils/generator.ts:18-21 | `ensureDir` of the project path, then `setupBasicStructure` with the sections of this file: the exact directories and files afterwards, and ENOENT on Application.java unless its directory already existed |
| UtilGenerator.AttemptSteps | src/utils/generator.ts:18-43 | the steps attempted are `ensureDir` and `setupBasicStructure`, followed only after a successful structure by the enabled steps in source order and the README |
| UtilGenerator.ProjectGating | src/utils/generator.ts:21-46 | when the basic structure succeeds, the database step runs exactly when a type is set, email exactly when enabled, and the README is written last; when it fails, the run ends at it and no README is written |
| UtilGenerator.MainClassDirBelow | src/utils/generator.ts:18-98 | `ensureDir` of the project path never makes the Application.java directory below it |
| Create.GenerateBackend | src/commands/create.ts:214-300 | makes the backend directory, lays out the structure under it and writes pom.xml named after the project the answers carry |
| Create.GenerateFrontend | src/commands/create.ts:302-394 | makes the frontend directory, lays out src and public, and writes the package.json text for the frontend choice |
| Create.PackageContent | src/commands/create.ts:337-391 | the package.json text is the one chosen by the frontend label |
| Create.PackageNamed | src/commands/create.ts:337-391 | the text is non-empty exactly for React, Vue.js and Angular, and then opens with the name `<project>-frontend` |
| Create.FrontendLayout | src/commands/create.ts:307-334 | the six src directories are made and public/index.html and public/favicon.ico are written empty |
| Create.GenerateDocker | src/commands/create.ts:396-469 | makes the docker directory and writes Dockerfile.backend, Dockerfile.frontend and docker-compose.yml |
| Create.ComposeNamesDatabase | src/commands/create.ts:431-468 | the compose file holds the JDBC URL and POSTGRES_DB naming the project, and the Postgres image |
| Create.CreateProject | src/commands/create.ts:60-212 | the method has exactly the effect of createProject with the project name passed to the generators |
| Create.ExistingProjectUntouched | src/commands/create.ts:66-69 | an existing directory stops the command with "Le dossier … existe déjà" and nothing changes |
| Create.ProjectDirMade | src/commands/create.ts:72-192 | with the parent present the project, backend and frontend directories exist afterwards; without it mkdir fails, the command reports its French error and nothing changes |
| Create.DockerSkipped | src/commands/create.ts:194-197 | without docker the three docker files are left as they were |
| Create.DockerWritten | src/commands/create.ts:396-469 | with docker the docker directory exists and holds both Dockerfiles and the compose file naming the project |
| Create.CreateNamesProject | src/commands/create.ts:255-393 | package.json holds the frontend text for the project name and pom.xml the pom naming the project |
| Create.CreateAsWrittenUndefined | src/commands/create.ts:75-340 | with the answers the prompt returns, pom.xml and package.json name the project "undefined", which differs from the named text for every project name other than "undefined" |
| Create.NamesDiffer | src/commands/create.ts:340 | the package.json of "undefined" differs from that of every other name |
| Create.PackageInjective | src/commands/create.ts:340 | two names with the same package.json text are the same name |
| Create.DatabaseIgnored | src/commands/create.ts:75-197 | the database answer has no effect on what createProject writes |

## Left out

- Prompts, the CLI wiring and console output are not modelled.
  - This covers the inquirer questions, the `ora` spinner and `console.log`.
  - Only the answers they produce enter the model, as parameters.
- The git clone and `npm install` of `createProject` are not modelled. They
  run external processes and do not change what the generators write.
- The `execa` call of `list` is not modelled. The parser starts from its
  stdout string.
- `process.cwd()` and the templates shipped with the tool become
  parameters, as do the installation directory (`__dirname`) and the text
  of each template file. src/utils/templates.ts is the exception: it has
  no `__dirname`, so the templates directory is a parameter only of its
  corrected model (see Findings).
- TemplateGen.GenerateBackend: models the corrected file, with the
  templates directory supplied. As written the function rejects at its
  first statement (TemplateGen.AsWrittenBackendDiffers).
  The backend tree is a map, so a missing `templates/backend` directory
  is modelled as an empty one. The run then fails on the read of
  pom.xml.template with an `open` ENOENT, where `fs.copy` would fail
  first with an `lstat` ENOENT; the files and directories are the same.
- TemplateGen.GenerateConfig: models the corrected file. As written each
  configuration generator rejects before its read
  (TemplateGen.ConfigAsWrittenFails).
- TemplateGen.GenerateFrontend: models the corrected file. As written
  every label but None rejects before the copy
  (TemplateGen.AsWrittenFrontendDiffers).
- TemplateGen.GenerateTemplate: models the corrected file. As written the
  backend and every frontend but None reject after the target directory
  is made (TemplateGen.GenerateTemplateAsWritten).
- TemplateGen.BackendWritesFilled: stated of the corrected file. As
  written no backend file is written (TemplateGen.AsWrittenBackendDiffers).
- TemplateGen.FrontendWritesPackage: stated of the corrected file. As
  written no package.json is written (TemplateGen.AsWrittenFrontendDiffers).
- TemplateGen.VueConfigNeedsVueDir: stated of the corrected file. As
  written the run rejects earlier, at line 45, and never reaches the read
  from `vue`.
- TemplateGen.TemplateOptions: the model assumes the options carry a
  string `projectName`. src/utils/templates.ts:3 types them as
  `ProjectOptions` from `../types`. src/types.ts exports no such type, and
  src/types/index.ts:1-9 gives `ProjectOptions` a `name` field instead.
  For an object shaped like that declaration, `path.join` at
  src/utils/templates.ts:6 throws a TypeError on the undefined
  `projectName`, before `ensureDir`, so no directory is made. Nothing in
  the source calls `generateTemplate`, so the shape its caller passes is
  an assumption.
- Paths are joined with `/` and are not normalised. `path.join` would also
  collapse `..`, `.` and repeated separators, which the generators never
  produce from their literals.
  - BackendTemplate.SetupBasicStructure requires a non-empty project path.
    `path.join("", "src/main/java")` gives a relative path, while the
    model's join would give `/src/main/java`. So the empty project path,
    the current directory, is excluded.
- Files.Disk.EnsureDir: an existing file on an ancestor path is not treated
  as an error, although fs-extra would fail with ENOTDIR. No generator makes
  a file where it later makes a directory.
- Files.Disk.ReadJson: reading a text file as JSON is an error in the model,
  because the model does not parse JSON text.
  - Three writers produce package.json as text: `generateFrontend` of
    src/commands/create.ts (a template string), src/utils/templates.ts (the
    filled template) and templates/cli/frontend.ts (`JSON.stringify`).
  - The model stores the last one as the JSON document it encodes.
  - On a package.json written as text by either of the first two,
    Testing.SetupFrontendTesting fails in the model, while `fs.readJson`
    would parse it and merge the dependencies.
- Files.Disk.WriteFile: writing to a path that is an existing directory
  succeeds in the model and leaves the path in both `files` and `dirs`.
  Node fails with EISDIR there.
- JsString.Lower: only the ASCII letters `A`-`Z` are lowered.
  - JavaScript's `toLowerCase` lowers every Unicode letter, so `"Élan"`
    gives `élan` in the source and `Élan` in the model.
  - Some letters, such as `İ`, lower to two code units, so `|r| == |s|`
    holds of the source only for names without them.
  - This reaches every lower-cased project name or type: database names
    and URLs in Deployment and CliDatabase, the main class directory in
    BackendTemplate, the package name in SrcFrontend and the type test of
    SrcDatabase.
- JsString.ReplaceFirst and JsString.ReplaceAll insert the replacement
  literally. JavaScript's `replace` expands `$$`, `$&`, `` $` `` and `$'`
  in it. JsString.ReplaceFirstExpanding and JsString.ReplaceAllExpanding
  model that expansion, and the two versions agree exactly when the
  replacement holds no `$`. The project name is the only replacement that
  can hold one; the prompt only rejects an empty name.
- JsString.ReplaceFirstSpec: stated of the literal replace. It holds of
  JavaScript's for replacements without `$` (JsString.ReplaceFirstLiteral).
- JsString.ReplaceFirstIncludes: stated of the literal replace. It fails in
  JavaScript for a replacement such as `$$`, which inserts `$`.
- Placeholders.ReplaceAllRender: stated of the literal global replace. It
  holds of JavaScript's for values without `$` (JsString.ReplaceAllLiteral).
- Placeholders.ReplaceFirstRender: stated of the literal replace. It holds
  of JavaScript's for values without `$` (JsString.ReplaceFirstLiteral).
- Placeholders.ChainRender: stated of the literal chain.
  Placeholders.ChainExpandingRender states it of the chain JavaScript runs,
  for replacements without `$`.
- Placeholders.ChainLeavesNoMarker: stated of the literal chain. With a
  replacement `$&` the marker survives
  (Placeholders.MatchedReplacementKeepsMarker).
- Placeholders.ChainDropShadowed: stated of the literal chain. It carries
  over to the chain JavaScript runs when no replacement holds `$`
  (Placeholders.ChainLiteral).
- Project names that spell markers. The name is the first replacement of
  the pom.xml and application.properties chains, so the section
  replacements after it also act on the name's own text. The lemmas about
  the whole chains therefore require the name to be GoodText: no `{{` in
  it and no trailing `{`. The prompt accepts such names, and for them the
  name is not copied as typed:
  - a template `{{projectName}}` with the name `{{/if}}` gives the MySQL
    closer (BackendTemplate.PomNameSpellsCloser);
  - the name `{{projectName}}` leaves that marker in application.properties
    (BackendTemplate.PropsNameSpellsMarker).
  The lemmas about one section (BackendTemplate.PomWithoutName and those
  built on it) hold for every name.
- BackendTemplate.PomClosersFollowMysql: holds only for GoodText project
  names. It is stated of the literal chain; the pom.xml the source computes
  is the same for every project name without `$`
  (BackendTemplate.PomContentLiteral).
- BackendTemplate.PomLaterClosersNoOp: holds only for GoodText project
  names (no `{{`, no trailing `{`).
- BackendTemplate.PropsLeaveNoMarkers: holds only for GoodText project
  names. It is stated of the literal chain, and holds of the source for
  every GoodText project name without `$` (BackendTemplate.PropsContentLiteral).
  A name `$&` leaves `{{projectName}}` behind, as the "## Findings" section
  shows. So does the name `{{projectName}}` itself
  (BackendTemplate.PropsNameSpellsMarker).
- Generators.GenPomClosers: holds only for GoodText project names (no `{{`,
  no trailing `{`).
- UtilGenerator.UtilPomClosers: holds only for GoodText project names (no
  `{{`, no trailing `{`).
- UtilGenerator.UtilPropsNoClosers: holds only for GoodText project names
  (no `{{`, no trailing `{`).
- JsonValue.SpreadFields: spreading a `devDependencies` or `scripts` value
  that is not an object contributes no properties.
  - This is correct for `undefined` and `null`.
  - Spreading a string or an array into an object would add its
    characters or elements under the keys "0", "1", and so on. This is
    not modelled: such a value contributes no properties in the model.
- CliDatabase.DbTable: a lookup in the source's object literal would also
  find inherited keys such as `toString`. These are not modelled. They would
  make the "not supported" test pass with a function as the row.
- Deployment.ProfileYaml reproduces each Spring profile text of
  templates/cli/deployment.ts whole, and Deployment.SetupEnvironments
  writes exactly that text. The lemmas about the profiles state only the
  values that vary: URL, credentials, ddl-auto, show-sql, log levels and
  package name.
- setupDeploymentScripts, setupKubernetes and setupCI of
  templates/cli/deployment.ts are not modelled. They write fixed text that
  only interpolates the project name. setupDeployment is not modelled
  either: it only runs setupEnvironments and two of those steps in turn.
- generateProject and generateReadme of src/commands/generators.ts are not
  modelled as a whole. Their parts that are:
  - the feature list (Generators.FeaturesList);
  - setupBasicStructure (BackendTemplate.SetupBasicStructure).

  Other details:
  - generateReadme interpolates that list into a fixed README text.
  - generateProject (lines 225-253) runs ensureDir, then setupBasicStructure,
    then setupDatabase of src/templates/cli (SrcDatabase), then, when enabled,
    setupAuthentication of src/templates/cli/auth.ts (not part of this model)
    and setupDocker (SrcDocker), then generateReadme.
  - On a new project setupBasicStructure already fails at the Application.java
    write (BackendTemplate.MainClassDirIsNew). The catch at lines 249-252
    rethrows that error, so no later step runs.
- In src/utils/generator.ts and templates/cli/generator.ts,
  `generateProject` is modelled as its own directory and file effects plus
  the list of setup steps it attempts. The setup steps are not composed
  into it.
  - In src/utils/generator.ts, setupDatabase and setupDocker are
    src/templates/cli/database.ts and src/templates/cli/docker.ts,
    modelled on their own as SrcDatabase and SrcDocker. setupAuthentication
    and setupEmail (src/templates/cli/auth.ts and email.ts) are not part of
    this model.
  - In templates/cli/generator.ts, setupDatabase and setupFrontend are
    templates/cli/database.ts and templates/cli/frontend.ts, modelled on
    their own as CliDatabase and CliFrontend. setupAuthentication,
    setupUserManagement, setupApi, setupTesting, setupDocker and setupEmail
    come from files that are not part of this model; templates/cli/docker.ts
    only writes fixed text.
  - Failures that `generateProject` itself determines are modelled: the
    Application.java write of src/utils/generator.ts
    (UtilGenerator.GenerateProject) and the swapped `setupFrontend`
    arguments of templates/cli/generator.ts (CliGenerator.GenerateProject,
    see Findings). Failures inside the listed steps are not propagated.
- src/commands/create.temp.ts is not part of this model. It repeats
  `createProject`.
- CliFrontend.AuthBlocksRemoved: the absence of the login and register
  code from App.tsx without authentication is stated structurally. App.tsx
  without authentication is App.tsx with authentication minus exactly the
  two blocks. The model does not prove that the remaining text lacks the
  words.
- SrcFrontend.WelcomeShown: only the Angular page is shown to greet the
  project. The React App.js greeting is in its constant text but is not
  proved.
- Create.CreateProject: a clone that fails, or an `npm install` that
  fails, would be caught and reported. These failures are not modelled,
  since the model runs neither.
- Create.ProjectDirMade: the French error of the `catch` block is modelled
  for a failing `mkdirSync`. Failures of the later generator writes cannot
  happen in the model, because each generator makes its own directories.

## Findings

| source | as written | input that shows it | evidently intended | confidence | as-written member | corrected member |
|---|---|---|---|---|---|---|
| src/commands/create.ts:75-340 | the generators receive the prompt's answers, which carry no `projectName`; `${options.projectName}` renders as `undefined` in pom.xml (269), package.json (340, 358, 374) and docker-compose.yml (441, 459) | `createProject("shop")` with the frontend React | package.json named `shop-frontend`, pom.xml and compose naming `shop` | not executed | Create.CreateAsWrittenUndefined | Create.CreateNamesProject |
| src/commands/generators.ts:280-292 | the project name is the replacement string of `replace(/{{projectName}}/g, …)`, so JavaScript expands its `$` patterns; `$&` puts the matched marker back | project name `$&` (the prompt only rejects an empty name) with a template holding `{{projectName}}` | the name copied literally, so that application.properties holds no `{{projectName}}` that the name itself does not spell | not executed | BackendTemplate.PropsNameMatchedKept | BackendTemplate.PropsLeaveNoMarkers |
| templates/cli/generator.ts:34 | `setupFrontend(config.frontendFramework, projectPath)` swaps the arguments of `setupFrontend(projectPath, config)` (templates/cli/frontend.ts:5); `config.frontend.framework` then reads a property of `undefined` and throws, and `generateProject` rejects | `frontendFramework` "React" with `testing` true | the frontend set up, then user management, API, testing, Docker and email as their flags say | not executed | CliGenerator.AsWrittenSkipsTesting | CliGenerator.StepGating |
| src/utils/templates.ts:22-94 | `__dirname` is read at 24, 45, 71, 80 and 89 but never defined, and the package is an ES module (its siblings derive `__dirname` from `import.meta.url`), so each read throws a ReferenceError (for options carrying a string `projectName`) | `generateTemplate(options, 'backend')` with a string `projectName`, or `'frontend'` with React | the tool's own templates directory as the source: the backend tree copied and pom.xml and application.yml filled | not executed | TemplateGen.AsWrittenBackendDiffers | TemplateGen.BackendWritesFilled |
