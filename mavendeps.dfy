/**
 * The Maven `<dependency>` blocks the database generators insert into
 * pom.xml. Every generator writes the same four dependencies; they differ
 * only in the text around and inside the block (leading newline,
 * indentation).
 */
module MavenDeps {
  import opened JsString

  import opened Wrappers

  /** A dependency: group, artifact, and the `<scope>` it carries, if any. */
  datatype Dependency = Dependency(groupId: string, artifactId: string, scope: Option<string>)

  const PostgresDriver: Dependency := Dependency("org.postgresql", "postgresql", Some("runtime"))
  const MysqlDriver: Dependency := Dependency("com.mysql", "mysql-connector-j", Some("runtime"))
  const MongoStarter: Dependency := Dependency("org.springframework.boot", "spring-boot-starter-data-mongodb", None)
  const H2Driver: Dependency := Dependency("com.h2database", "h2", Some("runtime"))

  /** The whitespace a generator puts before the block, before each child line and before the closing tag. */
  datatype Layout = Layout(lead: string, inner: string, outer: string)

  function Tag(name: string, value: string): string
  {
    "<" + name + ">" + value + "</" + name + ">"
  }

  /** One child line of the block. */
  function Line(l: Layout, element: string): string
  {
    l.inner + element + "\n"
  }

  /** The text of the block, as one template literal of a generator spells it. */
  function DependencyXml(d: Dependency, l: Layout): string
  {
    l.lead + "<dependency>\n" + Line(l, Tag("groupId", d.groupId)) + Line(l, Tag("artifactId", d.artifactId))
      + ScopeLine(d, l) + l.outer + "</dependency>"
  }

  function ScopeLine(d: Dependency, l: Layout): string
  {
    match d.scope
    case Some(s) => Line(l, Tag("scope", s))
    case None => ""
  }

  /** A part of a line is a part of the block, wherever the line sits. */
  lemma IncludesAround(a: string, t: string, b: string, p: string)
    requires Includes(t, p)
    ensures Includes(a + t, p) && Includes(t + b, p)
  {
    IncludesInfix(a, t, [], p);
    assert a + t + [] == a + t;
    IncludesInfix([], t, b, p);
    assert [] + t + b == t + b;
  }

  /** Every block names its group and artifact, so a guard on either tag sees an inserted block. */
  lemma ArtifactTagIncluded(d: Dependency, l: Layout)
    ensures Includes(DependencyXml(d, l), Tag("artifactId", d.artifactId))
    ensures Includes(DependencyXml(d, l), Tag("groupId", d.groupId))
  {
    var open := l.lead + "<dependency>\n";
    var group := Line(l, Tag("groupId", d.groupId));
    var artifact := Line(l, Tag("artifactId", d.artifactId));
    var scope := ScopeLine(d, l);
    var gTag := Tag("groupId", d.groupId);
    var aTag := Tag("artifactId", d.artifactId);
    IncludesSelf(l.inner, gTag, "\n");
    IncludesSelf(l.inner, aTag, "\n");
    IncludesAround(open, group, [], gTag);
    IncludesAround([], open + group, artifact, gTag);
    IncludesAround(open + group, artifact, [], aTag);
    IncludesAround([], open + group + artifact, scope, gTag);
    IncludesAround([], open + group + artifact, scope, aTag);
    IncludesAround([], open + group + artifact + scope, l.outer, gTag);
    IncludesAround([], open + group + artifact + scope, l.outer, aTag);
    IncludesAround([], open + group + artifact + scope + l.outer, "</dependency>", gTag);
    IncludesAround([], open + group + artifact + scope + l.outer, "</dependency>", aTag);
  }

  /** Only the MongoDB starter comes without a runtime scope. */
  lemma RuntimeScopes(l: Layout)
    ensures PostgresDriver.scope == MysqlDriver.scope == H2Driver.scope == Some("runtime")
    ensures MongoStarter.scope.None?
    ensures !Includes(ScopeLine(MongoStarter, l), "<scope>")
    ensures Includes(ScopeLine(H2Driver, l), Tag("scope", "runtime"))
  {
    IncludesSelf(l.inner, Tag("scope", "runtime"), "\n");
    assert !MatchAt("", "<scope>", 0);
  }
}
