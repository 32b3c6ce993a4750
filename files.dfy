/**
 * The file system as the generators see it through fs-extra and
 * fs/promises: a map from path to content plus the set of existing
 * directories. Paths are joined with `/`. Writing a file needs its parent
 * directory (Node fails with ENOENT otherwise); `ensureDir`/`mkdirp`
 * create a directory together with all its ancestors.
 */
module Files {
  import opened Wrappers
  import opened JsonValue

  /** What a file holds: text, or a JSON document written with `writeJson`. */
  datatype Content = Text(text: string) | Json(value: Json)

  /** `path.join(dir, name)` for already-normalised paths. */
  function JoinPath(dir: string, name: string): string
  {
    dir + "/" + name
  }

  function LastSlash(p: string): (r: Option<nat>)
    ensures r.Some? ==> r.value < |p| && p[r.value] == '/'
    ensures r.Some? ==> forall j :: r.value < j < |p| ==> p[j] != '/'
    ensures r.None? ==> '/' !in p
    decreases |p|
  {
    if p == [] then None
    else if p[|p| - 1] == '/' then Some(|p| - 1)
    else LastSlash(p[..|p| - 1])
  }

  /** `path.dirname(p)`. */
  function Parent(p: string): string
  {
    match LastSlash(p)
    case Some(i) => p[..i]
    case None => "."
  }

  /** `path.basename(p)`. */
  function Basename(p: string): string
  {
    match LastSlash(p)
    case Some(i) => p[i + 1..]
    case None => p
  }

  /** The directories `mkdirp(p)` makes sure exist: `p` and every proper prefix ending before a `/`. */
  function Ancestors(p: string): set<string>
  {
    {p} + set i | 0 < i < |p| && p[i] == '/' :: p[..i]
  }

  lemma {:induction false} LastSlashJoin(a: string, b: string)
    requires '/' !in b
    ensures LastSlash(JoinPath(a, b)) == Some(|a|)
    decreases |b|
  {
    var p := JoinPath(a, b);
    if b == [] {
      assert p[|p| - 1] == '/';
    } else {
      assert p[|p| - 1] == b[|b| - 1];
      assert p[..|p| - 1] == JoinPath(a, b[..|b| - 1]);
      LastSlashJoin(a, b[..|b| - 1]);
    }
  }

  /** Joining a slash-free name and taking the directory and base name again gives the two parts back. */
  lemma ParentJoin(a: string, b: string)
    requires '/' !in b
    ensures Parent(JoinPath(a, b)) == a
    ensures Basename(JoinPath(a, b)) == b
  {
    LastSlashJoin(a, b);
    var p := JoinPath(a, b);
    assert p[..|a|] == a;
    assert p[|a| + 1..] == b;
  }

  /** Making `a/b` also makes `a`. */
  lemma AncestorsJoin(a: string, b: string)
    requires |a| > 0
    ensures Ancestors(a) <= Ancestors(JoinPath(a, b))
  {
    var p := JoinPath(a, b);
    forall q | q in Ancestors(a)
      ensures q in Ancestors(p)
    {
      if q == a {
        assert p[|a|] == '/' && p[..|a|] == a;
      } else {
        var i :| 0 < i < |a| && a[i] == '/' && q == a[..i];
        assert p[i] == '/' && p[..i] == q;
      }
    }
  }

  /** Every directory `mkdirp(p)` makes is `p` or a prefix of it. */
  lemma AncestorsShorter(p: string, q: string)
    requires q in Ancestors(p)
    ensures |q| <= |p| && q == p[..|q|]
  {
  }

  function EnoentOpen(p: string): string
  {
    "ENOENT: no such file or directory, open '" + p + "'"
  }

  function EisdirRead(): string
  {
    "EISDIR: illegal operation on a directory, read"
  }

  /** A file written with `writeJson` is not parsed back as text. */
  function JsonNotText(p: string): string
  {
    "not modelled: " + p + " holds a JSON document, not text"
  }

  /** `readJson` of a text file would run `JSON.parse`, which is not modelled. */
  function TextNotJson(p: string): string
  {
    "not modelled: JSON.parse of the text in " + p
  }

  /** `fs.readFile(p, 'utf8')` against a snapshot of the files. */
  function TextAt(files: map<string, Content>, dirs: set<string>, p: string): (r: Result<string>)
    ensures r.Ok? <==> p in files && files[p].Text?
  {
    if p in files then
      match files[p]
      case Text(t) => Ok(t)
      case Json(_) => Err(JsonNotText(p))
    else if p in dirs then Err(EisdirRead())
    else Err(EnoentOpen(p))
  }

  /** `fs.readJson(p)` against a snapshot of the files. */
  function JsonAt(files: map<string, Content>, dirs: set<string>, p: string): (r: Result<Json>)
    ensures r.Ok? <==> p in files && files[p].Json?
  {
    if p in files then
      match files[p]
      case Json(v) => Ok(v)
      case Text(_) => Err(TextNotJson(p))
    else if p in dirs then Err(EisdirRead())
    else Err(EnoentOpen(p))
  }

  /** What a sequence of file operations leaves behind: how it ended, the files and the directories. */
  datatype Run = Run(outcome: Outcome, files: map<string, Content>, dirs: set<string>)

  /** `fs.writeFile(p, c)` as the next step of a run: skipped after a failure, failing without the parent directory. */
  function WriteAt(r: Run, p: string, c: Content): Run
  {
    if r.outcome.Fail? then r
    else if Parent(p) in r.dirs then Run(Pass, r.files[p := c], r.dirs)
    else Run(Fail(EnoentOpen(p)), r.files, r.dirs)
  }

  /** `fs.mkdirSync(p)` when `p` already exists. */
  function EexistMkdir(p: string): string
  {
    "EEXIST: file already exists, mkdir '" + p + "'"
  }

  /** `fs.mkdirSync(p)` when the parent directory is missing. */
  function EnoentMkdir(p: string): string
  {
    "ENOENT: no such file or directory, mkdir '" + p + "'"
  }

  /** `fs.copy(src, dest)` when `src` does not exist. */
  function EnoentLstat(p: string): string
  {
    "ENOENT: no such file or directory, lstat '" + p + "'"
  }

  /** The files `fs.copy(src, dest)` creates, given the files under `src` by relative path. */
  function CopiedFiles(tree: map<string, string>, dest: string): map<string, Content>
  {
    map p | p in CopyPaths(tree, dest) :: Text(tree[p[|dest| + 1..]])
  }

  function CopyPaths(tree: map<string, string>, dest: string): set<string>
  {
    set rel | rel in tree :: JoinPath(dest, rel)
  }

  function CopiedDirs(tree: map<string, string>, dest: string): set<string>
  {
    Ancestors(dest) + set rel, q | rel in tree && q in Ancestors(Parent(JoinPath(dest, rel))) :: q
  }

  lemma CopiedFilesAt(tree: map<string, string>, dest: string, rel: string)
    requires rel in tree
    ensures JoinPath(dest, rel) in CopiedFiles(tree, dest)
    ensures CopiedFiles(tree, dest)[JoinPath(dest, rel)] == Text(tree[rel])
  {
    assert JoinPath(dest, rel)[|dest| + 1..] == rel;
  }

  class Disk {
    var files: map<string, Content>
    var dirs: set<string>

    constructor (files0: map<string, Content>, dirs0: set<string>)
      ensures files == files0 && dirs == dirs0
    {
      files := files0;
      dirs := dirs0;
    }

    /** `fs.pathExists(p)`. */
    predicate Exists(p: string)
      reads this
    {
      p in files || p in dirs
    }

    method PathExists(p: string) returns (b: bool)
      ensures b <==> p in files || p in dirs
    {
      b := p in files || p in dirs;
    }

    /** `fs.ensureDir(p)` / `fs.mkdirp(p)`. */
    method EnsureDir(p: string)
      modifies this
      ensures dirs == old(dirs) + Ancestors(p)
      ensures files == old(files)
    {
      dirs := dirs + Ancestors(p);
    }

    /** `fs.mkdirSync(p)`: not recursive, so it fails when `p` exists or its parent directory is missing. */
    method MakeDir(p: string) returns (r: Outcome)
      modifies this
      ensures r == if p in old(files) || p in old(dirs) then Fail(EexistMkdir(p))
                   else if Parent(p) in old(dirs) then Pass
                   else Fail(EnoentMkdir(p))
      ensures files == old(files)
      ensures dirs == if r.Pass? then old(dirs) + {p} else old(dirs)
    {
      if p in files || p in dirs {
        r := Fail(EexistMkdir(p));
      } else if Parent(p) in dirs {
        dirs := dirs + {p};
        r := Pass;
      } else {
        r := Fail(EnoentMkdir(p));
      }
    }

    /** `fs.writeFile(p, …)` / `fs.writeJson(p, …)`: overwrites; fails when the parent directory is missing. */
    method WriteFile(p: string, c: Content) returns (r: Outcome)
      modifies this
      ensures r == if Parent(p) in old(dirs) then Pass else Fail(EnoentOpen(p))
      ensures files == if r.Pass? then old(files)[p := c] else old(files)
      ensures dirs == old(dirs)
    {
      if Parent(p) in dirs {
        files := files[p := c];
        r := Pass;
      } else {
        r := Fail(EnoentOpen(p));
      }
    }

    method ReadText(p: string) returns (r: Result<string>)
      ensures r == TextAt(files, dirs, p)
      ensures r.Ok? ==> files[p] == Text(r.value)
    {
      r := TextAt(files, dirs, p);
    }

    method ReadJson(p: string) returns (r: Result<Json>)
      ensures r == JsonAt(files, dirs, p)
      ensures r.Ok? ==> files[p] == Json(r.value)
    {
      r := JsonAt(files, dirs, p);
    }

    /** `fs.copy(src, dest)` of a source directory whose files are `tree`. */
    method CopyTree(tree: map<string, string>, dest: string)
      modifies this
      ensures files == old(files) + CopiedFiles(tree, dest)
      ensures dirs == old(dirs) + CopiedDirs(tree, dest)
    {
      files := files + CopiedFiles(tree, dest);
      dirs := dirs + CopiedDirs(tree, dest);
    }
  }
}
