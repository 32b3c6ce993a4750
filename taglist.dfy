/**
 * src/commands/list.ts: the versions `list` prints, read from the output of
 * `git ls-remote --tags`. Each line is split on tabs; its second field is
 * kept when it is present, non-empty and starts with `refs/tags/`, and the
 * version is that field with the prefix removed.
 */
module TagList {
  import opened Wrappers
  import opened JsString

  const TagPrefix: string := "refs/tags/"

  /** `line.split('\t')[1]`: undefined when the line has no tab. */
  function TagField(line: string): Option<string>
  {
    var parts := Split(line, '\t');
    if |parts| >= 2 then Some(parts[1]) else None
  }

  /** The filter: `tag && tag.startsWith('refs/tags/')`. */
  predicate Kept(tag: Option<string>)
  {
    tag.Some? && tag.value != "" && StartsWith(tag.value, TagPrefix)
  }

  /** The last map: `tag.replace('refs/tags/', '')`. */
  function Version(tag: string): string
  {
    ReplaceFirst(tag, TagPrefix, "")
  }

  /** The map, filter and map applied line by line, keeping the order of the lines. */
  function LineVersions(lines: seq<string>): seq<string>
    decreases |lines|
  {
    if lines == [] then []
    else
      var tag := TagField(lines[0]);
      (if Kept(tag) then [Version(tag.value)] else []) + LineVersions(lines[1..])
  }

  function Versions(stdout: string): seq<string>
  {
    LineVersions(Split(stdout, '\n'))
  }

  // ----------------------------------------------------------------- lemmas

  /** A line without a tab has no second field. */
  lemma NoTabNoField(line: string)
    requires '\t' !in line
    ensures TagField(line) == None
  {
    SplitPrefix(line, "", '\t');
    assert line + "" == line;
  }

  /** A line `<sha>\t<ref>` has `<ref>` as its second field. */
  lemma SecondField(sha: string, ref: string)
    requires '\t' !in sha && '\t' !in ref
    ensures TagField(sha + "\t" + ref) == Some(ref)
  {
    var t := "\t" + ref;
    SplitPrefix(ref, "", '\t');
    assert ref + "" == ref;
    assert t[1..] == ref;
    assert Split(t, '\t') == [""] + [ref];
    SplitPrefix(sha, t, '\t');
    assert sha + "" == sha;
    assert sha + "\t" + ref == sha + t;
  }

  /** A tag line of `git ls-remote --tags` gives its version. */
  lemma TagLineVersion(sha: string, v: string)
    requires '\t' !in sha && '\t' !in v
    ensures LineVersions([sha + "\t" + TagPrefix + v]) == [v]
  {
    assert '\t' !in TagPrefix + v;
    assert sha + "\t" + TagPrefix + v == sha + "\t" + (TagPrefix + v);
    SecondField(sha, TagPrefix + v);
    assert (TagPrefix + v)[..|TagPrefix|] == TagPrefix;
    ReplaceFirstHead(TagPrefix, v, "");
    assert "" + v == v;
    assert Kept(Some(TagPrefix + v)) && Version(TagPrefix + v) == v;
    assert LineVersions([sha + "\t" + TagPrefix + v][1..]) == [];
  }

  /** A line whose second field is missing, empty or not under `refs/tags/` contributes nothing. */
  lemma DroppedLine(line: string)
    requires !Kept(TagField(line))
    ensures LineVersions([line]) == []
  {
    assert [line][1..] == [];
  }

  /** The versions of two blocks of lines are those of the first block, then those of the second. */
  lemma {:induction false} VersionsAppend(a: seq<string>, b: seq<string>)
    ensures LineVersions(a + b) == LineVersions(a) + LineVersions(b)
    decreases |a|
  {
    if a == [] {
      assert a + b == b;
    } else {
      assert (a + b)[0] == a[0];
      assert (a + b)[1..] == a[1..] + b;
      VersionsAppend(a[1..], b);
    }
  }

  /** There are never more versions than lines. */
  lemma {:induction false} VersionsBound(lines: seq<string>)
    ensures |LineVersions(lines)| <= |lines|
    decreases |lines|
  {
    if lines != [] {
      VersionsBound(lines[1..]);
    }
  }

  /** Every version is the rest of some line's second field after `refs/tags/`. */
  lemma {:induction false} VersionsSound(lines: seq<string>, v: string)
    requires v in LineVersions(lines)
    ensures exists i :: 0 <= i < |lines| && TagField(lines[i]) == Some(TagPrefix + v)
    decreases |lines|
  {
    var tag := TagField(lines[0]);
    var head := if Kept(tag) then [Version(tag.value)] else [];
    if v in head {
      var t := tag.value;
      var rest := t[|TagPrefix|..];
      assert t == TagPrefix + rest;
      ReplaceFirstHead(TagPrefix, rest, "");
      assert "" + rest == rest;
      assert v == rest;
    } else {
      assert v in LineVersions(lines[1..]);
      VersionsSound(lines[1..], v);
      var i :| 0 <= i < |lines[1..]| && TagField(lines[1..][i]) == Some(TagPrefix + v);
      assert lines[i + 1] == lines[1..][i];
    }
  }
}
