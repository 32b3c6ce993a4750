/**
 * The JavaScript string operations the generators rely on, with their
 * JavaScript meaning: `toLowerCase` (over ASCII letters), `includes`,
 * `startsWith`, `replace` with a string pattern (first occurrence only),
 * `replace` with a global literal regex (every occurrence, left to right,
 * without rescanning inserted text) and `split` on one character.
 */
module JsString {
  import opened Wrappers

  function LowerChar(c: char): char
  {
    if 'A' <= c <= 'Z' then (c as int + 32) as char else c
  }

  /** `s.toLowerCase()` restricted to ASCII letters. */
  function Lower(s: string): (r: string)
    ensures |r| == |s|
    ensures forall i :: 0 <= i < |s| ==> r[i] == LowerChar(s[i])
  {
    if s == [] then [] else [LowerChar(s[0])] + Lower(s[1..])
  }

  lemma LowerIdempotent(s: string)
    ensures Lower(Lower(s)) == Lower(s)
  {
    assert forall i :: 0 <= i < |s| ==> LowerChar(LowerChar(s[i])) == LowerChar(s[i]);
  }

  /** Equal strings with a common prefix have equal remainders. */
  lemma CancelPrefix(p: string, a: string, b: string)
    requires p + a == p + b
    ensures a == b
  {
    assert a == (p + a)[|p|..];
    assert b == (p + b)[|p|..];
  }

  /** Lower-casing never introduces a character that is not a lower-case letter. */
  lemma LowerKeepsAbsent(s: string, c: char)
    requires c !in s && !('a' <= c <= 'z')
    ensures c !in Lower(s)
  {
    forall i | 0 <= i < |s|
      ensures Lower(s)[i] != c
    {
      assert s[i] != c;
    }
  }

  lemma LowerAppend(a: string, b: string)
    ensures Lower(a + b) == Lower(a) + Lower(b)
  {
    assert forall i :: 0 <= i < |a + b| ==> (a + b)[i] == if i < |a| then a[i] else b[i - |a|];
  }

  // ---------------------------------------------------------------- matching

  /** The last character, a space for the empty string. */
  function Last(s: string): char
  {
    if s == [] then ' ' else s[|s| - 1]
  }

  /** `p` occurs in `s` starting at index `k`. */
  predicate MatchAt(s: string, p: string, k: int)
  {
    0 <= k && k + |p| <= |s| && s[k..k + |p|] == p
  }

  /** `s.includes(p)`. */
  predicate Includes(s: string, p: string)
  {
    exists k :: 0 <= k <= |s| && MatchAt(s, p, k)
  }

  /** `s.startsWith(p)`. */
  predicate StartsWith(s: string, p: string)
  {
    |p| <= |s| && s[..|p|] == p
  }

  /** `k` is the leftmost occurrence of `p` in `s`. */
  predicate FirstMatch(s: string, p: string, k: int)
  {
    MatchAt(s, p, k) && forall j :: 0 <= j < k ==> !MatchAt(s, p, j)
  }

  /** `s.indexOf(p, k)`, with -1 as None. */
  function IndexFrom(s: string, p: string, k: nat): (r: Option<nat>)
    decreases |s| - k
    ensures r.Some? ==> k <= r.value && MatchAt(s, p, r.value)
    ensures r.Some? ==> forall j :: k <= j < r.value ==> !MatchAt(s, p, j)
    ensures r.None? ==> forall j :: k <= j ==> !MatchAt(s, p, j)
  {
    if k + |p| > |s| then None
    else if s[k..k + |p|] == p then Some(k)
    else IndexFrom(s, p, k + 1)
  }

  lemma FirstMatchExists(s: string, p: string) returns (i: nat)
    requires Includes(s, p)
    ensures FirstMatch(s, p, i)
  {
    var r := IndexFrom(s, p, 0);
    i := r.value;
  }

  lemma FirstMatchUnique(s: string, p: string, i: int, j: int)
    requires FirstMatch(s, p, i) && FirstMatch(s, p, j)
    ensures i == j
  {
  }

  /** Shifting a match across a prefix. */
  lemma MatchAtAppend(a: string, b: string, p: string, k: int)
    requires k >= 0
    ensures MatchAt(a + b, p, k + |a|) <==> MatchAt(b, p, k)
  {
    if k + |p| <= |b| {
      assert (a + b)[k + |a|..k + |a| + |p|] == b[k..k + |p|];
    }
  }

  /** A match found inside a part is a match in the whole. */
  lemma IncludesInfix(a: string, t: string, b: string, p: string)
    requires Includes(t, p)
    ensures Includes(a + t + b, p)
  {
    var k :| 0 <= k <= |t| && MatchAt(t, p, k);
    assert (a + t + b)[|a| + k..|a| + k + |p|] == t[k..k + |p|];
    assert MatchAt(a + t + b, p, |a| + k);
  }

  /** A text includes its own prefix. */
  lemma IncludesHead(t: string, b: string)
    ensures Includes(t + b, t)
  {
    assert (t + b)[0..|t|] == t;
    assert MatchAt(t + b, t, 0);
  }

  /** What a suffix includes, the whole text includes. */
  lemma IncludesTail(a: string, t: string, p: string)
    requires Includes(t, p)
    ensures Includes(a + t, p)
  {
    var k :| 0 <= k <= |t| && MatchAt(t, p, k);
    assert (a + t)[|a| + k..|a| + k + |p|] == t[k..k + |p|];
    assert MatchAt(a + t, p, |a| + k);
  }

  lemma IncludesRefl(p: string)
    ensures Includes(p, p)
  {
    assert MatchAt(p, p, 0);
  }

  lemma IncludesSelf(a: string, t: string, b: string)
    ensures Includes(a + t + b, t)
  {
    assert MatchAt(t, t, 0);
    IncludesInfix(a, t, b, t);
  }

  /** `includes` is transitive: a part of a part is a part. */
  lemma IncludesTrans(s: string, t: string, p: string)
    requires Includes(s, t) && Includes(t, p)
    ensures Includes(s, p)
  {
    var k :| 0 <= k <= |s| && MatchAt(s, t, k);
    assert s == s[..k] + t + s[k + |t|..];
    IncludesInfix(s[..k], t, s[k + |t|..], p);
  }

  // ------------------------------------------------- replace, first occurrence

  /** `s.replace(p, r)` with a string pattern: only the first occurrence. */
  function ReplaceFirst(s: string, p: string, r: string): string
    decreases |s|
  {
    if |s| < |p| then s
    else if s[..|p|] == p then r + s[|p|..]
    else [s[0]] + ReplaceFirst(s[1..], p, r)
  }

  lemma ReplaceFirstAt(s: string, p: string, r: string, i: int)
    requires FirstMatch(s, p, i)
    ensures ReplaceFirst(s, p, r) == s[..i] + r + s[i + |p|..]
    decreases i
  {
    if i == 0 {
      assert s[..|p|] == p;
    } else {
      assert !MatchAt(s, p, 0);
      assert s == [s[0]] + s[1..];
      forall j | 0 <= j < i - 1
        ensures !MatchAt(s[1..], p, j)
      {
        MatchAtAppend([s[0]], s[1..], p, j);
      }
      MatchAtAppend([s[0]], s[1..], p, i - 1);
      ReplaceFirstAt(s[1..], p, r, i - 1);
      assert s[..i] == [s[0]] + s[1..][..i - 1];
    }
  }

  lemma {:induction false} ReplaceFirstAbsent(s: string, p: string, r: string)
    requires !Includes(s, p)
    ensures ReplaceFirst(s, p, r) == s
    decreases |s|
  {
    if |s| < |p| {
    } else {
      assert !MatchAt(s, p, 0);
      assert s == [s[0]] + s[1..];
      if Includes(s[1..], p) {
        var k :| 0 <= k <= |s[1..]| && MatchAt(s[1..], p, k);
        MatchAtAppend([s[0]], s[1..], p, k);
        assert false;
      }
      ReplaceFirstAbsent(s[1..], p, r);
    }
  }

  /** The JavaScript contract of `replace` with a string pattern. */
  lemma ReplaceFirstSpec(s: string, p: string, r: string)
    ensures !Includes(s, p) ==> ReplaceFirst(s, p, r) == s
    ensures Includes(s, p) ==> exists i :: FirstMatch(s, p, i) && ReplaceFirst(s, p, r) == s[..i] + r + s[i + |p|..]
  {
    if Includes(s, p) {
      var i := FirstMatchExists(s, p);
      ReplaceFirstAt(s, p, r, i);
    } else {
      ReplaceFirstAbsent(s, p, r);
    }
  }

  /** Text before the first occurrence is copied; the first occurrence is replaced; the rest is copied. */
  lemma ReplaceFirstSplit(a: string, p: string, b: string, r: string)
    requires forall k :: 0 <= k < |a| ==> !MatchAt(a + p + b, p, k)
    ensures ReplaceFirst(a + p + b, p, r) == a + r + b
  {
    var s := a + p + b;
    assert s[|a|..|a| + |p|] == p;
    assert FirstMatch(s, p, |a|);
    ReplaceFirstAt(s, p, r, |a|);
    assert s[..|a|] == a;
    assert s[|a| + |p|..] == b;
  }

  /** Replacing an occurrence puts the replacement into the text. */
  lemma ReplaceFirstIncludes(s: string, p: string, r: string)
    requires Includes(s, p)
    ensures Includes(ReplaceFirst(s, p, r), r)
  {
    var i := FirstMatchExists(s, p);
    ReplaceFirstAt(s, p, r, i);
    IncludesSelf(s[..i], r, s[i + |p|..]);
  }

  /** No occurrence starts inside `a`, so `a` is copied and the first occurrence is sought in `b`. */
  lemma {:induction false} ReplaceFirstShift(a: string, b: string, p: string, r: string)
    requires forall k :: 0 <= k < |a| ==> !MatchAt(a + b, p, k)
    ensures ReplaceFirst(a + b, p, r) == a + ReplaceFirst(b, p, r)
    decreases |a|
  {
    if a == [] {
      assert a + b == b;
    } else {
      var s := a + b;
      if |s| < |p| {
        assert ReplaceFirst(b, p, r) == b;
      } else {
        assert !MatchAt(s, p, 0);
        assert s[1..] == a[1..] + b;
        forall k | 0 <= k < |a[1..]|
          ensures !MatchAt(a[1..] + b, p, k)
        {
          assert s == [s[0]] + s[1..];
          MatchAtAppend([s[0]], s[1..], p, k);
        }
        ReplaceFirstShift(a[1..], b, p, r);
        assert [s[0]] + (a[1..] + ReplaceFirst(b, p, r)) == a + ReplaceFirst(b, p, r);
      }
    }
  }

  lemma ReplaceFirstHead(p: string, b: string, r: string)
    ensures ReplaceFirst(p + b, p, r) == r + b
  {
    assert (p + b)[..|p|] == p;
    assert (p + b)[|p|..] == b;
  }

  // ------------------------------------------------- replace, every occurrence

  /** `s.replace(/p/g, r)` for a literal, non-empty pattern. */
  function ReplaceAll(s: string, p: string, r: string): string
    requires |p| > 0
    decreases |s|
  {
    if |s| < |p| then s
    else if s[..|p|] == p then r + ReplaceAll(s[|p|..], p, r)
    else [s[0]] + ReplaceAll(s[1..], p, r)
  }

  lemma ReplaceAllHead(p: string, b: string, r: string)
    requires |p| > 0
    ensures ReplaceAll(p + b, p, r) == r + ReplaceAll(b, p, r)
  {
    assert (p + b)[..|p|] == p;
    assert (p + b)[|p|..] == b;
  }

  /** No occurrence starts inside `a`, so `a` is copied unchanged. */
  lemma {:induction false} ReplaceAllShift(a: string, b: string, p: string, r: string)
    requires |p| > 0
    requires forall k :: 0 <= k < |a| ==> !MatchAt(a + b, p, k)
    ensures ReplaceAll(a + b, p, r) == a + ReplaceAll(b, p, r)
    decreases |a|
  {
    if a == [] {
      assert a + b == b;
    } else {
      var s := a + b;
      if |s| < |p| {
        assert ReplaceAll(b, p, r) == b;
      } else {
        assert !MatchAt(s, p, 0);
        assert s[1..] == a[1..] + b;
        forall k | 0 <= k < |a[1..]|
          ensures !MatchAt(a[1..] + b, p, k)
        {
          assert s == [s[0]] + s[1..];
          MatchAtAppend([s[0]], s[1..], p, k);
        }
        ReplaceAllShift(a[1..], b, p, r);
        assert [s[0]] + (a[1..] + ReplaceAll(b, p, r)) == a + ReplaceAll(b, p, r);
      }
    }
  }

  lemma ReplaceAllAbsent(s: string, p: string, r: string)
    requires |p| > 0
    requires !Includes(s, p)
    ensures ReplaceAll(s, p, r) == s
  {
    assert s + [] == s;
    ReplaceAllShift(s, [], p, r);
  }

  // ------------------------------------------------ `$` patterns of replace

  /**
   * What one match turns into when `replace` is given the replacement
   * string `r`: the abstract operation GetSubstitution of ECMA-262 for a
   * pattern without capture groups. `$$` stands for `$`, `$&` for the
   * matched text, `` $` `` for the text before the match and `$'` for the
   * text after it; every other character, any other `$` included, is copied.
   */
  function Substitution(r: string, matched: string, before: string, after: string): string
    decreases |r|
  {
    if r == [] then []
    else if r[0] == '$' && |r| > 1 && r[1] == '$' then "$" + Substitution(r[2..], matched, before, after)
    else if r[0] == '$' && |r| > 1 && r[1] == '&' then matched + Substitution(r[2..], matched, before, after)
    else if r[0] == '$' && |r| > 1 && r[1] == '`' then before + Substitution(r[2..], matched, before, after)
    else if r[0] == '$' && |r| > 1 && r[1] == '\'' then after + Substitution(r[2..], matched, before, after)
    else [r[0]] + Substitution(r[1..], matched, before, after)
  }

  /** A replacement without `$` is inserted as it is. */
  lemma {:induction false} SubstitutionPlain(r: string, matched: string, before: string, after: string)
    requires '$' !in r
    ensures Substitution(r, matched, before, after) == r
    decreases |r|
  {
    if r != [] {
      assert r[0] != '$' && '$' !in r[1..];
      SubstitutionPlain(r[1..], matched, before, after);
      assert [r[0]] + r[1..] == r;
    }
  }

  /**
   * `s.replace(p, r)` with a string pattern as JavaScript runs it: the
   * first occurrence becomes `r` with its `$` patterns expanded.
   */
  function ReplaceFirstExpanding(s: string, p: string, r: string): string
  {
    match IndexFrom(s, p, 0)
    case None => s
    case Some(i) => s[..i] + Substitution(r, p, s[..i], s[i + |p|..]) + s[i + |p|..]
  }

  /** The literal `ReplaceFirst` is what JavaScript does exactly when the replacement has no `$`. */
  lemma ReplaceFirstLiteral(s: string, p: string, r: string)
    requires '$' !in r
    ensures ReplaceFirstExpanding(s, p, r) == ReplaceFirst(s, p, r)
  {
    match IndexFrom(s, p, 0)
    case None =>
      ReplaceFirstAbsent(s, p, r);
    case Some(i) =>
      assert FirstMatch(s, p, i);
      ReplaceFirstAt(s, p, r, i);
      SubstitutionPlain(r, p, s[..i], s[i + |p|..]);
  }

  /**
   * `s.replace(/p/g, r)` for a literal, non-empty pattern as JavaScript runs
   * it: every occurrence becomes `r` with its `$` patterns expanded against
   * the whole of `s`.
   */
  function ReplaceAllExpanding(s: string, p: string, r: string): string
    requires |p| > 0
  {
    ReplaceAllAfter([], s, p, r)
  }

  /** The global replace of `s`, the part of the text that follows the already scanned `done`. */
  function ReplaceAllAfter(done: string, s: string, p: string, r: string): string
    requires |p| > 0
    decreases |s|
  {
    if |s| < |p| then s
    else if s[..|p|] == p then Substitution(r, p, done, s[|p|..]) + ReplaceAllAfter(done + p, s[|p|..], p, r)
    else [s[0]] + ReplaceAllAfter(done + [s[0]], s[1..], p, r)
  }

  lemma {:induction false} ReplaceAllAfterLiteral(done: string, s: string, p: string, r: string)
    requires |p| > 0 && '$' !in r
    ensures ReplaceAllAfter(done, s, p, r) == ReplaceAll(s, p, r)
    decreases |s|
  {
    if |s| >= |p| {
      if s[..|p|] == p {
        SubstitutionPlain(r, p, done, s[|p|..]);
        ReplaceAllAfterLiteral(done + p, s[|p|..], p, r);
      } else {
        ReplaceAllAfterLiteral(done + [s[0]], s[1..], p, r);
      }
    }
  }

  /** The literal `ReplaceAll` is what JavaScript does exactly when the replacement has no `$`. */
  lemma ReplaceAllLiteral(s: string, p: string, r: string)
    requires |p| > 0 && '$' !in r
    ensures ReplaceAllExpanding(s, p, r) == ReplaceAll(s, p, r)
  {
    ReplaceAllAfterLiteral([], s, p, r);
  }

  /** `$&` stands for the matched text. */
  lemma SubstitutionMatched(matched: string, before: string, after: string)
    ensures Substitution("$&", matched, before, after) == matched
  {
    assert "$&"[2..] == [];
  }

  lemma {:induction false} ReplaceAllAfterMatched(done: string, s: string, p: string)
    requires |p| > 0
    ensures ReplaceAllAfter(done, s, p, "$&") == s
    decreases |s|
  {
    if |s| >= |p| {
      if s[..|p|] == p {
        SubstitutionMatched(p, done, s[|p|..]);
        ReplaceAllAfterMatched(done + p, s[|p|..], p);
        assert s == s[..|p|] + s[|p|..];
      } else {
        ReplaceAllAfterMatched(done + [s[0]], s[1..], p);
        assert s == [s[0]] + s[1..];
      }
    }
  }

  /** With the replacement `$&` every occurrence is put back as it was: the text does not change. */
  lemma ReplaceAllMatched(s: string, p: string)
    requires |p| > 0
    ensures ReplaceAllExpanding(s, p, "$&") == s
  {
    ReplaceAllAfterMatched([], s, p);
  }

  // --------------------------------------------------------------- splitting

  /** `s.split(sep)` for a one-character separator (`"".split(sep)` is `[""]`). */
  function Split(s: string, sep: char): (parts: seq<string>)
    ensures |parts| >= 1
    ensures forall i :: 0 <= i < |parts| ==> sep !in parts[i]
    decreases |s|
  {
    if s == [] then [""]
    else if s[0] == sep then [""] + Split(s[1..], sep)
    else
      var rest := Split(s[1..], sep);
      [[s[0]] + rest[0]] + rest[1..]
  }

  /** `parts.join(sep)`; an empty array joins to the empty string. */
  function Join(parts: seq<string>, sep: char): string
    decreases |parts|
  {
    if parts == [] then "" else if |parts| == 1 then parts[0] else parts[0] + [sep] + Join(parts[1..], sep)
  }

  /** Splitting loses nothing: joining the parts gives the input back. */
  lemma {:induction false} JoinSplit(s: string, sep: char)
    ensures Join(Split(s, sep), sep) == s
    decreases |s|
  {
    if s == [] {
    } else if s[0] == sep {
      JoinSplit(s[1..], sep);
      assert s == [sep] + s[1..];
    } else {
      var rest := Split(s[1..], sep);
      JoinSplit(s[1..], sep);
      var parts := [[s[0]] + rest[0]] + rest[1..];
      assert parts[1..] == rest[1..];
      if |rest| == 1 {
      } else {
        assert Join(rest, sep) == rest[0] + [sep] + Join(rest[1..], sep);
      }
      assert s == [s[0]] + s[1..];
    }
  }

  lemma {:induction false} SplitPrefix(a: string, t: string, sep: char)
    requires sep !in a
    ensures Split(a + t, sep) == [a + Split(t, sep)[0]] + Split(t, sep)[1..]
    decreases |a|
  {
    if a == [] {
      assert a + t == t;
      var parts := Split(t, sep);
      assert parts == [parts[0]] + parts[1..];
      assert a + parts[0] == parts[0];
    } else {
      assert (a + t)[0] == a[0];
      assert (a + t)[1..] == a[1..] + t;
      SplitPrefix(a[1..], t, sep);
      assert [a[0]] + (a[1..] + Split(t, sep)[0]) == a + Split(t, sep)[0];
    }
  }

  /** Joining separator-free parts and splitting again gives the parts back. */
  lemma {:induction false} SplitJoin(parts: seq<string>, sep: char)
    requires |parts| >= 1
    requires forall i :: 0 <= i < |parts| ==> sep !in parts[i]
    ensures Split(Join(parts, sep), sep) == parts
    decreases |parts|
  {
    if |parts| == 1 {
      SplitPrefix(parts[0], "", sep);
      assert parts[0] + "" == parts[0];
    } else {
      var t := [sep] + Join(parts[1..], sep);
      SplitJoin(parts[1..], sep);
      assert t[0] == sep && t[1..] == Join(parts[1..], sep);
      assert Split(t, sep) == [""] + parts[1..];
      assert parts[0] + "" == parts[0];
      SplitPrefix(parts[0], t, sep);
      assert parts[0] + [sep] + Join(parts[1..], sep) == parts[0] + t;
      assert parts == [parts[0]] + parts[1..];
    }
  }
}
