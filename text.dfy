/** The JavaScript and Node string operations the core relies on:
    `indexOf`, `endsWith`, `String.prototype.replace` with a string pattern,
    ASCII `toLowerCase` and POSIX `path.basename`. */
module Text {
  import opened Wrappers

  /** `pat` occurs in `s` starting at index `i`. */
  predicate OccursAt(s: string, pat: string, i: nat)
  {
    i + |pat| <= |s| && s[i..i + |pat|] == pat
  }

  /** `s.endsWith(suffix)`. */
  predicate EndsWith(s: string, suffix: string)
  {
    |suffix| <= |s| && s[|s| - |suffix|..] == suffix
  }

  /** `s.indexOf(pat, from)`: the first occurrence at or after `from`. */
  function IndexOfFrom(s: string, pat: string, from: nat): (r: Option<nat>)
    ensures r.Some? ==> from <= r.value && OccursAt(s, pat, r.value)
    ensures r.Some? ==> forall j :: from <= j < r.value ==> !OccursAt(s, pat, j)
    ensures r.None? ==> forall j :: from <= j ==> !OccursAt(s, pat, j)
    decreases |s| - from
  {
    if from + |pat| > |s| then None
    else if s[from..from + |pat|] == pat then Some(from)
    else IndexOfFrom(s, pat, from + 1)
  }

  /** `s.indexOf(pat)`: the first occurrence, or None for JavaScript's -1. */
  function IndexOf(s: string, pat: string): (r: Option<nat>)
    ensures r.Some? ==> OccursAt(s, pat, r.value)
    ensures r.Some? ==> forall j :: 0 <= j < r.value ==> !OccursAt(s, pat, j)
    ensures r.None? ==> forall j :: !OccursAt(s, pat, j)
  {
    IndexOfFrom(s, pat, 0)
  }

  /** The replacement text of the ECMA-262 GetSubstitution operation for a
      match without capture groups: `$$`, `$&`, `` $` `` and `$'` are
      expanded, every other `$` stands for itself. */
  function Substitute(template: string, matched: string, before: string, after: string): string
    decreases |template|
  {
    if |template| == 0 then ""
    else if template[0] == '$' && |template| >= 2 && template[1] in "$&`'" then
      var expansion :=
        if template[1] == '$' then "$"
        else if template[1] == '&' then matched
        else if template[1] == '`' then before
        else after;
      expansion + Substitute(template[2..], matched, before, after)
    else
      [template[0]] + Substitute(template[1..], matched, before, after)
  }

  /** A replacement string without `$` is inserted literally. */
  lemma {:induction false} SubstituteLiteral(template: string, matched: string, before: string, after: string)
    requires '$' !in template
    ensures Substitute(template, matched, before, after) == template
  {
    if |template| > 0 {
      assert template[0] != '$';
      SubstituteLiteral(template[1..], matched, before, after);
    }
  }

  /** `s.replace(pattern, replacement)` with a string pattern: only the first
      occurrence is replaced; without an occurrence `s` is returned as is. */
  function Replace(s: string, pattern: string, replacement: string): (r: string)
    ensures (forall j :: !OccursAt(s, pattern, j)) ==> r == s
  {
    match IndexOf(s, pattern)
    case None => s
    case Some(i) =>
      var before := s[..i];
      var after := s[i + |pattern|..];
      before + Substitute(replacement, pattern, before, after) + after
  }

  /** `pat` first occurs in `s` at `i`. */
  predicate FirstOccurrenceAt(s: string, pat: string, i: nat)
  {
    OccursAt(s, pat, i) && forall j :: 0 <= j < i ==> !OccursAt(s, pat, j)
  }

  /** Replacing the first occurrence: when `pattern` first occurs right
      after `pre`, and the replacement holds no `$`, the occurrence is
      exchanged for the replacement and nothing else changes. */
  lemma ReplaceFirst(pre: string, pattern: string, post: string, replacement: string)
    requires FirstOccurrenceAt(pre + pattern + post, pattern, |pre|)
    requires '$' !in replacement
    ensures Replace(pre + pattern + post, pattern, replacement) == pre + replacement + post
  {
    var s := pre + pattern + post;
    assert IndexOf(s, pattern) == Some(|pre|);
    assert s[..|pre|] == pre;
    assert s[|pre| + |pattern|..] == post;
    SubstituteLiteral(replacement, pattern, pre, post);
  }

  /** The index of the last `c` in `s`. */
  function LastIndexOf(s: string, c: char): (r: Option<nat>)
    ensures r.Some? ==> r.value < |s| && s[r.value] == c
    ensures r.Some? ==> forall j :: r.value < j < |s| ==> s[j] != c
    ensures r.None? ==> c !in s
  {
    if |s| == 0 then None
    else if s[|s| - 1] == c then Some(|s| - 1)
    else LastIndexOf(s[..|s| - 1], c)
  }

  /** POSIX `path.basename` of a path without a trailing separator: the
      longest suffix that holds no `/`. */
  function Basename(path: string): string
  {
    match LastIndexOf(path, '/')
    case None => path
    case Some(i) => path[i + 1..]
  }

  /** The base name is the last component of the path: a suffix without
      `/`, preceded by a `/` unless it is the whole path. */
  lemma BasenameIsLastComponent(path: string)
    ensures '/' !in Basename(path)
    ensures EndsWith(path, Basename(path))
    ensures |Basename(path)| < |path| ==> path[|path| - |Basename(path)| - 1] == '/'
  {
    match LastIndexOf(path, '/')
    case None =>
    case Some(i) =>
      assert path[|path| - |path[i + 1..]|..] == path[i + 1..];
  }

  /** The base name of a path without `/` is the path itself. */
  lemma BasenameOfName(name: string)
    requires '/' !in name
    ensures Basename(name) == name
  {
    BasenameIsLastComponent(name);
  }

  /** The base name of `dir/name` is `name`. */
  lemma BasenameOfPath(dir: string, name: string)
    requires '/' !in name
    ensures Basename(dir + "/" + name) == name
  {
    var path := dir + "/" + name;
    BasenameIsLastComponent(path);
    assert path[|path| - |name|..] == name;
    assert path[|dir|] == '/';
  }

  predicate IsUpper(c: char)
  {
    'A' <= c <= 'Z'
  }

  /** ASCII `toLowerCase` of one character. */
  function LowerChar(c: char): (l: char)
    ensures !IsUpper(l)
    ensures IsUpper(c) ==> l as int == c as int + 32
    ensures !IsUpper(c) ==> l == c
  {
    if IsUpper(c) then (c as int + 32) as char else c
  }

  predicate IsLowerCase(s: string)
  {
    forall i :: 0 <= i < |s| ==> !IsUpper(s[i])
  }

  /** ASCII `s.toLowerCase()`. */
  function ToLower(s: string): (r: string)
    ensures |r| == |s|
    ensures forall i :: 0 <= i < |s| ==> r[i] == LowerChar(s[i])
    ensures IsLowerCase(r)
  {
    seq(|s|, i requires 0 <= i < |s| => LowerChar(s[i]))
  }

  /** Lower-casing a lower-case string changes nothing. */
  lemma ToLowerIdempotent(s: string)
    requires IsLowerCase(s)
    ensures ToLower(s) == s
  {
  }
}
