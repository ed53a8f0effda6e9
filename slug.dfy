/**
 * The regular-expression steps from which both card-id slug functions are
 * built, each with what it guarantees about its output.
 */
module Slug {
  import opened Text

  /** The class `[a-z0-9_]` that survives `replace(/[^a-z0-9_]/g, '')`. */
  predicate IsSlugChar(c: char) {
    'a' <= c <= 'z' || '0' <= c <= '9' || c == '_'
  }

  /** Two slugs joined by an underscore form a slug that holds an underscore. */
  lemma JoinedSlug(a: string, b: string)
    requires AllSlugChars(a) && AllSlugChars(b)
    ensures AllSlugChars(a + "_" + b) && '_' in a + "_" + b
  {
    var r := a + "_" + b;
    assert r[|a|] == '_';
    assert forall i :: 0 <= i < |r| ==> r[i] == (if i < |a| then a[i] else if i == |a| then '_' else b[i - |a| - 1]);
  }

  predicate IsNotSlugChar(c: char) {
    !IsSlugChar(c)
  }

  predicate AllSlugChars(s: string) {
    forall i :: 0 <= i < |s| ==> IsSlugChar(s[i])
  }

  predicate NoDoubleUnderscore(s: string) {
    forall i :: 0 <= i < |s| - 1 ==> !(s[i] == '_' && s[i + 1] == '_')
  }

  predicate NoEdgeUnderscore(s: string) {
    s != [] ==> s[0] != '_' && s[|s| - 1] != '_'
  }

  /** What the JavaScript slug function promises of its output. */
  predicate IsCleanSlug(s: string) {
    AllSlugChars(s) && NoDoubleUnderscore(s) && NoEdgeUnderscore(s)
  }

  /** Lower-casing leaves a string of slug characters alone. */
  lemma LowerOfSlug(s: string)
    requires AllSlugChars(s)
    ensures Lower(s) == s
  {
  }

  /**
   * `replace(/\s+/g, '_')` for the space class `space`: each maximal run of
   * `space` characters becomes a single underscore.
   */
  function ReplaceSpaceRuns(s: string, space: char -> bool): (r: string)
    ensures forall i :: 0 <= i < |r| ==> r[i] == '_' || (r[i] in s && !space(r[i]))
    ensures (forall i :: 0 <= i < |s| ==> !space(s[i])) ==> r == s
    decreases |s|
  {
    if s == [] then []
    else if space(s[0]) then "_" + ReplaceSpaceRuns(s[CountPrefix(s, space)..], space)
    else [s[0]] + ReplaceSpaceRuns(s[1..], space)
  }

  /** A character outside the class is copied. */
  lemma ReplaceSpaceRunsKeep(c: char, rest: string, space: char -> bool)
    requires !space(c)
    ensures ReplaceSpaceRuns([c] + rest, space) == [c] + ReplaceSpaceRuns(rest, space)
  {
    assert ([c] + rest)[1..] == rest;
  }

  /** A single class character followed by one outside the class becomes one underscore. */
  lemma ReplaceSpaceRunsSingle(c: char, rest: string, space: char -> bool)
    requires space(c) && (rest == [] || !space(rest[0]))
    ensures ReplaceSpaceRuns([c] + rest, space) == "_" + ReplaceSpaceRuns(rest, space)
  {
    assert CountPrefix([c] + rest, space) == 1;
    assert ([c] + rest)[1..] == rest;
  }

  /** `replace(/[^a-z0-9_]/g, '')`. */
  function KeepSlugChars(s: string): (r: string)
    ensures AllSlugChars(r)
  {
    var r := RemoveAll(s, IsNotSlugChar);
    assert forall i :: 0 <= i < |r| ==> r[i] in r && !IsNotSlugChar(r[i]);
    r
  }

  /** A string of slug characters passes the filter unchanged. */
  lemma {:induction false} KeepSlugCharsOfSlug(s: string)
    requires AllSlugChars(s)
    ensures KeepSlugChars(s) == s
  {
    if s != [] {
      KeepSlugCharsOfSlug(s[1..]);
    }
  }

  /** `replace(/_+/g, '_')`: every run of underscores becomes one underscore. */
  function CollapseUnderscores(s: string): (r: string)
    ensures |r| <= |s| && (|s| > 0 ==> |r| > 0 && r[0] == s[0] && r[|r| - 1] == s[|s| - 1])
    ensures forall i :: 0 <= i < |r| ==> r[i] in s
    ensures NoDoubleUnderscore(r)
    ensures NoDoubleUnderscore(s) ==> r == s
  {
    if |s| < 2 then s
    else if s[0] == '_' && s[1] == '_' then CollapseUnderscores(s[1..])
    else [s[0]] + CollapseUnderscores(s[1..])
  }

  /** `replace(/^_|_$/g, '')`: at most one underscore is removed at each end. */
  function TrimEdgeUnderscore(s: string): (r: string)
    ensures forall i :: 0 <= i < |r| ==> r[i] in s
    ensures NoDoubleUnderscore(s) ==> NoDoubleUnderscore(r) && NoEdgeUnderscore(r)
    ensures NoEdgeUnderscore(s) ==> r == s
  {
    var t := if |s| > 0 && s[0] == '_' then s[1..] else s;
    if |t| > 0 && t[|t| - 1] == '_' then t[..|t| - 1] else t
  }
}
