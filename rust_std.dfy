/** The pieces of Rust's standard library that the modelled code relies on:
    Option and Result, and the `str` operations `trim`, `find` and `contains`
    over strings taken as sequences of Unicode scalar values. */
module RustStd {

  datatype Option<T> = None | Some(value: T)

  datatype Result<T, E> = Ok(value: T) | Err(error: E)

  function Min(a: int, b: int): int { if a <= b then a else b }

  function Max(a: int, b: int): int { if a <= b then b else a }

  /** Unicode White_Space, the set that `char::is_whitespace` (and so `str::trim`) uses. */
  const WHITE_SPACE: set<char> := {
    '\U{0009}', '\U{000A}', '\U{000B}', '\U{000C}', '\U{000D}', ' ', '\U{0085}', '\U{00A0}',
    '\U{1680}', '\U{2000}', '\U{2001}', '\U{2002}', '\U{2003}', '\U{2004}', '\U{2005}',
    '\U{2006}', '\U{2007}', '\U{2008}', '\U{2009}', '\U{200A}', '\U{2028}', '\U{2029}',
    '\U{202F}', '\U{205F}', '\U{3000}'
  }

  predicate IsWhitespace(c: char) {
    c in WHITE_SPACE
  }

  /** Every character of `s` is in `cs`. */
  predicate AllIn(s: string, cs: set<char>) {
    forall k :: 0 <= k < |s| ==> s[k] in cs
  }

  /** `r` is the slice of `s` at offset `i`, and everything before and after it is in `cs`. */
  predicate SliceBetweenRuns(s: string, i: nat, r: string, cs: set<char>) {
    i + |r| <= |s| && r == s[i..i + |r|] && AllIn(s[..i], cs) && AllIn(s[i + |r|..], cs)
  }

  /** The forward search of `str::trim_matches`: the first index at or after `i` whose
      character is not in `cs`, or `|s|`. */
  function SkipFrom(s: string, cs: set<char>, i: nat): (n: nat)
    requires i <= |s|
    ensures i <= n <= |s|
    ensures forall k :: i <= k < n ==> s[k] in cs
    ensures n < |s| ==> s[n] !in cs
    decreases |s| - i
  {
    if i < |s| && s[i] in cs then SkipFrom(s, cs, i + 1) else i
  }

  /** The backward search of `str::trim_matches`: the smallest `e` with `lo <= e <= j` such
      that every character in `s[e..j]` is in `cs`. */
  function BackFrom(s: string, cs: set<char>, lo: nat, j: nat): (e: nat)
    requires lo <= j <= |s|
    ensures lo <= e <= j
    ensures forall k :: e <= k < j ==> s[k] in cs
    ensures lo < e ==> s[e - 1] !in cs
    decreases j
  {
    if lo < j && s[j - 1] in cs then BackFrom(s, cs, lo, j - 1) else j
  }

  /** `str::trim_matches` for a set of characters: the slice of `s` between its leading
      and its trailing run of characters from `cs`; empty exactly when all of `s` is in `cs`. */
  function TrimMatches(s: string, cs: set<char>): (r: string)
    ensures r != [] ==> r[0] !in cs && r[|r| - 1] !in cs
    ensures r == [] <==> AllIn(s, cs)
    ensures SliceBetweenRuns(s, SkipFrom(s, cs, 0), r, cs)
  {
    var i := SkipFrom(s, cs, 0);
    var e := BackFrom(s, cs, i, |s|);
    assert i == e ==> AllIn(s, cs);
    assert AllIn(s[..i], cs) && AllIn(s[e..], cs) by {
      forall k | 0 <= k < |s[e..]| ensures s[e..][k] in cs { assert s[e..][k] == s[e + k]; }
    }
    s[i..e]
  }

  /** `s` neither starts nor ends with white space. */
  predicate IsTrimmed(s: string) {
    s == [] || (!IsWhitespace(s[0]) && !IsWhitespace(s[|s| - 1]))
  }

  /** `str::trim`: `s` without its leading and trailing white space. */
  function Trim(s: string): (r: string)
    ensures IsTrimmed(r)
    ensures r == [] <==> AllIn(s, WHITE_SPACE)
    ensures SliceBetweenRuns(s, SkipFrom(s, WHITE_SPACE, 0), r, WHITE_SPACE)
  {
    TrimMatches(s, WHITE_SPACE)
  }

  /** A string that neither starts nor ends with white space is its own trim;
      with Trim's own contract this makes trimming idempotent. */
  lemma TrimOfTrimmed(s: string)
    requires IsTrimmed(s)
    ensures Trim(s) == s
  {
    if s != [] {
      assert SkipFrom(s, WHITE_SPACE, 0) == 0;
      assert BackFrom(s, WHITE_SPACE, 0, |s|) == |s|;
    }
  }

  /** `pat` occurs in `s` starting at index `i`. */
  predicate OccursAt(s: string, pat: string, i: nat) {
    i + |pat| <= |s| && s[i..i + |pat|] == pat
  }

  function FindFrom(s: string, pat: string, i: nat): (r: Option<nat>)
    requires i <= |s|
    ensures r.Some? ==> i <= r.value && OccursAt(s, pat, r.value)
    ensures r.Some? ==> forall j :: i <= j < r.value ==> !OccursAt(s, pat, j)
    ensures r.None? ==> forall j: nat :: i <= j ==> !OccursAt(s, pat, j)
    decreases |s| - i
  {
    if OccursAt(s, pat, i) then Some(i)
    else if i == |s| then None
    else FindFrom(s, pat, i + 1)
  }

  /** `str::find`: the first index at which `pat` occurs in `s`, if any. */
  function Find(s: string, pat: string): (r: Option<nat>)
    ensures r.Some? ==> OccursAt(s, pat, r.value)
    ensures r.Some? ==> forall j :: 0 <= j < r.value ==> !OccursAt(s, pat, j)
    ensures r.None? <==> forall j: nat :: !OccursAt(s, pat, j)
  {
    FindFrom(s, pat, 0)
  }

  /** `str::contains`: `pat` occurs somewhere in `s`. */
  predicate Contains(s: string, pat: string) {
    Find(s, pat).Some?
  }

  /** Searching a suffix `s[t..]` finds exactly the occurrences in `s` at or after `t`, shifted by `t`. */
  lemma OccursInSuffix(s: string, pat: string, t: nat, j: nat)
    requires t <= |s|
    ensures OccursAt(s[t..], pat, j) <==> OccursAt(s, pat, t + j)
  {
    if t + j + |pat| <= |s| {
      assert s[t..][j..j + |pat|] == s[t + j..t + j + |pat|];
    }
  }

  /** `s[t..].find(pat)`, read back in the indices of `s`: it fails exactly when `pat` does not
      occur at or after `t`, and otherwise gives the first occurrence at or after `t`. */
  lemma FindInSuffix(s: string, pat: string, t: nat)
    requires t <= |s|
    ensures Find(s[t..], pat).None? <==> forall u: nat :: t <= u ==> !OccursAt(s, pat, u)
    ensures Find(s[t..], pat).Some? ==>
              var u := t + Find(s[t..], pat).value;
              OccursAt(s, pat, u) && forall w :: t <= w < u ==> !OccursAt(s, pat, w)
  {
    forall j: nat ensures OccursAt(s[t..], pat, j) <==> OccursAt(s, pat, t + j) {
      OccursInSuffix(s, pat, t, j);
    }
    forall u: nat | t <= u ensures OccursAt(s, pat, u) <==> OccursAt(s[t..], pat, u - t) {
      OccursInSuffix(s, pat, t, u - t);
    }
  }
}
