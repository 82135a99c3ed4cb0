/**
 * The two string operations the results page applies to user text:
 * removing a trailing run of line feeds (the regular-expression replacement
 * `/\n+$/` -> "") and trimming surrounding white space (`String.prototype.trim`).
 */
module Text {

  /** True when every character of `s` is a line feed. */
  ghost predicate AllNewlines(s: string) {
    forall k :: 0 <= k < |s| ==> s[k] == '\n'
  }

  /**
   * The white space removed by `trim`: the ASCII white space characters,
   * no-break space, the line and paragraph separators and the byte order mark.
   */
  predicate IsSpace(c: char) {
    c == ' ' || c == '\t' || c == '\n' || c == '\r' || c == '\U{B}' || c == '\U{C}'
    || c == '\U{A0}' || c == '\U{2028}' || c == '\U{2029}' || c == '\U{FEFF}'
  }

  /**
   * `s.replace(/\n+$/, "")`. Without the multiline flag `$` matches only at the
   * end of the input, so the leftmost match is the whole trailing run of line
   * feeds, and that run is what is removed.
   */
  function StripTrailingNewlines(s: string): (r: string)
    ensures |r| <= |s| && r == s[..|r|]
    ensures r == [] || r[|r| - 1] != '\n'
    ensures AllNewlines(s[|r|..])
  {
    if |s| > 0 && s[|s| - 1] == '\n' then StripTrailingNewlines(s[..|s| - 1]) else s
  }

  /**
   * The three facts above determine the result: any prefix of `s` that does
   * not end in a line feed and is followed only by line feeds is the stripped string.
   */
  lemma StripTrailingNewlinesUnique(s: string, p: string)
    requires |p| <= |s| && p == s[..|p|]
    requires p == [] || p[|p| - 1] != '\n'
    requires AllNewlines(s[|p|..])
    ensures p == StripTrailingNewlines(s)
  {
  }

  /** Stripping twice is stripping once. */
  lemma StripTrailingNewlinesIdempotent(s: string)
    ensures StripTrailingNewlines(StripTrailingNewlines(s)) == StripTrailingNewlines(s)
  {
  }

  /** True when `s[lo..hi]` is all white space. */
  ghost predicate SpaceIn(s: string, lo: nat, hi: nat)
    requires lo <= hi <= |s|
  {
    forall k :: lo <= k < hi ==> IsSpace(s[k])
  }

  /** The first index at or after `i` that does not hold white space (or `|s|`). */
  function SkipSpaceForward(s: string, i: nat): (j: nat)
    requires i <= |s|
    ensures i <= j <= |s| && SpaceIn(s, i, j)
    ensures j == |s| || !IsSpace(s[j])
    decreases |s| - i
  {
    if i < |s| && IsSpace(s[i]) then SkipSpaceForward(s, i + 1) else i
  }

  /** The end of `s[lo..j]` once its trailing white space is removed. */
  function SkipSpaceBackward(s: string, lo: nat, j: nat): (k: nat)
    requires lo <= j <= |s|
    ensures lo <= k <= j && SpaceIn(s, k, j)
    ensures k == lo || !IsSpace(s[k - 1])
  {
    if lo < j && IsSpace(s[j - 1]) then SkipSpaceBackward(s, lo, j - 1) else j
  }

  /** Where `s.trim()` starts and ends in `s`. */
  function TrimBounds(s: string): (b: (nat, nat))
    ensures b.0 <= b.1 <= |s|
    ensures SpaceIn(s, 0, b.0) && SpaceIn(s, b.1, |s|)
    ensures b.0 == b.1 || (!IsSpace(s[b.0]) && !IsSpace(s[b.1 - 1]))
  {
    var i := SkipSpaceForward(s, 0);
    (i, SkipSpaceBackward(s, i, |s|))
  }

  /**
   * `s.trim()`: the slice of `s` left once leading and trailing white space is
   * removed; it is empty exactly when `s` is all white space.
   */
  function Trim(s: string): (r: string)
    ensures var (i, j) := TrimBounds(s); r == s[i..j]
    ensures r == [] || (!IsSpace(r[0]) && !IsSpace(r[|r| - 1]))
    ensures r == [] <==> SpaceIn(s, 0, |s|)
  {
    var (i, j) := TrimBounds(s);
    assert i == j ==> i == |s|;
    s[i..j]
  }

  /** Trimming twice is trimming once. */
  lemma TrimIdempotent(s: string)
    ensures Trim(Trim(s)) == Trim(s)
  {
    var r := Trim(s);
    assert SkipSpaceForward(r, 0) == 0;
    assert SkipSpaceBackward(r, 0, |r|) == |r|;
    assert r[0..|r|] == r;
  }

  /** A trimmed string has no trailing line feed to strip. */
  lemma TrimmedNeedsNoStrip(q: string)
    requires Trim(q) == q
    ensures StripTrailingNewlines(q) == q
  {
  }
}
