/** Trimming of surrounding whitespace, as Python's argument-less `str.strip`,
    which scans forward past leading whitespace and then backward past
    trailing whitespace and returns the slice in between. */
module Text {

  /** The characters for which Python's `str.isspace` holds, which are the
      ones `str.strip()` removes. */
  predicate IsSpace(c: char) {
    || ('\t' <= c <= '\r')          // U+0009 .. U+000D
    || ('\U{1C}' <= c <= ' ')       // U+001C .. U+0020
    || c == '\U{85}'
    || c == '\U{A0}'
    || c == '\U{1680}'
    || ('\U{2000}' <= c <= '\U{200A}')
    || c == '\U{2028}'
    || c == '\U{2029}'
    || c == '\U{202F}'
    || c == '\U{205F}'
    || c == '\U{3000}'
  }

  ghost predicate AllSpace(s: string) {
    forall i :: 0 <= i < |s| ==> IsSpace(s[i])
  }

  /** Neither starts nor ends with whitespace. */
  predicate Bare(s: string) {
    s == [] || (!IsSpace(s[0]) && !IsSpace(s[|s| - 1]))
  }

  /** The forward scan: the first position at or after `i` that does not
      hold whitespace, or `|s|` if there is none. */
  function SkipSpace(s: string, i: nat): (j: nat)
    requires i <= |s|
    ensures i <= j <= |s|
    ensures forall k :: i <= k < j ==> IsSpace(s[k])
    ensures j < |s| ==> !IsSpace(s[j])
    decreases |s| - i
  {
    if i < |s| && IsSpace(s[i]) then SkipSpace(s, i + 1) else i
  }

  /** The backward scan: the smallest `j` in `lo..hi` such that `s[j..hi]`
      is all whitespace. */
  function SkipSpaceBack(s: string, lo: nat, hi: nat): (j: nat)
    requires lo <= hi <= |s|
    ensures lo <= j <= hi
    ensures forall k :: j <= k < hi ==> IsSpace(s[k])
    ensures lo < j ==> !IsSpace(s[j - 1])
    decreases hi
  {
    if lo < hi && IsSpace(s[hi - 1]) then SkipSpaceBack(s, lo, hi - 1) else hi
  }

  /** Where the trimmed part of `s` starts. */
  function TrimStart(s: string): nat {
    SkipSpace(s, 0)
  }

  /** Where the trimmed part of `s` ends. */
  function TrimEnd(s: string): nat {
    SkipSpaceBack(s, TrimStart(s), |s|)
  }

  /** `s.strip()`: the result has no whitespace at either end, and it is
      empty exactly when `s` is all whitespace. TrimRemovesOnlyPadding and
      TrimOfPadded below say which part of `s` it is. */
  function Trim(s: string): (r: string)
    ensures |r| <= |s|
    ensures Bare(r)
    ensures r == [] <==> AllSpace(s)
  {
    var lo, hi := TrimStart(s), TrimEnd(s);
    assert lo < hi ==> !IsSpace(s[lo]) && !AllSpace(s);
    s[lo..hi]
  }

  /** The whitespace that Trim removes from the front of `s`. */
  function Leading(s: string): string {
    s[..TrimStart(s)]
  }

  /** The whitespace that Trim removes from the back of `s`. */
  function Trailing(s: string): string {
    s[TrimEnd(s)..]
  }

  /** What Trim removes is whitespace on either side and nothing else. */
  lemma TrimRemovesOnlyPadding(s: string)
    ensures s == Leading(s) + Trim(s) + Trailing(s)
    ensures AllSpace(Leading(s)) && AllSpace(Trailing(s))
  {
    SplitThree(s, TrimStart(s), TrimEnd(s));
    TrailingIsSpace(s);
  }

  lemma TrailingIsSpace(s: string)
    ensures AllSpace(Trailing(s))
  {
    var post := Trailing(s);
    forall i | 0 <= i < |post| ensures IsSpace(post[i]) {
      assert post[i] == s[TrimEnd(s) + i];
    }
  }

  lemma SplitThree(s: string, lo: nat, hi: nat)
    requires lo <= hi <= |s|
    ensures s == s[..lo] + s[lo..hi] + s[hi..]
  {
    assert s[..hi] == s[..lo] + s[lo..hi];
    assert s == s[..hi] + s[hi..];
  }

  /** Trim is determined by its contract: whatever is padded with whitespace
      on both sides and itself has none at either end is what Trim yields. */
  lemma TrimOfPadded(pre: string, core: string, post: string)
    requires AllSpace(pre) && AllSpace(post) && Bare(core)
    ensures Trim(pre + core + post) == core
  {
    var s := pre + core + post;
    var lo, hi := TrimStart(s), TrimEnd(s);
    forall k | 0 <= k < |pre| ensures IsSpace(s[k]) {
      assert s[k] == pre[k];
    }
    forall k | |pre| + |core| <= k < |s| ensures IsSpace(s[k]) {
      assert s[k] == post[k - |pre| - |core|];
    }
    if core == [] {
      assert lo == |s|;
      assert Trim(s) == [];
    } else {
      assert s[|pre|] == core[0];
      assert lo == |pre|;
      assert s[|pre| + |core| - 1] == core[|core| - 1];
      assert hi == |pre| + |core|;
      assert s[lo..hi] == core;
    }
  }

  /** A string made of `pad` spaces, then `core`, then `padAfter` spaces,
      trims to `core`. */
  lemma TrimsTo(s: string, pad: nat, core: string, padAfter: nat)
    requires |s| == pad + |core| + padAfter && s[pad..pad + |core|] == core
    requires forall i :: 0 <= i < pad ==> s[i] == ' '
    requires forall i :: pad + |core| <= i < |s| ==> s[i] == ' '
    requires Bare(core)
    ensures Trim(s) == core
  {
    SplitThree(s, pad, pad + |core|);
    TrimOfPadded(s[..pad], core, s[pad + |core|..]);
  }

  /** Stripping twice is stripping once. */
  lemma TrimIdempotent(s: string)
    ensures Trim(Trim(s)) == Trim(s)
  {
    var t := Trim(s);
    assert [] + t + [] == t;
    TrimOfPadded([], t, []);
  }
}
