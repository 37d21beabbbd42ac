/** The Python string built-ins the library-directory search relies on:
    `str.isspace` for one character and `str.strip()` without arguments. */
module PyText {

  /** The characters Python 3 treats as whitespace (`str.isspace`): the ASCII
      controls TAB to CR, the separators FS/GS/RS/US, SPACE, NEL, NO-BREAK SPACE,
      OGHAM SPACE MARK, the spaces U+2000 to U+200A, LINE and PARAGRAPH
      SEPARATOR, NARROW NO-BREAK SPACE, MEDIUM MATHEMATICAL SPACE and
      IDEOGRAPHIC SPACE. */
  predicate IsSpace(c: char)
  {
    || ('\t' <= c <= '\r')
    || ('\U{1C}' <= c <= '\U{1F}')
    || c == ' '
    || c == '\U{85}'
    || c == '\U{A0}'
    || c == '\U{1680}'
    || ('\U{2000}' <= c <= '\U{200A}')
    || c == '\U{2028}'
    || c == '\U{2029}'
    || c == '\U{202F}'
    || c == '\U{205F}'
    || c == '\U{3000}'
  }

  predicate AllSpace(s: string)
  {
    forall i :: 0 <= i < |s| ==> IsSpace(s[i])
  }

  /** Every character of `s` at a position in `[lo, hi)` is whitespace. */
  predicate SpaceBetween(s: string, lo: int, hi: int)
  {
    forall i :: lo <= i < hi && 0 <= i < |s| ==> IsSpace(s[i])
  }

  /** Neither the first nor the last character is whitespace. */
  predicate NoOuterSpace(s: string)
  {
    s == [] || (!IsSpace(s[0]) && !IsSpace(s[|s| - 1]))
  }

  /** Where `s.lstrip()` starts when scanning from position `i`: the first
      position at or after `i` that is not whitespace, or `|s|`. */
  function SkipSpace(s: string, i: nat): (k: nat)
    requires i <= |s|
    ensures i <= k <= |s| && SpaceBetween(s, i, k)
    ensures k == |s| || !IsSpace(s[k])
    decreases |s| - i
  {
    if i < |s| && IsSpace(s[i]) then SkipSpace(s, i + 1) else i
  }

  /** Where `s.rstrip()` ends when scanning back from position `hi` but not
      past `lo`: the smallest `e` such that `s[e..hi]` is all whitespace. */
  function SkipSpaceBack(s: string, lo: nat, hi: nat): (e: nat)
    requires lo <= hi <= |s|
    ensures lo <= e <= hi && SpaceBetween(s, e, hi)
    ensures e == lo || !IsSpace(s[e - 1])
    decreases hi
  {
    if lo < hi && IsSpace(s[hi - 1]) then SkipSpaceBack(s, lo, hi - 1) else hi
  }

  /** `s.strip()`: `s` without its leading and trailing whitespace. The result
      is the slice `s[lo..hi]` such that everything outside it is whitespace and
      it neither starts nor ends with whitespace. */
  function Strip(s: string): (r: string)
    ensures NoOuterSpace(r)
    ensures exists lo, hi :: 0 <= lo <= hi <= |s| && r == s[lo..hi]
                             && SpaceBetween(s, 0, lo) && SpaceBetween(s, hi, |s|)
    ensures r == [] <==> AllSpace(s)
  {
    var lo := SkipSpace(s, 0);
    var hi := SkipSpaceBack(s, lo, |s|);
    assert lo < hi ==> s[lo..hi][0] == s[lo] && s[lo..hi][hi - lo - 1] == s[hi - 1];
    s[lo..hi]
  }

  /** Stripping a string that already has no outer whitespace, followed by any
      run of whitespace (a line and its newline, say), gives the string back. */
  lemma StripTrailingSpace(s: string, tail: string)
    requires s != [] && NoOuterSpace(s) && AllSpace(tail)
    ensures Strip(s + tail) == s
  {
    var u := s + tail;
    assert u[0] == s[0];
    assert SkipSpace(u, 0) == 0;
    SkipBackOverTail(u, |s|, |u|);
    assert u[..|s|] == s;
  }

  /** Scanning back from `hi` over whitespace stops at `stop` when the
      character before `stop` is not whitespace. */
  lemma {:induction false} SkipBackOverTail(u: string, stop: nat, hi: nat)
    requires 0 < stop <= hi <= |u| && !IsSpace(u[stop - 1]) && SpaceBetween(u, stop, hi)
    ensures SkipSpaceBack(u, 0, hi) == stop
    decreases hi
  {
    if hi > stop {
      SkipBackOverTail(u, stop, hi - 1);
    }
  }
}
