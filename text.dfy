/** Python's whitespace test and `str.strip()` with no arguments, which the
    single-comment form uses to reject a blank comment before classifying it. */
module Text {

  /** `str.isspace` for one character: the characters CPython treats as
      whitespace (ASCII controls 9-13 and 28-31, space, NEL, NBSP and the
      Unicode space separators, line and paragraph separators). */
  predicate IsSpace(c: char) {
    || ('\t' <= c <= '\r')
    || ('\U{1C}' <= c <= '\U{1F}')
    || c == ' '
    || c == '\U{85}'
    || c == '\U{A0}'
    || c == '\U{1680}'
    || ('\U{2000}' <= c <= '\U{200A}')
    || c == '\U{2028}'
    || c == '\U{2029}'
    || c == '\U{202F}'
    || c == '\U{205F}'
    || c == '\U{3000}'
  }

  /** Scans forward from `j` past whitespace: the result is the first index
      at or after `j` that is not whitespace, or `|s|` when there is none. */
  function SkipForward(s: string, j: nat): (n: nat)
    requires j <= |s|
    ensures j <= n <= |s|
    ensures forall i :: j <= i < n ==> IsSpace(s[i])
    ensures n < |s| ==> !IsSpace(s[n])
    decreases |s| - j
  {
    if j < |s| && IsSpace(s[j]) then SkipForward(s, j + 1) else j
  }

  /** Scans backward from `j` past whitespace: the result is one past the
      last index before `j` that is not whitespace, or `0` when there is none. */
  function SkipBackward(s: string, j: nat): (n: nat)
    requires j <= |s|
    ensures n <= j
    ensures forall i :: n <= i < j ==> IsSpace(s[i])
    ensures n > 0 ==> !IsSpace(s[n - 1])
  {
    if j > 0 && IsSpace(s[j - 1]) then SkipBackward(s, j - 1) else j
  }

  /** `s.strip()`: a contiguous piece of `s` with only whitespace before and
      after it and whitespace neither at its start nor at its end; it is empty
      exactly when `s` is all whitespace. */
  function Strip(s: string): (r: string)
    ensures exists k :: 0 <= k <= |s| - |r| && r <= s[k..]
                        && (forall i :: 0 <= i < k ==> IsSpace(s[i]))
                        && (forall i :: k + |r| <= i < |s| ==> IsSpace(s[i]))
    ensures r != [] ==> !IsSpace(r[0]) && !IsSpace(r[|r| - 1])
    ensures r == [] <==> IsBlank(s)
  {
    var lo := SkipForward(s, 0);
    if lo == |s| then
      assert [] <= s[lo..];
      []
    else
      var hi := SkipBackward(s, |s|);
      assert s[lo..hi] <= s[lo..];
      s[lo..hi]
  }

  /** A blank comment: every character of it is whitespace (the empty
      comment included). */
  predicate IsBlank(s: string) {
    forall i :: 0 <= i < |s| ==> IsSpace(s[i])
  }

  /** Evaluates the guard `comment.strip() == ""`: true exactly for a blank
      comment. */
  method CheckBlank(s: string) returns (blank: bool)
    ensures blank <==> IsBlank(s)
  {
    blank := Strip(s) == "";
  }
}
