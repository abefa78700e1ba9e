/** JavaScript's `String.prototype.trim`, the only string operation the scraper
    applies to the texts it reads (prices, descriptions, specifications). */
module Text {

  /** The characters `trim` removes: ECMAScript WhiteSpace and LineTerminator
      (TAB, LF, VT, FF, CR, SPACE, NBSP, the Zs space separators, LS, PS, BOM). */
  predicate IsWhitespace(c: char) {
    var n := c as int;
    n == 0x09 || n == 0x0A || n == 0x0B || n == 0x0C || n == 0x0D || n == 0x20
    || n == 0xA0 || n == 0x1680 || (0x2000 <= n <= 0x200A)
    || n == 0x2028 || n == 0x2029 || n == 0x202F || n == 0x205F
    || n == 0x3000 || n == 0xFEFF
  }

  predicate AllWhitespace(s: string) {
    forall k :: 0 <= k < |s| ==> IsWhitespace(s[k])
  }

  /** A string with no whitespace at either end. */
  predicate IsTrimmed(s: string) {
    s == [] || (!IsWhitespace(s[0]) && !IsWhitespace(s[|s| - 1]))
  }

  /** Length of the longest all-whitespace prefix of `s`. */
  function LeadingWhitespace(s: string): (n: nat)
    ensures n <= |s|
    ensures AllWhitespace(s[..n])
    ensures n < |s| ==> !IsWhitespace(s[n])
  {
    if s == [] || !IsWhitespace(s[0]) then 0
    else
      var m := LeadingWhitespace(s[1..]);
      assert s[1..][..m] == s[1..m + 1];
      1 + m
  }

  /** Index where the longest all-whitespace suffix of `s` begins. */
  function TrailingStart(s: string): (j: nat)
    ensures j <= |s|
    ensures AllWhitespace(s[j..])
    ensures 0 < j ==> !IsWhitespace(s[j - 1])
  {
    if s == [] || !IsWhitespace(s[|s| - 1]) then |s|
    else
      var j := TrailingStart(s[..|s| - 1]);
      assert s[..|s| - 1][j..] + [s[|s| - 1]] == s[j..];
      j
  }

  /** `s.trim()`: the slice of `s` between its leading and its trailing whitespace. */
  function Trim(s: string): (r: string)
    ensures |r| <= |s|
    ensures IsTrimmed(r)
  {
    var j := TrailingStart(s);
    var i := LeadingWhitespace(s[..j]);
    s[i..j]
  }

  /** `r` is `s` with a whitespace-only prefix and a whitespace-only suffix cut off. */
  predicate IsWhitespaceTrimOf(s: string, r: string, i: nat, j: nat) {
    i <= j <= |s| && r == s[i..j] && AllWhitespace(s[..i]) && AllWhitespace(s[j..])
  }

  /** Trim removes only whitespace, and only from the two ends: its result is a
      contiguous slice of the input and everything cut away is whitespace. */
  lemma TrimIsSlice(s: string)
    ensures exists i: nat, j: nat :: IsWhitespaceTrimOf(s, Trim(s), i, j)
  {
    var j := TrailingStart(s);
    var i := LeadingWhitespace(s[..j]);
    assert s[..j][..i] == s[..i];
    assert IsWhitespaceTrimOf(s, Trim(s), i, j);
  }

  /** Trim is the ONLY such slice that is itself trimmed: any trimmed slice obtained
      by cutting whitespace off both ends is Trim(s). */
  lemma TrimUnique(s: string, i: nat, j: nat)
    requires i <= j <= |s|
    requires AllWhitespace(s[..i]) && AllWhitespace(s[j..])
    requires IsTrimmed(s[i..j])
    ensures Trim(s) == s[i..j]
  {
  }

  /** A trimmed string is left alone, so trimming twice is trimming once. */
  lemma TrimTrimmed(s: string)
    requires IsTrimmed(s)
    ensures Trim(s) == s
  {
  }

  lemma TrimIdempotent(s: string)
    ensures Trim(Trim(s)) == Trim(s)
  {
  }
}
