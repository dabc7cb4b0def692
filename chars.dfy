/**
 * Character classes used by the transaction pattern and by `str.strip()`,
 * restricted to the classes of an ASCII-only pattern (`re.ASCII`): `\s` and
 * whitespace are the six characters space, tab, newline, carriage return,
 * form feed and vertical tab, and `\d` is '0' to '9'. Python's default
 * classes are larger, even within ASCII: `\x1c` to `\x1f` also count as
 * whitespace for `\s` and for `str.strip()`.
 */
module Chars {

  predicate IsSpace(c: char) {
    c == ' ' || c == '\t' || c == '\n' || c == '\r' || c == '\U{000C}' || c == '\U{000B}'
  }

  predicate IsDigit(c: char) {
    '0' <= c <= '9'
  }

  /** Every character of s[i..j] is whitespace. */
  predicate SpaceSpan(s: string, i: nat, j: nat) {
    i <= j <= |s| && forall k :: i <= k < j ==> IsSpace(s[k])
  }

  /** The end of the longest whitespace run that starts at i. */
  function SpaceEnd(s: string, i: nat): (j: nat)
    requires i <= |s|
    ensures SpaceSpan(s, i, j)
    ensures j == |s| || !IsSpace(s[j])
    ensures forall k: nat :: SpaceSpan(s, i, k) ==> k <= j
    decreases |s| - i
  {
    if i < |s| && IsSpace(s[i]) then SpaceEnd(s, i + 1) else i
  }

  /** The start of the longest whitespace run that ends at j and does not reach below lo. */
  function SpaceStart(s: string, lo: nat, j: nat): (k: nat)
    requires lo <= j <= |s|
    ensures lo <= k && SpaceSpan(s, k, j)
    ensures k == lo || !IsSpace(s[k - 1])
    decreases j
  {
    if lo < j && IsSpace(s[j - 1]) then SpaceStart(s, lo, j - 1) else j
  }
}
