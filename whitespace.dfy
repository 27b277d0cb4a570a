/**
 * Foundation's `CharacterSet.whitespaces` and
 * `String.trimmingCharacters(in: .whitespaces)`, on Unicode scalar values.
 */
module Whitespace {

  /**
   * Membership in `CharacterSet.whitespaces`: Unicode general category Zs
   * (space separators) together with CHARACTER TABULATION. Line feed,
   * carriage return and the other line separators are NOT members.
   */
  predicate IsWhitespace(c: char)
    ensures c == ' ' || c == '\t' ==> IsWhitespace(c)
    ensures IsWhitespace(c) ==> c != '\n' && c != '\r'
  {
    c == '\t' || c == ' ' || c == '\U{00A0}' || c == '\U{1680}'
    || ('\U{2000}' <= c <= '\U{200A}')
    || c == '\U{202F}' || c == '\U{205F}' || c == '\U{3000}'
  }

  /** Every character of `s` is whitespace (true of the empty string). */
  predicate AllWhitespace(s: string) {
    forall i :: 0 <= i < |s| ==> IsWhitespace(s[i])
  }

  /** Drops the whitespace at the front of `s`: what is left is a suffix of `s`
      that does not start with whitespace, and all that was dropped is whitespace. */
  function TrimStart(s: string): (r: string)
    ensures |r| <= |s| && r == s[|s| - |r|..]
    ensures AllWhitespace(s[..|s| - |r|])
    ensures r == [] || !IsWhitespace(r[0])
    decreases |s|
  {
    if |s| > 0 && IsWhitespace(s[0]) then
      var r := TrimStart(s[1..]);
      assert s[1..][..|s[1..]| - |r|] == s[1..|s| - |r|];
      r
    else
      s
  }

  /** Drops the whitespace at the back of `s`: what is left is a prefix of `s`
      that does not end with whitespace, and all that was dropped is whitespace. */
  function TrimEnd(s: string): (r: string)
    ensures |r| <= |s| && r == s[..|r|]
    ensures AllWhitespace(s[|r|..])
    ensures r == [] || !IsWhitespace(r[|r| - 1])
    decreases |s|
  {
    if |s| > 0 && IsWhitespace(s[|s| - 1]) then
      var r := TrimEnd(s[..|s| - 1]);
      assert s[|r|..] == s[..|s| - 1][|r|..] + [s[|s| - 1]];
      r
    else
      s
  }

  /** `s.trimmingCharacters(in: .whitespaces)`: whitespace removed from both
      ends, so what is left neither starts nor ends with whitespace. */
  function Trim(s: string): (r: string)
    ensures |r| <= |s|
    ensures r == [] || (!IsWhitespace(r[0]) && !IsWhitespace(r[|r| - 1]))
  {
    TrimEnd(TrimStart(s))
  }

  /** How many characters `Trim` removes from the front of `s`. */
  function LeadingWhitespace(s: string): nat {
    |s| - |TrimStart(s)|
  }

  /** The trimmed text is the stretch of `s` left after removing whitespace
      from both ends: a contiguous part of `s`, surrounded only by whitespace. */
  lemma TrimIsInfix(s: string)
    ensures LeadingWhitespace(s) + |Trim(s)| <= |s|
    ensures Trim(s) == s[LeadingWhitespace(s)..LeadingWhitespace(s) + |Trim(s)|]
    ensures AllWhitespace(s[..LeadingWhitespace(s)])
    ensures AllWhitespace(s[LeadingWhitespace(s) + |Trim(s)|..])
  {
  }

  /** Trimming leaves nothing exactly when the text is all whitespace
      (the empty string included). */
  lemma TrimEmptyIff(s: string)
    ensures Trim(s) == [] <==> AllWhitespace(s)
  {
  }

  /** Trimming twice is trimming once. */
  lemma TrimIdempotent(s: string)
    ensures Trim(Trim(s)) == Trim(s)
  {
  }

  /** A line feed is not in `CharacterSet.whitespaces`, so it survives trimming. */
  lemma NewlineIsNotBlank()
    ensures !IsWhitespace('\n')
    ensures Trim("\n") == "\n"
    ensures Trim(" \t ") == ""
  {
    assert TrimStart(" \t ") == TrimStart("\t ") == TrimStart(" ") == "";
  }
}
