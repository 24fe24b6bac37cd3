/**
 Strings as JavaScript sees them in this application: ASCII case mapping
 (`String.prototype.toUpperCase` / `toLowerCase` restricted to the ASCII
 letters) and the lexicographic order that `<` and `<=` use on strings.
 */
module Text {

  predicate IsAsciiLower(c: char) { 'a' <= c <= 'z' }

  predicate IsAsciiUpper(c: char) { 'A' <= c <= 'Z' }

  function UpperChar(c: char): char
  {
    if IsAsciiLower(c) then (c as int - 32) as char else c
  }

  function LowerChar(c: char): char
  {
    if IsAsciiUpper(c) then (c as int + 32) as char else c
  }

  /** `s.toUpperCase()` on ASCII text: every letter mapped, length kept. */
  function Upper(s: string): string
  {
    seq(|s|, i requires 0 <= i < |s| => UpperChar(s[i]))
  }

  /** `s.toLowerCase()` on ASCII text. */
  function Lower(s: string): string
  {
    seq(|s|, i requires 0 <= i < |s| => LowerChar(s[i]))
  }

  /** A string, its lower-case form and its upper-case form all upper-case alike. */
  lemma UpperIgnoresCase(s: string)
    ensures Upper(Lower(s)) == Upper(s)
    ensures Upper(Upper(s)) == Upper(s)
  {
  }

  /**
   Lexicographic order on strings, the order of JavaScript's `<=` on
   strings: `a` is a prefix of `b`, or the two agree up to a position where
   `a` has the smaller character.
   */
  predicate LexLeq(a: string, b: string)
  {
    a <= b || exists k :: 0 <= k < |a| && k < |b| && a[..k] == b[..k] && a[k] < b[k]
  }

  /** Two strings that agree up to position k and differ there are strictly ordered by that position. */
  lemma LexLeqAtFirstDifference(a: string, b: string, k: nat)
    requires k < |a| && k < |b|
    requires a[..k] == b[..k]
    requires a[k] < b[k]
    ensures LexLeq(a, b)
    ensures !LexLeq(b, a)
  {
  }

  lemma LexLeqReflexive(a: string)
    ensures LexLeq(a, a)
  {
  }

  lemma LexLeqTransitive(a: string, b: string, c: string)
    requires LexLeq(a, b) && LexLeq(b, c)
    ensures LexLeq(a, c)
  {
  }

}
