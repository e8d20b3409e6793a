/** Case-insensitive comparison of strings, as `String.equalsIgnoreCase` does it for ASCII text. */
module Strings {

  /** The upper-case form of an ASCII letter; every other character is left as it is. */
  function ToUpper(c: char): char
  {
    if 'a' <= c <= 'z' then (c as int - 32) as char else c
  }

  /** Two characters are equal once both are folded to upper case. */
  predicate CharEqualsIgnoreCase(a: char, b: char)
  {
    ToUpper(a) == ToUpper(b)
  }

  /** Same length, and the characters agree position by position up to case. */
  predicate EqualsIgnoreCase(a: string, b: string)
  {
    |a| == |b| && forall i :: 0 <= i < |a| ==> CharEqualsIgnoreCase(a[i], b[i])
  }

  /**
   * Matching up to case is an equivalence: reflexive, symmetric and
   * transitive, so "the first train whose id matches" does not depend on
   * which side of the comparison the list's id stands.
   */
  lemma EqualsIgnoreCaseIsEquivalence(a: string, b: string, c: string)
    ensures EqualsIgnoreCase(a, a)
    ensures EqualsIgnoreCase(a, b) ==> EqualsIgnoreCase(b, a)
    ensures EqualsIgnoreCase(a, b) && EqualsIgnoreCase(b, c) ==> EqualsIgnoreCase(a, c)
  {
  }

  /** The string with every ASCII letter folded to upper case. */
  function Upper(a: string): (r: string)
    ensures |r| == |a|
    ensures forall i :: 0 <= i < |a| ==> r[i] == ToUpper(a[i])
  {
    seq(|a|, i requires 0 <= i < |a| => ToUpper(a[i]))
  }

  /** Two strings match up to case exactly when their upper-case forms are equal. */
  lemma EqualsIgnoreCaseIffSameUpper(a: string, b: string)
    ensures EqualsIgnoreCase(a, b) <==> Upper(a) == Upper(b)
  {
    if Upper(a) == Upper(b) {
      assert forall i :: 0 <= i < |a| ==> Upper(a)[i] == Upper(b)[i];
    }
  }

  /** Every string matches its own upper-case form: letter case is ignored everywhere. */
  lemma MatchesItsUpperCase(a: string)
    ensures EqualsIgnoreCase(a, Upper(a))
  {
  }

  /**
   * Only letter case is ignored: a difference at a position holding anything
   * but an ASCII letter makes the strings differ.
   */
  lemma NonLetterDifferenceMatters(a: string, b: string, i: int)
    requires 0 <= i < |a| && i < |b| && a[i] != b[i]
    requires !('a' <= a[i] <= 'z') && !('A' <= a[i] <= 'Z')
    ensures !EqualsIgnoreCase(a, b)
  {
  }

  /** Identifiers that differ only in the case of a letter match. */
  lemma LetterCaseIgnored()
    ensures EqualsIgnoreCase("t1", "T1")
    ensures !EqualsIgnoreCase("t1", "t2")
  {
    assert "t1"[1] == '1' && "t2"[1] == '2';
    assert !CharEqualsIgnoreCase("t1"[1], "t2"[1]);
  }
}
