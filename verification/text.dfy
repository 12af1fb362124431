/**
 * Case folding as used by the ad-type checks. Swift's `lowercased()` and
 * Kotlin's `lowercase()` apply full Unicode case mapping; the model folds
 * the ASCII letters only, which decides every comparison against the
 * lower-case ASCII words "banner" and "interstitial" the same way.
 */
module Text {

  predicate IsUpper(c: char)
  {
    'A' <= c <= 'Z'
  }

  function LowerChar(c: char): (r: char)
    ensures !IsUpper(r)
    ensures IsUpper(c) ==> r as int == c as int + 32
    ensures !IsUpper(c) ==> r == c
  {
    if IsUpper(c) then (c as int + 32) as char else c
  }

  /** The string with every upper-case ASCII letter replaced by its lower-case form. */
  function Lower(s: string): (r: string)
    ensures |r| == |s|
    ensures forall i :: 0 <= i < |s| ==> r[i] == LowerChar(s[i])
    ensures NoUpper(r)
  {
    if s == [] then [] else [LowerChar(s[0])] + Lower(s[1..])
  }

  /** No character of `s` is an upper-case ASCII letter. */
  predicate NoUpper(s: string)
  {
    forall i :: 0 <= i < |s| ==> !IsUpper(s[i])
  }

  /** Folding leaves a string without upper-case letters as it is, and only such strings. */
  lemma LowerFixesExactlyNoUpper(s: string)
    ensures Lower(s) == s <==> NoUpper(s)
  {
  }

}
