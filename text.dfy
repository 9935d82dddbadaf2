/**
 * Lower-casing of e-mail addresses, as `str.lower` is used by the
 * credential check. Only the ASCII letters A-Z are mapped; the rest of
 * Unicode case folding is not part of this model.
 */
module Text {

  predicate IsUpper(c: char) {
    'A' <= c <= 'Z'
  }

  function LowerChar(c: char): (r: char)
    ensures !IsUpper(r)
    ensures IsUpper(c) ==> r as int == c as int + 32
    ensures !IsUpper(c) ==> r == c
  {
    if IsUpper(c) then (c as int + 32) as char else c
  }

  /** No character of `s` is an upper-case letter. */
  predicate IsLowerCase(s: string) {
    forall i :: 0 <= i < |s| ==> !IsUpper(s[i])
  }

  /** `s.lower()`: every character lower-cased, position by position. */
  function Lower(s: string): (r: string)
    ensures |r| == |s|
    ensures forall i :: 0 <= i < |s| ==> r[i] == LowerChar(s[i])
    ensures IsLowerCase(r)
  {
    if s == [] then [] else [LowerChar(s[0])] + Lower(s[1..])
  }

  /** Lower-casing twice is lower-casing once. */
  lemma {:induction false} LowerIdempotent(s: string)
    ensures Lower(Lower(s)) == Lower(s)
  {
    if s != [] {
      LowerIdempotent(s[1..]);
      assert Lower(s) == [LowerChar(s[0])] + Lower(s[1..]);
    }
  }

  /** The strings that `Lower` leaves alone are exactly the lower-case ones. */
  lemma {:induction false} LowerFixesExactlyLowerCase(s: string)
    ensures Lower(s) == s <==> IsLowerCase(s)
  {
    if IsLowerCase(s) {
      assert forall i :: 0 <= i < |s| ==> Lower(s)[i] == s[i];
    }
  }
}
