/** PHP's `strtolower`, as PHP 8.2 and later define it: byte-wise ASCII lower-casing, independent of the
    locale. Letters outside 'A'..'Z' are left as they are. */
module PhpString {

  predicate IsUpperAscii(c: char) {
    'A' <= c <= 'Z'
  }

  /** No character of `s` is an ASCII upper-case letter. */
  predicate HasNoUpper(s: string) {
    forall i :: 0 <= i < |s| ==> !IsUpperAscii(s[i])
  }

  function LowerChar(c: char): char {
    if IsUpperAscii(c) then (c as int + 32) as char else c
  }

  /** strtolower: maps every character through LowerChar and keeps the length. */
  function ToLower(s: string): (r: string)
    ensures |r| == |s|
    ensures forall i :: 0 <= i < |s| ==> r[i] == LowerChar(s[i])
  {
    seq(|s|, i requires 0 <= i < |s| => LowerChar(s[i]))
  }

  /** The result of strtolower never holds an upper-case letter. */
  lemma ToLowerHasNoUpper(s: string)
    ensures HasNoUpper(ToLower(s))
  {
  }

  /** strtolower leaves a string unchanged exactly when it holds no upper-case letter. */
  lemma ToLowerFixpoint(s: string)
    ensures ToLower(s) == s <==> HasNoUpper(s)
  {
  }

  /** Lower-casing twice is lower-casing once. */
  lemma ToLowerIdempotent(s: string)
    ensures ToLower(ToLower(s)) == ToLower(s)
  {
  }
}
