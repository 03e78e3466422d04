/**
 * The character case mapping the editor relies on: `toUpperCase` for default
 * object names and `toLowerCase` for keyboard shortcut keys. Only the ASCII
 * letters change case; every other character maps to itself.
 */
module Text {

  predicate IsLower(c: char) { 'a' <= c <= 'z' }

  predicate IsUpper(c: char) { 'A' <= c <= 'Z' }

  function UpperChar(c: char): char {
    if IsLower(c) then (c as int - 32) as char else c
  }

  function LowerChar(c: char): char {
    if IsUpper(c) then (c as int + 32) as char else c
  }

  /** `s.charAt(0).toUpperCase() + s.slice(1)`. */
  function Capitalize(s: string): (r: string)
    ensures |r| == |s|
    ensures s != [] ==> r[0] == UpperChar(s[0]) && r[1..] == s[1..]
  {
    if s == [] then [] else [UpperChar(s[0])] + s[1..]
  }

  /** `s.toLowerCase()`, character by character. */
  function ToLower(s: string): (r: string)
    ensures |r| == |s|
    ensures forall i :: 0 <= i < |s| ==> r[i] == LowerChar(s[i])
  {
    if s == [] then [] else [LowerChar(s[0])] + ToLower(s[1..])
  }

  /**
   * A key lower-cases to a single lower-case letter exactly when it is that
   * letter in either case.
   */
  lemma {:induction false} ToLowerSingleLetter(k: string, ch: char)
    requires IsLower(ch)
    ensures ToLower(k) == [ch] <==> k == [ch] || k == [UpperChar(ch)]
  {
    if ToLower(k) == [ch] {
      assert |k| == 1 && LowerChar(k[0]) == ch;
      assert k == [k[0]];
    }
    if k == [UpperChar(ch)] {
      assert ToLower(k)[0] == LowerChar(UpperChar(ch));
    }
  }
}
