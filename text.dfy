/// ASCII case mapping of strings, as used for timeframes, country names
/// and HTTP methods.  Only 'A'..'Z' and 'a'..'z' change case.
module Text {
  /// ASCII lower-casing of one character.
  function LowerChar(c: char): (r: char)
    ensures 'A' <= c <= 'Z' ==> r as int == c as int + 32
    ensures !('A' <= c <= 'Z') ==> r == c
  {
    if 'A' <= c <= 'Z' then (c as int + 32) as char else c
  }

  /// ASCII upper-casing of one character.
  function UpperChar(c: char): (r: char)
    ensures 'a' <= c <= 'z' ==> r as int == c as int - 32
    ensures !('a' <= c <= 'z') ==> r == c
  {
    if 'a' <= c <= 'z' then (c as int - 32) as char else c
  }

  /// Lower-casing of a string, character by character.
  function ToLower(s: string): (r: string)
    ensures |r| == |s|
    ensures forall i :: 0 <= i < |s| ==> r[i] == LowerChar(s[i])
  {
    if s == [] then [] else [LowerChar(s[0])] + ToLower(s[1..])
  }

  /// Upper-casing of a string, character by character.
  function ToUpper(s: string): (r: string)
    ensures |r| == |s|
    ensures forall i :: 0 <= i < |s| ==> r[i] == UpperChar(s[i])
  {
    if s == [] then [] else [UpperChar(s[0])] + ToUpper(s[1..])
  }

  /// Strings that differ only in case upper-case to the same string.
  lemma UpperIgnoresCase(a: string, b: string)
    requires ToLower(a) == ToLower(b)
    ensures ToUpper(a) == ToUpper(b)
  {
    assert |a| == |b|;
    forall i | 0 <= i < |a|
      ensures ToUpper(a)[i] == ToUpper(b)[i]
    {
      assert LowerChar(a[i]) == LowerChar(b[i]);
    }
  }

  /// Lower-casing twice is lower-casing once.
  lemma LowerIdempotent(s: string)
    ensures ToLower(ToLower(s)) == ToLower(s)
  {
    assert forall i :: 0 <= i < |s| ==> LowerChar(LowerChar(s[i])) == LowerChar(s[i]);
  }
}
