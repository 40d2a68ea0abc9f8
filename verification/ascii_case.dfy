/**
  Case mapping of Java strings, restricted to the ASCII letters.

  `String.toUpperCase()` and `String.toLowerCase()` are modelled here as the
  character-wise maps that send 'a'..'z' to 'A'..'Z' and back and leave every
  other character alone. Locale rules and non-ASCII case pairs are not part of
  this model.
 */
module AsciiCase {

  predicate IsLowerLetter(c: char) {
    'a' <= c <= 'z'
  }

  predicate IsUpperLetter(c: char) {
    'A' <= c <= 'Z'
  }

  function UpperChar(c: char): (u: char)
    ensures !IsLowerLetter(u)
    ensures IsLowerLetter(c) ==> IsUpperLetter(u) && u as int == c as int - 32
    ensures !IsLowerLetter(c) ==> u == c
  {
    if IsLowerLetter(c) then (c as int - 32) as char else c
  }

  function LowerChar(c: char): (l: char)
    ensures !IsUpperLetter(l)
    ensures IsUpperLetter(c) ==> IsLowerLetter(l) && l as int == c as int + 32
    ensures !IsUpperLetter(c) ==> l == c
  {
    if IsUpperLetter(c) then (c as int + 32) as char else c
  }

  /** No character of `s` is a lower-case ASCII letter. */
  predicate NoLower(s: string) {
    forall i :: 0 <= i < |s| ==> !IsLowerLetter(s[i])
  }

  /** No character of `s` is an upper-case ASCII letter. */
  predicate NoUpper(s: string) {
    forall i :: 0 <= i < |s| ==> !IsUpperLetter(s[i])
  }

  /** `s.toUpperCase()`: every character mapped on its own, length kept. */
  function ToUpperCase(s: string): (r: string)
    ensures |r| == |s|
    ensures forall i :: 0 <= i < |s| ==> r[i] == UpperChar(s[i])
    ensures NoLower(r)
  {
    if s == [] then [] else [UpperChar(s[0])] + ToUpperCase(s[1..])
  }

  /** `s.toLowerCase()`: every character mapped on its own, length kept. */
  function ToLowerCase(s: string): (r: string)
    ensures |r| == |s|
    ensures forall i :: 0 <= i < |s| ==> r[i] == LowerChar(s[i])
    ensures NoUpper(r)
  {
    if s == [] then [] else [LowerChar(s[0])] + ToLowerCase(s[1..])
  }

  /** Upper-casing a lower-cased string gives what upper-casing the original gives. */
  lemma UpperOfLower(s: string)
    ensures ToUpperCase(ToLowerCase(s)) == ToUpperCase(s)
  {
    var a, b := ToUpperCase(ToLowerCase(s)), ToUpperCase(s);
    forall i | 0 <= i < |s|
      ensures a[i] == b[i]
    {
      var c := s[i];
      assert a[i] == UpperChar(LowerChar(c));
      if IsUpperLetter(c) {
        assert UpperChar(LowerChar(c)) as int == c as int;
      }
    }
  }

  /** A string is left alone by upper-casing exactly when it has no lower-case letter. */
  lemma UpperFixedIffNoLower(s: string)
    ensures ToUpperCase(s) == s <==> NoLower(s)
  {
    if NoLower(s) {
      var r := ToUpperCase(s);
      assert forall i :: 0 <= i < |s| ==> r[i] == s[i];
    }
  }

  /** Upper-casing is idempotent. */
  lemma UpperIdempotent(s: string)
    ensures ToUpperCase(ToUpperCase(s)) == ToUpperCase(s)
  {
    UpperFixedIffNoLower(ToUpperCase(s));
  }

  /**
    Lower-casing loses nothing on strings without lower-case letters: on such
    strings upper-casing undoes it.
   */
  lemma UpperUndoesLower(s: string)
    requires NoLower(s)
    ensures ToUpperCase(ToLowerCase(s)) == s
  {
    UpperOfLower(s);
    UpperFixedIffNoLower(s);
  }

  /** Two strings without lower-case letters have equal lower-casings only if they are equal. */
  lemma LowerInjectiveOnNoLower(a: string, b: string)
    requires NoLower(a) && NoLower(b)
    requires ToLowerCase(a) == ToLowerCase(b)
    ensures a == b
  {
    UpperUndoesLower(a);
    UpperUndoesLower(b);
  }
}
