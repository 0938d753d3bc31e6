/** ASCII case mapping: the part of JavaScript's `toUpperCase` and
    `toLowerCase` that the decision table of scenarios can observe. */
module AsciiCase {

  predicate IsLower(c: char) { 'a' <= c <= 'z' }

  predicate IsUpper(c: char) { 'A' <= c <= 'Z' }

  function UpperChar(c: char): char {
    if IsLower(c) then (c as int - 32) as char else c
  }

  function LowerChar(c: char): char {
    if IsUpper(c) then (c as int + 32) as char else c
  }

  /** `s.toUpperCase()` restricted to ASCII letters. */
  function ToUpper(s: string): (r: string)
    ensures |r| == |s|
    ensures forall i :: 0 <= i < |r| ==> !IsLower(r[i])
    ensures EqualsIgnoreCase(s, r)
  {
    if |s| == 0 then "" else [UpperChar(s[0])] + ToUpper(s[1..])
  }

  /** `s.toLowerCase()` restricted to ASCII letters. */
  function ToLower(s: string): (r: string)
    ensures |r| == |s|
    ensures forall i :: 0 <= i < |r| ==> !IsUpper(r[i])
    ensures EqualsIgnoreCase(s, r)
  {
    if |s| == 0 then "" else [LowerChar(s[0])] + ToLower(s[1..])
  }

  /** Two characters are the same letter up to ASCII case. Stated on code
      points, independently of the mapping functions above. */
  predicate SameIgnoringCase(c: char, d: char) {
    || c == d
    || ('a' <= c <= 'z' && d as int == c as int - 32)
    || ('A' <= c <= 'Z' && d as int == c as int + 32)
  }

  /** Two strings spell the same word up to ASCII case, position by position. */
  predicate EqualsIgnoreCase(a: string, b: string) {
    |a| == |b| && forall i :: 0 <= i < |a| ==> SameIgnoringCase(a[i], b[i])
  }

  /** Upper-casing lands on a word written without lower-case letters exactly
      when the input spells that word in any mixture of cases. */
  lemma {:induction false} ToUpperMatches(s: string, t: string)
    requires forall i :: 0 <= i < |t| ==> !IsLower(t[i])
    ensures ToUpper(s) == t <==> EqualsIgnoreCase(s, t)
  {
    if EqualsIgnoreCase(s, t) {
      var u := ToUpper(s);
      forall i | 0 <= i < |s|
        ensures u[i] == t[i]
      {
        CharUpperOfSame(s[i], t[i], u[i]);
      }
    }
  }

  /** Lower-casing lands on a word written without upper-case letters exactly
      when the input spells that word in any mixture of cases. */
  lemma {:induction false} ToLowerMatches(s: string, t: string)
    requires forall i :: 0 <= i < |t| ==> !IsUpper(t[i])
    ensures ToLower(s) == t <==> EqualsIgnoreCase(s, t)
  {
    if EqualsIgnoreCase(s, t) {
      var u := ToLower(s);
      forall i | 0 <= i < |s|
        ensures u[i] == t[i]
      {
        CharLowerOfSame(s[i], t[i], u[i]);
      }
    }
  }

  lemma CharUpperOfSame(c: char, d: char, e: char)
    requires SameIgnoringCase(c, d) && SameIgnoringCase(c, e)
    requires !IsLower(d) && !IsLower(e)
    ensures d == e
  {
  }

  lemma CharLowerOfSame(c: char, d: char, e: char)
    requires SameIgnoringCase(c, d) && SameIgnoringCase(c, e)
    requires !IsUpper(d) && !IsUpper(e)
    ensures d == e
  {
  }

  /** Spellings that agree up to case upper-case to the same word. */
  lemma {:induction false} ToUpperRespectsCase(s: string, t: string)
    requires EqualsIgnoreCase(s, t)
    ensures ToUpper(s) == ToUpper(t)
    decreases s
  {
    if |s| > 0 {
      ToUpperRespectsCase(s[1..], t[1..]);
    }
  }

  /** Spellings that agree up to case lower-case to the same word. */
  lemma {:induction false} ToLowerRespectsCase(s: string, t: string)
    requires EqualsIgnoreCase(s, t)
    ensures ToLower(s) == ToLower(t)
    decreases s
  {
    if |s| > 0 {
      ToLowerRespectsCase(s[1..], t[1..]);
    }
  }
}
