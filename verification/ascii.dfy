/**
 Character classes and case mapping over the ASCII range, as JavaScript's
 `toLowerCase`, `toUpperCase` and the regular-expression class `\w` (without
 the `u` flag) treat them. Characters outside `A-Z` and `a-z` have no case here.
 */
module Ascii {

  predicate IsUpper(c: char) { 'A' <= c <= 'Z' }

  predicate IsLower(c: char) { 'a' <= c <= 'z' }

  predicate IsLetter(c: char) { IsUpper(c) || IsLower(c) }

  predicate IsDigit(c: char) { '0' <= c <= '9' }

  /** The class `\w` of a JavaScript regular expression without the `u` flag: `[A-Za-z0-9_]`. */
  predicate IsWordChar(c: char) { IsLetter(c) || IsDigit(c) || c == '_' }

  predicate IsAsciiChar(c: char) { c <= '\U{7F}' }

  predicate IsAsciiString(s: string) { forall i :: 0 <= i < |s| ==> IsAsciiChar(s[i]) }

  /** `toLowerCase` on one ASCII character. */
  function ToLower(c: char): (r: char)
    ensures !IsUpper(r)
    ensures IsLetter(r) == IsLetter(c)
    ensures IsWordChar(r) == IsWordChar(c)
    ensures !IsUpper(c) ==> r == c
    ensures IsUpper(c) ==> IsLower(r) && r as int - 'a' as int == c as int - 'A' as int
    ensures IsAsciiChar(r) == IsAsciiChar(c)
  {
    if IsUpper(c) then (c as int - 'A' as int + 'a' as int) as char else c
  }

  /** `toUpperCase` on one ASCII character. */
  function ToUpper(c: char): (r: char)
    ensures !IsLower(r)
    ensures IsLetter(r) == IsLetter(c)
    ensures IsWordChar(r) == IsWordChar(c)
    ensures !IsLower(c) ==> r == c
    ensures IsLower(c) ==> IsUpper(r) && r as int - 'A' as int == c as int - 'a' as int
    ensures IsAsciiChar(r) == IsAsciiChar(c)
  {
    if IsLower(c) then (c as int - 'a' as int + 'A' as int) as char else c
  }

  /** The two case maps are inverse to each other on letters, and both ignore the case they are given. */
  lemma CaseInverse(c: char)
    ensures IsUpper(c) ==> ToUpper(ToLower(c)) == c
    ensures IsLower(c) ==> ToLower(ToUpper(c)) == c
    ensures ToLower(ToUpper(c)) == ToLower(c)
    ensures ToUpper(ToLower(c)) == ToUpper(c)
  {
  }

  /** Each letter keeps its place in the alphabet: the two alphabets correspond letter by letter. */
  lemma AlphabetsCorrespond()
    ensures forall i :: 0 <= i < 26 ==> ToLower("ABCDEFGHIJKLMNOPQRSTUVWXYZ"[i]) == "abcdefghijklmnopqrstuvwxyz"[i]
    ensures forall i :: 0 <= i < 26 ==> ToUpper("abcdefghijklmnopqrstuvwxyz"[i]) == "ABCDEFGHIJKLMNOPQRSTUVWXYZ"[i]
  {
  }
}
