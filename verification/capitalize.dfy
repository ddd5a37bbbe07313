/**
 The helper `capitalizeWords` of the form: the whole string is lower-cased,
 then every match of the regular expression `\b\w` (a word character that
 starts a run of word characters) is upper-cased by a global `replace`.
 */
module Capitalize {
  import opened Ascii

  /** Position `i` of `s` is matched by `\b\w`: a word character with no word character before it. */
  predicate AtWordStart(s: string, i: int)
    requires 0 <= i < |s|
  {
    IsWordChar(s[i]) && (i == 0 || !IsWordChar(s[i - 1]))
  }

  /** `toLowerCase` on a whole string. */
  function LowerString(s: string): (r: string)
    ensures |r| == |s|
    ensures forall i :: 0 <= i < |s| ==> r[i] == ToLower(s[i])
  {
    if |s| == 0 then "" else [ToLower(s[0])] + LowerString(s[1..])
  }

  /**
   One left-to-right scan of `t.replace(/\b\w/g, c => c.toUpperCase())`.
   `prevWord` tells whether the character just before `t` is a word character,
   so that `\b` can be decided at the first position of `t`.
   */
  function UpcaseWordStarts(t: string, prevWord: bool): (r: string)
    ensures |r| == |t|
    ensures |t| > 0 ==> r[0] == (if IsWordChar(t[0]) && !prevWord then ToUpper(t[0]) else t[0])
    ensures forall i :: 0 < i < |t| ==> r[i] == (if AtWordStart(t, i) then ToUpper(t[i]) else t[i])
  {
    if |t| == 0 then ""
    else
      var c := t[0];
      var rest := UpcaseWordStarts(t[1..], IsWordChar(c));
      assert forall i :: 1 < i < |t| ==> AtWordStart(t[1..], i - 1) == AtWordStart(t, i);
      [if IsWordChar(c) && !prevWord then ToUpper(c) else c] + rest
  }

  /** `capitalizeWords(str)`: lower-case everything, then upper-case the first character of every word. */
  function CapitalizeWords(s: string): (r: string)
    ensures |r| == |s|
    ensures forall i :: 0 <= i < |s| ==>
              r[i] == (if AtWordStart(s, i) then ToUpper(ToLower(s[i])) else ToLower(s[i]))
  {
    var t := LowerString(s);
    assert forall i :: 0 <= i < |s| ==> AtWordStart(t, i) == AtWordStart(s, i);
    UpcaseWordStarts(t, false)
  }

  /**
   An independent description of the result: `r` spells `s` up to case, and a
   letter of `r` is upper-case exactly where a word starts.
   */
  predicate IsCapitalizationOf(r: string, s: string)
  {
    && |r| == |s|
    && (forall i :: 0 <= i < |s| ==> ToLower(r[i]) == ToLower(s[i]))
    && (forall i :: 0 <= i < |s| && IsLetter(s[i]) ==> (IsUpper(r[i]) <==> AtWordStart(s, i)))
  }

  /** A string every letter of which is upper-case exactly at the start of a word. */
  predicate IsCapitalized(s: string)
  {
    forall i :: 0 <= i < |s| && IsLetter(s[i]) ==> (IsUpper(s[i]) <==> AtWordStart(s, i))
  }

  /** Case rule: a letter comes out upper-case exactly at a word start, and lower-case everywhere else. */
  lemma LetterCaseRule(s: string, i: int)
    requires 0 <= i < |s| && IsLetter(s[i])
    ensures IsLetter(CapitalizeWords(s)[i])
    ensures IsUpper(CapitalizeWords(s)[i]) <==> AtWordStart(s, i)
    ensures IsLower(CapitalizeWords(s)[i]) <==> !AtWordStart(s, i)
  {
  }

  /** Digits, `_`, spaces and punctuation pass through unchanged. */
  lemma NonLetterUnchanged(s: string, i: int)
    requires 0 <= i < |s| && !IsLetter(s[i])
    ensures CapitalizeWords(s)[i] == s[i]
  {
  }

  /** The word structure of the output is that of the input. */
  lemma WordStartsPreserved(s: string, i: int)
    requires 0 <= i < |s|
    ensures AtWordStart(CapitalizeWords(s), i) == AtWordStart(s, i)
  {
  }

  /** `CapitalizeWords(s)` is the one and only capitalization of `s`. */
  lemma CapitalizeWordsCharacterized(s: string, r: string)
    ensures CapitalizeWords(s) == r <==> IsCapitalizationOf(r, s)
  {
    var c := CapitalizeWords(s);
    if IsCapitalizationOf(r, s) {
      forall i | 0 <= i < |s|
        ensures r[i] == c[i]
      {
        CaseInverse(s[i]);
        CaseInverse(r[i]);
      }
    }
  }

  /** Capitalizing twice is capitalizing once. */
  lemma {:induction false} CapitalizeWordsIdempotent(s: string)
    ensures CapitalizeWords(CapitalizeWords(s)) == CapitalizeWords(s)
  {
    var c := CapitalizeWords(s);
    var cc := CapitalizeWords(c);
    forall i | 0 <= i < |s|
      ensures cc[i] == c[i]
    {
      WordStartsPreserved(s, i);
      CaseInverse(s[i]);
    }
  }

  /** The fixed points of `CapitalizeWords` are exactly the capitalized strings. */
  lemma CapitalizeWordsFixedPoint(s: string)
    ensures CapitalizeWords(s) == s <==> IsCapitalized(s)
  {
    CapitalizeWordsCharacterized(s, s);
  }

  /** Every result of `CapitalizeWords` is capitalized. */
  lemma CapitalizeWordsIsCapitalized(s: string)
    ensures IsCapitalized(CapitalizeWords(s))
  {
    CapitalizeWordsIdempotent(s);
    CapitalizeWordsFixedPoint(CapitalizeWords(s));
  }

  /** ASCII input gives ASCII output. */
  lemma CapitalizeWordsAscii(s: string)
    requires IsAsciiString(s)
    ensures IsAsciiString(CapitalizeWords(s))
  {
  }

  /** `"new york"` becomes `"New York"`. */
  lemma CapitalizeNewYork()
    ensures CapitalizeWords("new york") == "New York"
  {
    var s, t := "new york", "New York";
    var r := CapitalizeWords(s);
    assert AtWordStart(s, 0) && !AtWordStart(s, 1) && !AtWordStart(s, 2) && !AtWordStart(s, 3);
    assert AtWordStart(s, 4) && !AtWordStart(s, 5) && !AtWordStart(s, 6) && !AtWordStart(s, 7);
    assert forall i :: 0 <= i < |s| ==> r[i] == t[i];
  }

  /** An apostrophe ends a word: `"o'neil"` becomes `"O'Neil"`. */
  lemma CapitalizeApostrophe()
    ensures CapitalizeWords("o'neil") == "O'Neil"
  {
    var s := "o'neil";
    assert forall i :: 0 <= i < |s| ==> AtWordStart(s, i) == (i == 0 || i == 2);
  }

  /** A digit starts a word, so the letter after it stays lower-case: `"3d art"` becomes `"3d Art"`. */
  lemma CapitalizeLeadingDigit()
    ensures CapitalizeWords("3d art") == "3d Art"
  {
    var s, t := "3d art", "3d Art";
    var r := CapitalizeWords(s);
    assert forall i :: 0 <= i < |s| ==> AtWordStart(s, i) == (i == 0 || i == 3);
    assert forall i :: 0 <= i < |s| ==> r[i] == t[i];
  }

  /** `_` is a word character: `"MY_JOB"` becomes `"My_job"`. */
  lemma CapitalizeUnderscore()
    ensures CapitalizeWords("MY_JOB") == "My_job"
  {
    var s, t := "MY_JOB", "My_job";
    var r := CapitalizeWords(s);
    assert forall i :: 0 <= i < |s| ==> AtWordStart(s, i) == (i == 0);
    assert forall i :: 0 <= i < |s| ==> r[i] == t[i];
  }
}
