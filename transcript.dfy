/** The transcript validity check of the scoring engine: a transcript counts
    as an answer unless it is blank (empty, or only whitespace once stripped)
    or carries one of the speech recogniser's fixed error markers. */
module Transcript {

  /** The characters Python's `str.strip()` removes when called without
      arguments (those for which `str.isspace()` holds). */
  predicate IsWhitespace(c: char)
  {
    c == ' ' || c == '\t' || c == '\n' || c == '\r' ||
    c == '\U{0B}' || c == '\U{0C}' ||
    ('\U{1C}' <= c <= '\U{1F}') ||
    c == '\U{85}' || c == '\U{A0}' || c == '\U{1680}' ||
    ('\U{2000}' <= c <= '\U{200A}') ||
    c == '\U{2028}' || c == '\U{2029}' || c == '\U{202F}' ||
    c == '\U{205F}' || c == '\U{3000}'
  }

  ghost predicate AllWhitespace(s: string)
  {
    forall i :: 0 <= i < |s| ==> IsWhitespace(s[i])
  }

  /** Leading whitespace removed: what is left is a suffix of `s`, what
      was dropped is all whitespace, and what is left is empty exactly when
      `s` is all whitespace and otherwise starts with a non-whitespace
      character. */
  function StripLeft(s: string): (r: string)
    ensures |r| <= |s| && r == s[|s| - |r|..]
    ensures AllWhitespace(s[..|s| - |r|])
    ensures r == [] <==> AllWhitespace(s)
    ensures r != [] ==> !IsWhitespace(r[0])
  {
    if s != [] && IsWhitespace(s[0]) then
      var r := StripLeft(s[1..]);
      StripLeftStep(s, r);
      r
    else
      LeadingNonWhitespace(s);
      s
  }

  /** Trailing whitespace removed: what is left is a prefix of `s`, what
      was dropped is all whitespace, and what is left is empty
      exactly when `s` is all whitespace, and otherwise ends with a
      non-whitespace character. */
  function StripRight(s: string): (r: string)
    ensures |r| <= |s| && r == s[..|r|]
    ensures AllWhitespace(s[|r|..])
    ensures r == [] <==> AllWhitespace(s)
    ensures r != [] ==> !IsWhitespace(r[|r| - 1])
  {
    if s != [] && IsWhitespace(s[|s| - 1]) then
      var r := StripRight(s[..|s| - 1]);
      StripRightStep(s, r);
      r
    else
      TrailingNonWhitespace(s);
      s
  }

  /** Dropping one more leading whitespace character keeps the contract of
      `StripLeft`. */
  lemma StripLeftStep(s: string, r: string)
    requires s != [] && IsWhitespace(s[0])
    requires |r| <= |s| - 1 && r == s[1..][|s| - 1 - |r|..]
    requires AllWhitespace(s[1..][..|s| - 1 - |r|])
    requires r == [] <==> AllWhitespace(s[1..])
    ensures |r| <= |s| && r == s[|s| - |r|..]
    ensures AllWhitespace(s[..|s| - |r|])
    ensures r == [] <==> AllWhitespace(s)
  {
    assert s == [s[0]] + s[1..];
    assert s[..|s| - |r|] == [s[0]] + s[1..][..|s| - 1 - |r|];
    WhitespaceBefore(s[0], s[1..][..|s| - 1 - |r|]);
    WhitespaceBefore(s[0], s[1..]);
  }

  /** Dropping one more trailing whitespace character keeps the contract
      of `StripRight`. */
  lemma StripRightStep(s: string, r: string)
    requires s != [] && IsWhitespace(s[|s| - 1])
    requires |r| <= |s| - 1 && r == s[..|s| - 1][..|r|]
    requires AllWhitespace(s[..|s| - 1][|r|..])
    requires r == [] <==> AllWhitespace(s[..|s| - 1])
    ensures |r| <= |s| && r == s[..|r|]
    ensures AllWhitespace(s[|r|..])
    ensures r == [] <==> AllWhitespace(s)
  {
    assert s == s[..|s| - 1] + [s[|s| - 1]];
    assert s[|r|..] == s[..|s| - 1][|r|..] + [s[|s| - 1]];
    WhitespaceAfter(s[..|s| - 1][|r|..], s[|s| - 1]);
    WhitespaceAfter(s[..|s| - 1], s[|s| - 1]);
  }

  /** A string that is empty or starts with a non-whitespace character is
      all whitespace only when it is empty. */
  lemma LeadingNonWhitespace(s: string)
    requires s == [] || !IsWhitespace(s[0])
    ensures AllWhitespace(s[..0])
    ensures s == [] <==> AllWhitespace(s)
  {
  }

  /** A string that is empty or ends with a non-whitespace character is all
      whitespace only when it is empty. */
  lemma TrailingNonWhitespace(s: string)
    requires s == [] || !IsWhitespace(s[|s| - 1])
    ensures AllWhitespace(s[|s|..])
    ensures s == [] <==> AllWhitespace(s)
  {
  }

  lemma WhitespaceBefore(c: char, t: string)
    requires IsWhitespace(c)
    ensures AllWhitespace([c] + t) <==> AllWhitespace(t)
  {
    assert forall i | 0 <= i < |t| :: ([c] + t)[i + 1] == t[i];
  }

  lemma WhitespaceAfter(t: string, c: char)
    requires IsWhitespace(c)
    ensures AllWhitespace(t + [c]) <==> AllWhitespace(t)
  {
    assert forall i | 0 <= i < |t| :: (t + [c])[i] == t[i];
  }

  /** Python's `text.strip()`: nothing is left exactly when `s` is all
      whitespace, and otherwise what is left starts and ends with a
      non-whitespace character. */
  function Strip(s: string): (r: string)
    ensures r == [] <==> AllWhitespace(s)
    ensures r != [] ==> !IsWhitespace(r[0]) && !IsWhitespace(r[|r| - 1])
  {
    var l := StripLeft(s);
    assert l != [] ==> !AllWhitespace(l) by {
      if l != [] { assert !IsWhitespace(l[0]); }
    }
    StripRight(l)
  }

  /** `not text or not text.strip()` */
  predicate IsBlank(text: string)
  {
    text == [] || Strip(text) == []
  }

  /** A transcript is blank exactly when every one of its characters is
      whitespace (the empty transcript included). */
  lemma BlankIffAllWhitespace(text: string)
    ensures IsBlank(text) <==> AllWhitespace(text)
  {
    var l := StripLeft(text);
    assert Strip(text) == [] <==> AllWhitespace(l);
  }

  /** The five error markers the speech recogniser writes in place of a
      transcript. */
  const InvalidMarkers: seq<string> := [
    "[Could not understand audio]",
    "[Speech recognition service unavailable]",
    "[Error",
    "[No audio]",
    "Audio not clear"
  ]

  /** `pat` occurs in `text` starting at index `i`. */
  ghost predicate OccursAt(text: string, pat: string, i: int)
  {
    0 <= i && i + |pat| <= |text| && text[i..i + |pat|] == pat
  }

  /** Python's substring test `pat in text`, by scanning left to right. */
  function Contains(text: string, pat: string): bool
    decreases |text|
  {
    if |text| < |pat| then false
    else if text[..|pat|] == pat then true
    else Contains(text[1..], pat)
  }

  /** The scan finds `pat` exactly when it occurs somewhere in `text`. */
  lemma {:induction false} ContainsIffOccurs(text: string, pat: string)
    ensures Contains(text, pat) <==> exists i :: OccursAt(text, pat, i)
    decreases |text|
  {
    if |text| < |pat| {
    } else if text[..|pat|] == pat {
      assert OccursAt(text, pat, 0);
    } else {
      var rest := text[1..];
      ContainsIffOccurs(rest, pat);
      if exists j :: OccursAt(rest, pat, j) {
        var j :| OccursAt(rest, pat, j);
        assert text[j + 1..j + 1 + |pat|] == rest[j..j + |pat|];
        assert OccursAt(text, pat, j + 1);
      }
      if exists i :: OccursAt(text, pat, i) {
        var i :| OccursAt(text, pat, i);
        assert i != 0;
        assert rest[i - 1..i - 1 + |pat|] == text[i..i + |pat|];
        assert OccursAt(rest, pat, i - 1);
      }
    }
  }

  /** `is_valid_transcript`: not blank and free of every error marker. */
  predicate IsValidTranscript(text: string)
  {
    !IsBlank(text) &&
    !(exists k | 0 <= k < |InvalidMarkers| :: Contains(text, InvalidMarkers[k]))
  }

  /** Both directions of the validity rule: a transcript is valid exactly
      when some character is not whitespace and no error marker occurs
      anywhere in it. */
  lemma ValidTranscriptIff(text: string)
    ensures IsValidTranscript(text) <==>
              (exists i :: 0 <= i < |text| && !IsWhitespace(text[i])) &&
              (forall k, i :: 0 <= k < |InvalidMarkers| ==> !OccursAt(text, InvalidMarkers[k], i))
  {
    BlankIffAllWhitespace(text);
    forall k | 0 <= k < |InvalidMarkers| {
      ContainsIffOccurs(text, InvalidMarkers[k]);
    }
  }

  /** A marker's first character is needed for it to occur: a transcript in
      which neither '[' nor 'A' appears holds none of the five markers. */
  lemma {:induction false} NoMarkerWithoutLeadCharacter(text: string)
    requires '[' !in text && 'A' !in text
    ensures forall k | 0 <= k < |InvalidMarkers| :: !Contains(text, InvalidMarkers[k])
  {
    forall k | 0 <= k < |InvalidMarkers|
      ensures !Contains(text, InvalidMarkers[k])
    {
      var m := InvalidMarkers[k];
      assert m[0] == '[' || m[0] == 'A';
      ContainsIffOccurs(text, m);
      forall i | 0 <= i && i + |m| <= |text| ensures !OccursAt(text, m, i) {
        assert text[i..i + |m|][0] == text[i];
      }
    }
  }
}
