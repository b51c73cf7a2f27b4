/**
  The phone-number pattern of resume_analyzer.py, as written and as evidently intended, and what
  Python's parser makes of each.

  As written, the area code is wrapped in `$$?` where an optional parenthesis, `\(?` and `\)?`, is
  meant. `$` is an end-of-string anchor and a quantifier after an anchor has nothing to repeat, so
  compiling the pattern raises `re.error` at position 25, before anything is matched. With the
  parentheses the pattern compiles.

  The patterns are written in pieces: country code, area code, local number. Each parse step is
  proved over any string with the right characters at the right places, and the characters of
  each piece are derived apart from the parse, which keeps every proof small.
 */
module PhonePatterns {
  import opened Wrappers
  import opened PatternSyntax

  /** An optional country code: a word boundary, then a non-capturing optional group of `+`,
      one to three digits and an optional separator. Positions 0 to 22. */
  const CountryCode: string := @"\b(?:\+\d{1,3}[-.\s]?)?"

  /** The area code as written. Positions 23 to 40. */
  const AreaCodeAsWritten: string := @"$$?\d{3}$$?[-.\s]?"

  /** The area code as intended: three digits, optionally in parentheses, and an optional
      separator. Positions 23 to 40. */
  const AreaCode: string := @"\(?\d{3}\)?[-.\s]?"

  /** Three digits, an optional separator, four digits and a word boundary. Positions 41 to 59. */
  const LocalNumber: string := @"\d{3}[-.\s]?\d{4}\b"

  /** The pattern at resume_analyzer.py:106 and :358. */
  const PhonePatternAsWritten: string := CountryCode + AreaCodeAsWritten + LocalNumber

  /** The pattern with the optional parentheses the area code evidently means. */
  const PhonePattern: string := CountryCode + AreaCode + LocalNumber

  /** Compiling the pattern as written fails: the `?` at position 25 follows the anchor `$`. */
  lemma PhonePatternRejected()
    ensures SyntaxError(PhonePatternAsWritten) == Some(NothingToRepeat(25))
  {
    var p := PhonePatternAsWritten;
    assert |p| == 60 && p[..23] == CountryCode && p[23..41] == AreaCodeAsWritten;
    CountryPrefixChars(p);
    CountryDigitChars(p);
    CountryGroupEndChars(p);
    AreaCodeAsWrittenChars(p);
    CountryCodeOpen(p);
    CountryCodeClose(p);
    AnchorStep(p, 23, [], Repeated);
    AnchorThenRepeat(p, 24, [], Anchor);
  }

  /** The intended pattern compiles. */
  lemma PhonePatternAccepted()
    ensures SyntaxError(PhonePattern) == None
  {
    var p := PhonePattern;
    assert |p| == 60 && p[..23] == CountryCode && p[23..41] == AreaCode && p[41..] == LocalNumber;
    CountryPrefixChars(p);
    CountryDigitChars(p);
    CountryGroupEndChars(p);
    AreaCodeChars(p);
    LocalNumberChars(p);
    CountryCodeOpen(p);
    CountryCodeClose(p);
    AreaCodeScan(p);
    LocalNumberScan(p);
  }

  // The parse of each piece.

  /** `\b(?:\+`: a word boundary, then the group opens at 2 and `\+` is its first item. */
  lemma CountryCodeOpen(p: string)
    requires |p| > 7
    requires p[0] == '\\' && p[1] == 'b' && p[2] == '(' && p[3] == '?' && p[4] == ':' && p[5] == '\\' && p[6] == '+'
    ensures Scan(p, 0, [], Empty) == Scan(p, 7, [2], Item)
  {
    assert [] + [2] == [2];
    EscapeStep(p, 0, [], Empty);
    GroupStep(p, 2, [], Anchor);
    EscapeStep(p, 5, [2], Empty);
  }

  /** `\d{1,3}[-.\s]?)?`: the rest of the group, which closes and is made optional. */
  lemma CountryCodeClose(p: string)
    requires |p| > 23
    requires p[7] == '\\' && p[8] == 'd' && p[9] == '{' && p[10] == '1' && p[11] == ',' && p[12] == '3' && p[13] == '}'
    requires p[14] == '[' && p[15] == '-' && p[16] == '.' && p[17] == '\\' && p[18] == 's' && p[19] == ']'
    requires p[20] == '?' && p[21] == ')' && p[22] == '?' && PlainEnd(p, 23)
    ensures Scan(p, 7, [2], Item) == Scan(p, 23, [], Repeated)
  {
    CountryCodeDigits(p);
    assert [2][..0] == [];
    CloseStep(p, 21, [2], Repeated);
    RepeatStep(p, 22, [], Item);
  }

  /** `\d{1,3}[-.\s]?` inside the group. */
  lemma CountryCodeDigits(p: string)
    requires |p| > 22
    requires p[7] == '\\' && p[8] == 'd' && p[9] == '{' && p[10] == '1' && p[11] == ',' && p[12] == '3' && p[13] == '}'
    requires p[14] == '[' && p[15] == '-' && p[16] == '.' && p[17] == '\\' && p[18] == 's' && p[19] == ']'
    requires p[20] == '?' && p[21] == ')'
    ensures Scan(p, 7, [2], Item) == Scan(p, 21, [2], Repeated)
  {
    DigitRange(p, 7, [2], Item);
    OptionalSeparator(p, 14, [2], Repeated);
  }

  /** `\(?\d{3}\)?[-.\s]?`: four optional or counted items. */
  lemma AreaCodeScan(p: string)
    requires |p| > 41
    requires p[23] == '\\' && p[24] == '(' && p[25] == '?'
    requires p[26] == '\\' && p[27] == 'd' && p[28] == '{' && p[29] == '3' && p[30] == '}'
    requires p[31] == '\\' && p[32] == ')' && p[33] == '?'
    requires p[34] == '[' && p[35] == '-' && p[36] == '.' && p[37] == '\\' && p[38] == 's' && p[39] == ']' && p[40] == '?'
    requires PlainEnd(p, 41)
    ensures Scan(p, 23, [], Repeated) == Scan(p, 41, [], Repeated)
  {
    OptionalEscape(p, 23, [], Repeated);
    DigitCount(p, 26, [], Repeated);
    OptionalEscape(p, 31, [], Repeated);
    OptionalSeparator(p, 34, [], Repeated);
  }

  /** `\d{3}[-.\s]?\d{4}\b` ends the pattern with no group left open. */
  lemma LocalNumberScan(p: string)
    requires |p| == 60
    requires p[41] == '\\' && p[42] == 'd' && p[43] == '{' && p[44] == '3' && p[45] == '}'
    requires p[46] == '[' && p[47] == '-' && p[48] == '.' && p[49] == '\\' && p[50] == 's' && p[51] == ']' && p[52] == '?'
    requires p[53] == '\\' && p[54] == 'd' && p[55] == '{' && p[56] == '4' && p[57] == '}'
    requires p[58] == '\\' && p[59] == 'b'
    ensures Scan(p, 41, [], Repeated) == None
  {
    DigitCount(p, 41, [], Repeated);
    OptionalSeparator(p, 46, [], Repeated);
    DigitCount(p, 53, [], Repeated);
    EscapeStep(p, 58, [], Repeated);
  }

  // The characters of each piece. Derived here, apart from the parse steps, because the solver
  // reads them off the string constants much more cheaply without parse terms in scope.

  lemma CountryPrefixChars(p: string)
    requires |p| > 23 && p[..23] == CountryCode
    ensures p[0] == '\\' && p[1] == 'b' && p[2] == '(' && p[3] == '?' && p[4] == ':' && p[5] == '\\' && p[6] == '+'
  {
  }

  lemma CountryDigitChars(p: string)
    requires |p| > 23 && p[..23] == CountryCode
    ensures p[7] == '\\' && p[8] == 'd' && p[9] == '{' && p[10] == '1' && p[11] == ',' && p[12] == '3' && p[13] == '}'
  {
  }

  lemma CountryGroupEndChars(p: string)
    requires |p| > 23 && p[..23] == CountryCode
    ensures p[14] == '[' && p[15] == '-' && p[16] == '.' && p[17] == '\\' && p[18] == 's' && p[19] == ']'
    ensures p[20] == '?' && p[21] == ')' && p[22] == '?'
  {
  }

  lemma AreaCodeAsWrittenChars(p: string)
    requires |p| > 41 && p[23..41] == AreaCodeAsWritten
    ensures p[23] == '$' && p[24] == '$' && p[25] == '?'
  {
  }

  lemma AreaCodeChars(p: string)
    requires |p| > 41 && p[23..41] == AreaCode
    ensures p[23] == '\\' && p[24] == '(' && p[25] == '?'
    ensures p[26] == '\\' && p[27] == 'd' && p[28] == '{' && p[29] == '3' && p[30] == '}'
    ensures p[31] == '\\' && p[32] == ')' && p[33] == '?'
    ensures p[34] == '[' && p[35] == '-' && p[36] == '.' && p[37] == '\\' && p[38] == 's' && p[39] == ']' && p[40] == '?'
  {
  }

  lemma LocalNumberChars(p: string)
    requires |p| == 60 && p[41..] == LocalNumber
    ensures p[41] == '\\' && p[42] == 'd' && p[43] == '{' && p[44] == '3' && p[45] == '}'
    ensures p[46] == '[' && p[47] == '-' && p[48] == '.' && p[49] == '\\' && p[50] == 's' && p[51] == ']' && p[52] == '?'
    ensures p[53] == '\\' && p[54] == 'd' && p[55] == '{' && p[56] == '4' && p[57] == '}'
    ensures p[58] == '\\' && p[59] == 'b'
  {
  }
}
