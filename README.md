# Resume analysis: scores, suggestions and the PDF report

This project models two parts of the resume-analysis application in Dafny and
proves properties of them.

* **The rule-based analyzer** (`ResumeAnalyzer` in `resume_analyzer.py`):
  * skill extraction over the three keyword lists;
  * the four category scores (ATS compatibility, content quality, format and
    skills match);
  * the feedback sentence of each score;
  * the list of at most seven improvement suggestions.
* **The PDF report** (`generatePDF` and `splitTextToLines` in `pdf-export.tsx`):
  * the greedy word wrapper;
  * the cursor that lays out page 1 (the analysis) and page 2 (the optimized
    resume, when there is resume data) line by line, 20 points apart, from
    y = 742 down.

Modules, one file each:

| file | module | models |
|---|---|---|
| `wrappers.dfy` | `Wrappers` | `Option`: JavaScript's missing fields and Python's `None`; `Result`: a value or a raised error |
| `decimal.dfy` | `Decimal` | the decimal text of an integer, as a template literal prints it, and reading it back |
| `text_wrap.dfy` | `TextWrap` | `text.split(" ")`, `join` and `splitTextToLines`, as a `for` loop proved against a recursive specification `Wrap` |
| `pdf_layout.dfy` | `PdfLayout` | `generatePDF` as imperative code that appends `drawText` records to a log and moves a cursor, proved equal to `Report`, the placement of a row specification |
| `layout_properties.dfy` | `LayoutProperties` | what the layout guarantees: cursor positions, page order, bullets, no page break, when page 2 appears |
| `pattern_syntax.dfy` | `PatternSyntax` | which patterns Python's `re` parser accepts, for the syntax the analyzer's patterns use, and the error it raises otherwise |
| `phone_pattern.dfy` | `PhonePatterns` | the analyzer's phone pattern, as written (rejected) and as intended (accepted) |
| `resume_scoring.dfy` | `ResumeScoring` | `extract_skills` and the `calculate_*` scores, each method proved against a score function with its bounds |
| `resume_feedback.dfy` | `ResumeFeedback` | the four `_generate_*_feedback` functions and `_generate_suggestions` |

How the model represents the source:

* **Regular expressions.** Searches are not executed character by character.
  A `Resume` carries its text together with what the expressions report about
  it:
  * whether an email address and a phone number occur (the phone number as
    the intended pattern finds it; see "## Findings");
  * which terms occur as whole words in the lower-cased text (`Mentions`);
  * how many quantifier, education, experience and bullet matches there are.
* **Word and paragraph counts** are modelled on the text itself. The word count
  is `len(text.split())`, with Python's whitespace set. The paragraph count is
  `len(text.split('\n\n'))`.
* **Suggestion texts.** Each suggestion is a value of the `Tip` datatype, and
  `TipText` gives its exact text. `GenerateSuggestions` returns the texts.
  `TipTextInjective` shows that the texts identify the suggestions, so the
  properties stated about tips are properties of the returned strings.
* **Font metrics.** The report's font metric is a parameter:
  `width(text, size)` is the width of a text in the regular font at a point size.

## Model

| member | source | states |
|---|---|---|
| Decimal.NatToString | pdf-export.tsx:91 | the text of a number is a non-empty run of decimal digits, with a leading 0 only for 0 itself |
| Decimal.NatToStringRoundTrip | pdf-export.tsx:91 | reading the digits back gives the number |
| Decimal.IntToString | pdf-export.tsx:112 | a minus sign exactly for a negative number, then decimal digits |
| Decimal.IntToStringRoundTrip | pdf-export.tsx:112 | reading the signed text back gives the number |
| TextWrap.FirstSpace | pdf-export.tsx:483 | the result is a space and no space comes before it |
| TextWrap.Split | pdf-export.tsx:483 | `text.split(" ")` yields at least one piece and no piece contains a space |
| TextWrap.JoinSplit | pdf-export.tsx:483 | joining the pieces of a split with single spaces gives the text back |
| TextWrap.JoinSnoc | pdf-export.tsx:488 | joining one more word appends a space and the word, as the candidate line does |
| TextWrap.SplitAround | pdf-export.tsx:272 | splitting `a + " " + b` gives the pieces of `a` followed by the pieces of `b` (used for the `"• " + text` bullets) |
| TextWrap.TokensCandidate | pdf-export.tsx:488 | extending the current line with a word adds exactly that word's non-empty pieces |
| TextWrap.SplitTextToLines | pdf-export.tsx:482-504 | the greedy loop returns `Wrap(text)`: committed lines, and the last line only when it is non-empty |
| TextWrap.FillLength | pdf-export.tsx:487-497 | each word commits at most one line |
| TextWrap.WrapLineCount | pdf-export.tsx:482-504 | there is at most one more line than pieces of the text |
| TextWrap.FillFits | pdf-export.tsx:487-497 | every committed or current line passed the width test, or is a single word, or is the empty line committed before the first word |
| TextWrap.WrapFits | pdf-export.tsx:487-501 | every line fits `maxWidth`, or is a single piece that did not fit, or is an empty line 0 |
| TextWrap.FillTokens | pdf-export.tsx:487-497 | the words of the lines and the current line are the non-empty pieces, in order |
| TextWrap.WrapKeepsWords | pdf-export.tsx:482-504 | no word is split, dropped or reordered: the lines' words are the text's words |
| TextWrap.WrapKeepsPieces | pdf-export.tsx:482-504 | without doubled, leading or trailing spaces, the lines' words are exactly `text.split(" ")` |
| TextWrap.FillFirstTooWide | pdf-export.tsx:491-496 | when the first word does not fit, the empty current line is committed first |
| TextWrap.WrapEmptyFirstLine | pdf-export.tsx:491-496 | when the first piece is too wide, line 0 is the empty string |
| TextWrap.FillNoEmpty | pdf-export.tsx:487-497 | with non-empty words and a first word that fits, no line is empty |
| TextWrap.WrapNoEmptyLine | pdf-export.tsx:482-504 | for a text of single-spaced words whose first word fits, there is a line and no line is empty |
| TextWrap.WrapEmptyText | pdf-export.tsx:482-504 | the empty text gives no line when the empty string fits and one empty line otherwise |
| TextWrap.FillFirstWord | pdf-export.tsx:487-497 | a first word that fits begins the first line |
| TextWrap.WrapFirstWord | pdf-export.tsx:482-504 | when the first piece is a word that fits, line 0 exists and begins with it |
| TextWrap.FillAllFit | pdf-export.tsx:487-497 | when every word-prefix fits, nothing is committed and the current line is the joined words |
| TextWrap.WrapAllFit | pdf-export.tsx:482-504 | when every word-prefix of the text fits, the result is the text on one line |
| PdfLayout.DrawText | pdf-export.tsx:80-89 | one `drawText` appends its record at the cursor and the cursor moves down one line |
| PdfLayout.Skip | pdf-export.tsx:88 | moving the cursor without drawing adds a blank row |
| PdfLayout.DrawLines | pdf-export.tsx:130-140 | drawing wrapped lines adds one row per line, in order |
| PdfLayout.DrawBullet | pdf-export.tsx:272-286 | a bullet is `"• " + item` wrapped; line 0 is drawn as is and later lines get two leading spaces |
| PdfLayout.DrawBullets | pdf-export.tsx:270-287 | the suggestions are drawn as bullets, item after item |
| PdfLayout.DrawSection | pdf-export.tsx:101-142 | a section is its heading, the score line `ScoreText` ("Score: ", the score in decimal, "/100"), the wrapped feedback at 10 points in, and a spacer |
| PdfLayout.DrawPage1 | pdf-export.tsx:67-287 | page 1's draws are the placement of `Page1Rows` on page 0, whose third row is `OverallText` ("Overall Score: ", the score in decimal, "/100") |
| PdfLayout.DrawPersonal | pdf-export.tsx:309-333 | the name, then `ContactText` (`email \| phone \| location`), then a blank line, when personal info is present |
| PdfLayout.DrawSkills | pdf-export.tsx:335-363 | when the skills list is non-empty: its heading, then the skills joined with ", " and wrapped to width - 100 |
| PdfLayout.DrawExperienceEntry | pdf-export.tsx:376-416 | an entry is title and company, the dates, the bulleted description, and a spacer |
| PdfLayout.DrawExperience | pdf-export.tsx:376-417 | the entries are drawn one after the other |
| PdfLayout.DrawExperienceSection | pdf-export.tsx:365-418 | the heading and the entries, when the list is non-empty |
| PdfLayout.DrawEducation | pdf-export.tsx:431-451 | each entry is `degree in field` and `institution, date`, then a blank line |
| PdfLayout.DrawEducationSection | pdf-export.tsx:420-452 | the heading and the entries, when the list is non-empty |
| PdfLayout.DrawPage2 | pdf-export.tsx:294-452 | page 2's draws are the placement of `Page2Rows` on page 1 |
| PdfLayout.GeneratePdf | pdf-export.tsx:64-453 | the draws of both pages are `Report`, and there is a second page exactly when resume data has a truthy part |
| LayoutProperties.PlaceDescending | pdf-export.tsx:76-88 | a page's draws stay on it, lie below the top, and step strictly downwards |
| LayoutProperties.PlaceRow | pdf-export.tsx:76-88 | row k, when it is a line, is drawn at y = 742 - 20 k |
| LayoutProperties.PlaceFirst | pdf-export.tsx:76-88 | a first line row is the first draw of its page, at the top |
| LayoutProperties.TwoPages | pdf-export.tsx:290-296 | putting page 2 after page 1 keeps page numbers non-decreasing and each page descending |
| LayoutProperties.ReportCursor | pdf-export.tsx:64-453 | the report opens with its title at the top of page 1; the draws are in page order and descend on each page; page 2 opens with its own title at the top |
| LayoutProperties.SectionLayout | pdf-export.tsx:101-142 | a section takes 3 + (feedback lines) rows, with the heading first and the score line second |
| LayoutProperties.Page1Layout | pdf-export.tsx:76-267 | the row of every heading and score line of page 1, given the lengths of the wrapped feedback |
| LayoutProperties.Page1RowDrawn | pdf-export.tsx:76-287 | every line row k of page 1 is drawn on page 1 at y = 742 - 20 k |
| LayoutProperties.CountAppend | pdf-export.tsx:270-287 | counting glyph-led rows distributes over concatenation |
| LayoutProperties.BulletRowsLed | pdf-export.tsx:274-276 | only line 0 of a wrapped bullet can start with the glyph; later lines are indented |
| LayoutProperties.BulletLinesShape | pdf-export.tsx:272 | the glyph opens line 0 when it fits the wrap width, and line 0 is empty when it does not |
| LayoutProperties.BulletListLed | pdf-export.tsx:270-287 | the glyph-led rows of a bullet list count its items that open with the glyph |
| LayoutProperties.BulletCount | pdf-export.tsx:270-287 | when the glyph fits, each suggestion opens exactly one glyph-led row; otherwise none does |
| LayoutProperties.BulletListLength | pdf-export.tsx:270-287 | each item takes at least one row and the list ends on a drawn line |
| LayoutProperties.Page1LastRow | pdf-export.tsx:76-287 | page 1 has at least 17 rows plus one per suggestion, and it ends on a drawn line, with or without suggestions |
| LayoutProperties.Page1Overflow | pdf-export.tsx:270-290 | page 1 is never broken, with or without suggestions: its last draw is 20 points below the row before, at any depth, and with 22 suggestions or more it lies below the bottom edge |
| LayoutProperties.EmptyListsAddPage | pdf-export.tsx:290-293 | without personal info, any mix of absent and empty lists with at least one list present still adds page 2, which then holds only its title and a blank row |
| LayoutProperties.NoResumeData | pdf-export.tsx:290-293 | without resume data, or with every part absent, the report is page 1 alone |
| PatternSyntax.BraceAt | resume_analyzer.py:106 | a brace repeat such as `{1,3}` ends with its `}`, inside the pattern |
| PatternSyntax.SetEnd | resume_analyzer.py:106 | a set such as `[-.\s]` ends after a `]` that is not its first member; an error lies inside the pattern |
| PatternSyntax.RepeatError | resume_analyzer.py:106 | a quantifier raises exactly when the item before it is missing, an anchor or already repeated |
| PatternSyntax.Scan | resume_analyzer.py:106 | any error the parse raises is at a position inside the pattern |
| PatternSyntax.SyntaxError | resume_analyzer.py:106 | `re.compile` reports any error at a position inside the pattern |
| PatternSyntax.AnchorThenRepeat | resume_analyzer.py:106 | a quantifier right after `^` or `$` raises "nothing to repeat" at the quantifier |
| PatternSyntax.AnchorStep | resume_analyzer.py:106 | `^` and `$` are anchors |
| PatternSyntax.EscapeStep | resume_analyzer.py:106 | `\b` is an anchor; `\d`, `\s`, `\+`, `\(` and `\)` are items |
| PatternSyntax.GroupStep | resume_analyzer.py:106 | `(?:` opens a group with nothing to repeat yet |
| PatternSyntax.CloseStep | resume_analyzer.py:106 | `)` closes the innermost open group, which is then an item |
| PatternSyntax.RepeatStep | resume_analyzer.py:106 | `?`, `*` or `+` after an item repeats it |
| PatternSyntax.SingleDigitValue | resume_analyzer.py:106 | a one-digit bound has that digit's value |
| PatternSyntax.BraceOneDigit | resume_analyzer.py:106 | `{d}` sets both bounds to d |
| PatternSyntax.BraceTwoDigits | resume_analyzer.py:106 | `{d,e}` sets the bounds to d and e |
| PatternSyntax.BraceStep | resume_analyzer.py:106 | a brace repeat within its bounds, after an item, repeats it |
| PatternSyntax.SeparatorSet | resume_analyzer.py:106 | `[-.\s]` is one item |
| PatternSyntax.OptionalEscape | resume_analyzer.py:106 | `\(?` is a repeated item |
| PatternSyntax.DigitCount | resume_analyzer.py:106 | `\d{3}` is a repeated item |
| PatternSyntax.DigitRange | resume_analyzer.py:106 | `\d{1,3}` is a repeated item |
| PatternSyntax.OptionalSeparator | resume_analyzer.py:106 | `[-.\s]?` is a repeated item |
| PhonePatterns.PhonePatternRejected | resume_analyzer.py:106 | the phone pattern as written raises "nothing to repeat" at position 25, the `?` after `$` |
| PhonePatterns.PhonePatternAccepted | resume_analyzer.py:106 | the phone pattern with `\(?` and `\)?` in place of `$$?` compiles |
| PhonePatterns.CountryCodeOpen | resume_analyzer.py:106 | `\b(?:\+` opens the country-code group at position 2 with an item in it |
| PhonePatterns.CountryCodeClose | resume_analyzer.py:106 | the rest of the country code closes the group and makes it optional |
| PhonePatterns.CountryCodeDigits | resume_analyzer.py:106 | `\d{1,3}[-.\s]?` inside the group |
| PhonePatterns.AreaCodeScan | resume_analyzer.py:106 | the intended area code `\(?\d{3}\)?[-.\s]?` parses |
| PhonePatterns.LocalNumberScan | resume_analyzer.py:106 | `\d{3}[-.\s]?\d{4}\b` parses to the end with no group open |
| ResumeScoring.Matching | resume_analyzer.py:79-82 | the keywords found are at most the keyword list |
| ResumeScoring.MatchingMembers | resume_analyzer.py:79-82 | a keyword is found exactly when it is in the list and the text mentions it |
| ResumeScoring.MatchingInOrder | resume_analyzer.py:79-82 | the keywords found are a subsequence of the list: they sit at increasing positions |
| ResumeScoring.FindSkills | resume_analyzer.py:80-82 | the inner loop appends the mentioned keywords of a category, in list order |
| ResumeScoring.ExtractSkills | resume_analyzer.py:71-84 | each category's list holds the mentioned keywords of that category, in keyword order |
| ResumeScoring.CountSkills | resume_analyzer.py:116-117 | given the skills `extract_skills` found in a text, the total is the number of dictionary keywords (all categories together) that the text mentions |
| ResumeScoring.WordCount | resume_analyzer.py:222 | the word count never exceeds the text length |
| ResumeScoring.WordCountJoin | resume_analyzer.py:222 | the words of `a + " " + b` are the words of a plus the words of b |
| ResumeScoring.ParagraphCount | resume_analyzer.py:213 | there is always at least one paragraph |
| ResumeScoring.ParagraphsDoNotOverlap | resume_analyzer.py:213 | three newlines in a row count as one separator, read from the left |
| ResumeScoring.TripleNewline | resume_analyzer.py:213 | the same fact for the separator count |
| ResumeScoring.MentionedByBoth | resume_analyzer.py:128-133 | the title loop finds a title exactly when some title occurs in both texts |
| ResumeScoring.AtsScore | resume_analyzer.py:98-138 | the ATS score is its uncapped sum, between 5 and 85, and at most 70 without a job description |
| ResumeScoring.CalculateAtsScore | resume_analyzer.py:98-138 | the method computes the ATS score |
| ResumeScoring.AtsScoreAsWritten | resume_analyzer.py:98-106 | as written, the outcome is an error exactly when the phone pattern does not compile, and otherwise the ATS score |
| ResumeScoring.AtsScoreAsWrittenRaises | resume_analyzer.py:106 | as written, every resume makes the ATS score raise "nothing to repeat" at position 25 |
| ResumeScoring.ContentScore | resume_analyzer.py:140-184 | the content score is its uncapped sum, between 15 and 90 |
| ResumeScoring.CountMentioned | resume_analyzer.py:147 | the counting loop counts the mentioned terms |
| ResumeScoring.CalculateContentQualityScore | resume_analyzer.py:140-184 | the method computes the content score |
| ResumeScoring.LengthTier | resume_analyzer.py:222-228 | 20 points exactly for 300 to 700 words, 10 exactly below 300, 5 exactly above 700 |
| ResumeScoring.FormatScore | resume_analyzer.py:186-233 | the format score is its sum, between 20 and 100 |
| ResumeScoring.CalculateFormatScore | resume_analyzer.py:186-233 | the method computes the format score |
| ResumeScoring.MatchingBoth | resume_analyzer.py:245-250 | the skills both texts mention are at most the job's skills of the category |
| ResumeScoring.CountInMatching | resume_analyzer.py:247-250 | counting the resume's skills that the job's list holds counts the keywords both texts mention |
| ResumeScoring.MatchedCount | resume_analyzer.py:247-250 | the same for a whole keyword list |
| ResumeScoring.CountShared | resume_analyzer.py:248-250 | the inner loop counts the resume skills the job list holds |
| ResumeScoring.CountMatching | resume_analyzer.py:246-250 | given the skills extracted from the resume and from the job description, the count is the number of dictionary keywords that both texts mention |
| ResumeScoring.CalculateSkillsMatchScore | resume_analyzer.py:235-271 | the method computes the skills-match score |
| ResumeScoring.PercentageBound | resume_analyzer.py:253-259 | a share of at most the whole lies between 0 and 100 percent |
| ResumeScoring.SkillsMatchRange | resume_analyzer.py:240-269 | no job description gives 90/75/60/40 by strict tiers; with one, the matched count is at most the job's count, the score is the exact percentage, and the cap never applies; always within [0, 100] |
| ResumeFeedback.AtsFeedback | resume_analyzer.py:318-324 | each of the three texts is chosen exactly in its score band |
| ResumeFeedback.ContentFeedback | resume_analyzer.py:326-332 | each of the three texts is chosen exactly in its score band |
| ResumeFeedback.FormatFeedback | resume_analyzer.py:334-340 | each of the three texts is chosen exactly in its score band |
| ResumeFeedback.SkillsFeedback | resume_analyzer.py:342-348 | each of the three texts is chosen exactly in its score band |
| ResumeFeedback.AtsWithoutJobDescription | resume_analyzer.py:98-138 | without a job description the ATS feedback is never the "highly compatible" text |
| ResumeFeedback.Texts | resume_analyzer.py:350-409 | one text per suggestion, in order |
| ResumeFeedback.Missing | resume_analyzer.py:362 | the missing headings and the mentioned ones together make the whole list |
| ResumeFeedback.MissingMembers | resume_analyzer.py:362 | a heading is missing exactly when it is in the list and not mentioned |
| ResumeFeedback.TakeMembers | resume_analyzer.py:409 | a list cut to n holds only elements of the list |
| ResumeFeedback.TakeKeepsPrefix | resume_analyzer.py:409 | cutting at n keeps any first part no longer than n |
| ResumeFeedback.TakeGeneral | resume_analyzer.py:406-409 | the first general tip survives the cut exactly when at most six others precede it, and both survive exactly when at most five do |
| ResumeFeedback.AddAtsSuggestions | resume_analyzer.py:354-364 | the ATS block appends its suggestions |
| ResumeFeedback.AddContentSuggestions | resume_analyzer.py:367-376 | the content block appends its suggestions |
| ResumeFeedback.AddFormatSuggestions | resume_analyzer.py:379-393 | the format block appends its suggestions |
| ResumeFeedback.AddSkillsSuggestions | resume_analyzer.py:396-403 | the skills block appends its suggestions |
| ResumeFeedback.GenerateSuggestions | resume_analyzer.py:350-409 | the texts of the first seven of: the block suggestions, then the two general ones |
| ResumeFeedback.SuggestionsAsWritten | resume_analyzer.py:350-358 | as written, the outcome is an error exactly when the ATS score is below 80 and the phone pattern does not compile, and otherwise the suggestion list |
| ResumeFeedback.SuggestionsAsWrittenRaise | resume_analyzer.py:353-358 | as written, the suggestions raise "nothing to repeat" at position 25 exactly when the ATS score is below 80, and are the suggestion list otherwise |
| ResumeFeedback.AtsTipsOnly | resume_analyzer.py:354-364 | the ATS block adds at most three suggestions, all of the ATS kind, and only below 80 |
| ResumeFeedback.AtsTipsExact | resume_analyzer.py:354-364 | email, phone and headings suggestions each appear exactly when the score is below 80 and the fact is missing; the headings suggestion names the missing headings |
| ResumeFeedback.ContentTipsOnly | resume_analyzer.py:367-376 | the content block adds at most two suggestions, all of the content kind, and only below 80 |
| ResumeFeedback.FormatTipsOnly | resume_analyzer.py:379-393 | the format block adds at most three suggestions, all of the format kind, only below 80; "too long" needs more than 700 words and "too short" fewer than 300 |
| ResumeFeedback.SkillsTipsOnly | resume_analyzer.py:396-403 | the skills block adds at most two suggestions, all of the skills kind, and only below 80 |
| ResumeFeedback.SuggestionsMembers | resume_analyzer.py:350-409 | every suggestion comes from one of the four blocks or is a general one |
| ResumeFeedback.SuggestionsGated | resume_analyzer.py:354-403 | a category's suggestions appear only when that category's score is below 80 |
| ResumeFeedback.LengthTipsExclusive | resume_analyzer.py:390-393 | "too long" and "too short" never appear together |
| ResumeFeedback.SuggestionsLength | resume_analyzer.py:350-409 | there are at most ten block suggestions, and the list length is min(that + 2, 7) |
| ResumeFeedback.GeneralTipsSurvive | resume_analyzer.py:406-409 | "tailor" survives exactly when at most six block suggestions precede it, and "keep consistent" exactly when at most five do |
| ResumeFeedback.AtsTipsFirst | resume_analyzer.py:354-409 | the ATS suggestions come first, so the cut never drops them |
| ResumeFeedback.AtsTipsSurvive | resume_analyzer.py:354-409 | email, phone and headings suggestions are returned exactly when the ATS score is below 80 and the fact is missing; the headings suggestion names the missing headings |
| ResumeFeedback.NotPrefixAt | resume_analyzer.py:364 | a text that differs from a prefix at one position does not start with it |
| ResumeFeedback.HeadingsText | resume_analyzer.py:364 | the missing-headings text starts with "Add standard section headings for: " |
| ResumeFeedback.AtsTexts | resume_analyzer.py:356-359 | the fixed ATS texts have their lengths and do not start like the headings text |
| ResumeFeedback.ContentTexts | resume_analyzer.py:371-376 | the same for the content texts |
| ResumeFeedback.FormatTexts | resume_analyzer.py:383-393 | the same for the format texts |
| ResumeFeedback.SkillsTexts | resume_analyzer.py:400-403 | the same for the skills texts |
| ResumeFeedback.GeneralTexts | resume_analyzer.py:406-407 | the same for the two general texts |
| ResumeFeedback.TipTextInjective | resume_analyzer.py:356-407 | different suggestions have different texts (two headings suggestions aside, and a list holds at most one of those) |

## Left out

- Regular expressions: the email, phone, quantifier, education, experience and
  bullet patterns, and the `\bterm\b` searches, are inputs to the model. Their
  matching is not modelled; of their parsing, only the phone pattern's is. One example: the `\b` after `c++` or `c#`
  needs a word character to follow.
- AtsScore, CalculateAtsScore, AddAtsSuggestions, GenerateSuggestions, AtsTipsExact, AtsTipsSurvive:
  `hasPhone` is what a search with the intended phone pattern (`PhonePattern`)
  reports. As written, the pattern raises `re.error` when it is compiled, and
  `AtsScoreAsWritten` and `SuggestionsAsWritten` model that (see "## Findings").
- PatternSyntax.Scan: covers the syntax of the analyzer's patterns and the
  errors around it. Other syntax is `OutsideFragment`: ranges `a-b` in a set, the
  `\x \u \U \N` and digit escapes, group extensions other than `(?:`, and a
  trailing backslash. Errors raised after parsing, when the pattern is compiled
  to code, are not modelled.
- Lower-casing: `text.lower()` is folded into `Mentions`. Unicode case mapping
  is not modelled.
- `preprocess_text`, the NLTK tokenizer and stop words: they feed only
  `train_model`.
- `train_model`, `save_model` and `load_model`: the machine-learning part is I/O
  and library code.
- `analyze_resume` and its `overall_score`: a floating-point weighted mean
  (0.3, 0.3, 0.2, 0.2), truncated toward zero by `int(...)`
  (resume_analyzer.py:281). Floating-point arithmetic is outside the model.
- SkillsMatchRange: the percentage with a job description is exact real
  arithmetic. Python's floating-point division and its rounding are not
  modelled.
- An empty job description counts as no job description, since Python treats
  both as false. The model's `None` stands for both.
- The skills dictionary is a record with one list per category. Iteration
  follows the keyword dictionary's category order.
- Suggestions are `Tip` values while they are collected. The strings are
  produced by `TipText` at the end. This does not change the result.
- `pdf-lib`: fonts, colours, page objects and `pdfDoc.save()`. Each `drawText`
  call becomes a record in a log.
- The font metric `widthOfTextAtSize` is a parameter of the model.
- Scores are integers in the report. A fractional score, such as a skills-match
  percentage, is printed by JavaScript with its decimals. `IntToString` covers
  integers only.
- Pixel positions are integers. JavaScript numbers are floats, but every
  position here is an integer.
- Downloading the file and the React component state (`isGenerating`,
  `isGenerated`): browser I/O.
- The `try`/`catch` around `generatePDF` (pdf-export.tsx:59, 475-478): it
  catches failures of the foreign calls, for example `widthOfTextAtSize` or
  `drawText` throwing. The model does not have these failures. `Metric` is a
  total function and `GeneratePdf` always returns its draws.
- The Flask and Streamlit front ends, the upload route, the AI service and the
  resume parser are not part of this model.

## Findings

| source | as written | input that shows it | evidently intended | confidence | as-written member | corrected member |
|---|---|---|---|---|---|---|
| resume_analyzer.py:106 | the phone pattern has `$$?` around the area code; `$` is an anchor, so the `?` after it has nothing to repeat and `re.search` raises `re.error` | any resume text: the pattern fails at position 25 before anything is matched | `\(?` and `\)?`, an optional parenthesis, so that the search adds 10 points for a phone number | high (not executed) | ResumeScoring.AtsScoreAsWrittenRaises | PhonePatterns.PhonePatternAccepted, ResumeScoring.AtsScore |
| resume_analyzer.py:358 | the same pattern in the ATS block of `_generate_suggestions` | any resume text with an ATS score below 80 | the same pattern as at :106, so that the phone suggestion appears when no phone number is found | high (not executed) | ResumeFeedback.SuggestionsAsWrittenRaise | PhonePatterns.PhonePatternAccepted, ResumeFeedback.GenerateSuggestions |
