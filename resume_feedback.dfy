/**
  Feedback texts and the suggestion list of the resume scorer
  (the `_generate_*_feedback` functions and `_generate_suggestions` of resume_analyzer.py).
 */
module ResumeFeedback {
  import opened Wrappers
  import opened TextWrap
  import opened PatternSyntax
  import opened PhonePatterns
  import opened ResumeScoring

  // ---------------------------------------------------------------------------
  // Feedback
  // ---------------------------------------------------------------------------

  const AtsHigh := "Your resume is highly compatible with ATS systems. It contains all the necessary elements for successful parsing."
  const AtsMid := "Your resume is compatible with most ATS systems, but there's room for improvement in certain areas."
  const AtsLow := "Your resume may have difficulty passing through ATS systems. Consider restructuring with standard section headings and formats."

  const ContentHigh := "Your content is strong with good use of action verbs and quantifiable achievements."
  const ContentMid := "Your content is good but could benefit from more action verbs and quantifiable results."
  const ContentLow := "Your content needs improvement. Focus on using action verbs and quantifying your achievements."

  const FormatHigh := "Your resume has excellent formatting with clear sections and good use of white space."
  const FormatMid := "Your resume format is good but could be improved with more consistent section headings and bullet points."
  const FormatLow := "Your resume format needs improvement. Consider using standard section headings and bullet points for better readability."

  const SkillsHigh := "Your skills align well with industry standards and job requirements."
  const SkillsMid := "Your skills are good but could be expanded to better match job requirements."
  const SkillsLow := "Consider adding more relevant skills to your resume to better match job requirements."

  /** _generate_ats_feedback. */
  function AtsFeedback(score: int): (feedback: string)
    ensures feedback == AtsHigh <==> score >= 80
    ensures feedback == AtsMid <==> 60 <= score < 80
    ensures feedback == AtsLow <==> score < 60
  {
    if score >= 80 then AtsHigh else if score >= 60 then AtsMid else AtsLow
  }

  /** _generate_content_feedback. */
  function ContentFeedback(score: int): (feedback: string)
    ensures feedback == ContentHigh <==> score >= 80
    ensures feedback == ContentMid <==> 60 <= score < 80
    ensures feedback == ContentLow <==> score < 60
  {
    if score >= 80 then ContentHigh else if score >= 60 then ContentMid else ContentLow
  }

  /** _generate_format_feedback. */
  function FormatFeedback(score: int): (feedback: string)
    ensures feedback == FormatHigh <==> score >= 80
    ensures feedback == FormatMid <==> 60 <= score < 80
    ensures feedback == FormatLow <==> score < 60
  {
    if score >= 80 then FormatHigh else if score >= 60 then FormatMid else FormatLow
  }

  /** _generate_skills_feedback; the skills score is a fraction when a job description is given. */
  function SkillsFeedback(score: real): (feedback: string)
    ensures feedback == SkillsHigh <==> score >= 80.0
    ensures feedback == SkillsMid <==> 60.0 <= score < 80.0
    ensures feedback == SkillsLow <==> score < 60.0
  {
    if score >= 80.0 then SkillsHigh else if score >= 60.0 then SkillsMid else SkillsLow
  }

  /** Without a job description the ATS feedback is never the "highly compatible" text. */
  lemma AtsWithoutJobDescription(r: Resume)
    ensures AtsFeedback(AtsScore(r, Wrappers.None)) != AtsHigh
  {
    var score := AtsScore(r, Wrappers.None);
    assert score <= 70;
  }

  // ---------------------------------------------------------------------------
  // Suggestions
  // ---------------------------------------------------------------------------

  /** The suggestions _generate_suggestions can make; `TipText` gives the text of each. */
  datatype Tip =
    | AddEmail | AddPhone | AddHeadings(missing: seq<string>)
    | UseActionVerbs | AddMetrics
    | UseBullets | ImproveStructure | TooLong | TooShort
    | AddSkills | AddSoftSkills
    | TailorToJob | KeepConsistent

  datatype Category = AtsCategory | ContentCategory | FormatCategory | SkillsCategory | GeneralCategory

  function CategoryOf(tip: Tip): Category
  {
    match tip
    case AddEmail | AddPhone | AddHeadings(_) => AtsCategory
    case UseActionVerbs | AddMetrics => ContentCategory
    case UseBullets | ImproveStructure | TooLong | TooShort => FormatCategory
    case AddSkills | AddSoftSkills => SkillsCategory
    case TailorToJob | KeepConsistent => GeneralCategory
  }

  const HeadingsPrefix := "Add standard section headings for: "

  // The fixed texts are written as their opening words and the rest, which lets the verifier
  // read their first characters.
  function TipText(tip: Tip): string
  {
    match tip
    case AddEmail => "Add your " + "email address to improve contact information."
    case AddPhone => "Add your " + "phone number to improve contact information."
    case AddHeadings(missing) => HeadingsPrefix + JoinWith(missing, ", ") + "."
    case UseActionVerbs => "Use " + "more action verbs like 'achieved', 'improved', 'developed', etc."
    case AddMetrics => "Add metrics " + "to your achievements (e.g., 'Increased sales by 20%' instead of 'Increased sales')."
    case UseBullets => "Use " + "bullet points to highlight your achievements and responsibilities."
    case ImproveStructure => "Improve " + "the structure of your resume with clear section breaks."
    case TooLong => "Your " + "resume is too long. Consider shortening it to 1-2 pages for better readability."
    case TooShort => "Your " + "resume may be too short. Consider adding more details about your experience and skills."
    case AddSkills => "Add more " + "relevant skills to your resume, especially technical and industry-specific ones."
    case AddSoftSkills => "Include " + "more soft skills like communication, teamwork, and problem-solving."
    case TailorToJob => "Tailor " + "your resume for each job application by matching keywords from the job description."
    case KeepConsistent => "Keep " + "your resume format consistent with the same font, bullet style, and heading format throughout."
  }

  /** The texts of a list of suggestions. */
  function Texts(tips: seq<Tip>): (texts: seq<string>)
    ensures |texts| == |tips|
    ensures forall i :: 0 <= i < |tips| ==> texts[i] == TipText(tips[i])
  {
    if tips == [] then [] else [TipText(tips[0])] + Texts(tips[1..])
  }

  /** The headings whose absence the suggestions point out. */
  const SuggestedHeadings: seq<string> := ["education", "experience", "skills", "projects"]

  /** The verbs counted for the action-verb suggestion. */
  const SuggestedVerbs: seq<string> := ["achieved", "improved", "developed", "created", "implemented", "managed", "led"]

  /** The terms that are not mentioned, in list order. */
  function Missing(terms: seq<string>, mentions: Mentions): (absent: seq<string>)
    ensures |absent| + |Matching(terms, mentions)| == |terms|
  {
    if terms == [] then []
    else
      var n := |terms| - 1;
      Missing(terms[..n], mentions) + (if mentions(terms[n]) then [] else [terms[n]])
  }

  /** The result holds exactly the terms that are not mentioned. */
  lemma {:induction false} MissingMembers(terms: seq<string>, mentions: Mentions, x: string)
    ensures x in Missing(terms, mentions) <==> x in terms && !mentions(x)
    decreases |terms|
  {
    if terms != [] {
      var n := |terms| - 1;
      MissingMembers(terms[..n], mentions, x);
      assert terms == terms[..n] + [terms[n]];
    }
  }

  // What each block of _generate_suggestions looks at.

  datatype AtsFacts = AtsFacts(hasEmail: bool, hasPhone: bool, missingHeadings: seq<string>)
  datatype ContentFacts = ContentFacts(actionVerbs: nat, quantifiers: nat)
  datatype FormatFacts = FormatFacts(bullets: nat, paragraphs: nat, words: nat)
  datatype SkillsFacts = SkillsFacts(skills: nat, softSkills: nat)
  datatype Findings = Findings(ats: AtsFacts, content: ContentFacts, format: FormatFacts, skills: SkillsFacts)

  function AtsFactsOf(r: Resume): AtsFacts
  {
    AtsFacts(r.hasEmail, r.hasPhone, Missing(SuggestedHeadings, r.mentions))
  }

  function ContentFactsOf(r: Resume): ContentFacts
  {
    ContentFacts(|Matching(SuggestedVerbs, r.mentions)|, r.quantifiers)
  }

  function FormatFactsOf(r: Resume): FormatFacts
  {
    FormatFacts(r.bullets, ParagraphCount(r.text), WordCount(r.text))
  }

  function SkillsFactsOf(r: Resume): SkillsFacts
  {
    SkillsFacts(SkillsTotal(r.mentions), |Matching(Soft, r.mentions)|)
  }

  function FindingsOf(r: Resume): Findings
  {
    Findings(AtsFactsOf(r), ContentFactsOf(r), FormatFactsOf(r), SkillsFactsOf(r))
  }

  function AtsTips(f: AtsFacts, atsScore: int): seq<Tip>
  {
    if atsScore < 80 then
      (if !f.hasEmail then [AddEmail] else [])
      + (if !f.hasPhone then [AddPhone] else [])
      + (if f.missingHeadings != [] then [AddHeadings(f.missingHeadings)] else [])
    else []
  }

  function ContentTips(f: ContentFacts, contentScore: int): seq<Tip>
  {
    if contentScore < 80 then
      (if f.actionVerbs < 5 then [UseActionVerbs] else [])
      + (if f.quantifiers < 3 then [AddMetrics] else [])
    else []
  }

  function LengthTips(words: nat): seq<Tip>
  {
    if words > 700 then [TooLong] else if words < 300 then [TooShort] else []
  }

  function FormatTips(f: FormatFacts, formatScore: int): seq<Tip>
  {
    if formatScore < 80 then
      (if f.bullets < 5 then [UseBullets] else [])
      + (if f.paragraphs < 4 then [ImproveStructure] else [])
      + LengthTips(f.words)
    else []
  }

  function SkillsTips(f: SkillsFacts, skillsScore: real): seq<Tip>
  {
    if skillsScore < 80.0 then
      (if f.skills < 10 then [AddSkills] else [])
      + (if f.softSkills < 3 then [AddSoftSkills] else [])
    else []
  }

  /** The category-specific suggestions in the order the categories are examined. */
  function SpecificTips(f: Findings, atsScore: int, contentScore: int, formatScore: int, skillsScore: real): seq<Tip>
  {
    AtsTips(f.ats, atsScore) + ContentTips(f.content, contentScore) + FormatTips(f.format, formatScore)
      + SkillsTips(f.skills, skillsScore)
  }

  /** `items[:n]`. */
  function Take(items: seq<Tip>, n: nat): seq<Tip>
  {
    if |items| <= n then items else items[..n]
  }

  /** A cut list holds only elements of the list. */
  lemma TakeMembers(items: seq<Tip>, n: nat, t: Tip)
    requires t in Take(items, n)
    ensures t in items
  {
    if |items| > n {
      assert forall x :: x in items[..n] ==> x in items;
    }
  }

  /** Cutting at n keeps a first part no longer than n. */
  lemma TakeKeepsPrefix(first: seq<Tip>, rest: seq<Tip>, n: nat)
    requires |first| <= n
    ensures |first| <= |Take(first + rest, n)| && Take(first + rest, n)[..|first|] == first
  {
    if |first + rest| > n {
      assert (first + rest)[..n][..|first|] == first;
    }
  }

  /** Where the two general tips end up when a list without them is followed by them and cut to seven. */
  lemma TakeGeneral(specific: seq<Tip>)
    requires TailorToJob !in specific && KeepConsistent !in specific
    ensures var s := Take(specific + [TailorToJob, KeepConsistent], 7);
      (TailorToJob in s <==> |specific| <= 6) && (KeepConsistent in s <==> |specific| <= 5)
  {
    var s := Take(specific + [TailorToJob, KeepConsistent], 7);
    if |specific| <= 5 {
      assert s == specific + [TailorToJob, KeepConsistent];
    } else if |specific| == 6 {
      assert s == specific + [TailorToJob];
    } else {
      assert s == specific[..7];
      assert forall t :: t in s ==> t in specific;
    }
  }

  /** The suggestion list: the specific suggestions, then the two general ones, cut to seven. */
  function Suggestions(f: Findings, atsScore: int, contentScore: int, formatScore: int, skillsScore: real): seq<Tip>
  {
    Take(SpecificTips(f, atsScore, contentScore, formatScore, skillsScore) + [TailorToJob, KeepConsistent], 7)
  }

  // The blocks of _generate_suggestions append suggestions; the model appends the suggestions
  // themselves and takes their texts once, at the end.

  /** The ATS block of _generate_suggestions. */
  method AddAtsSuggestions(r: Resume, atsScore: int, tips: seq<Tip>) returns (tips': seq<Tip>)
    ensures tips' == tips + AtsTips(AtsFactsOf(r), atsScore)
  {
    tips' := tips;
    if atsScore < 80 {
      if !r.hasEmail {
        tips' := tips' + [AddEmail];
      }
      if !r.hasPhone {
        tips' := tips' + [AddPhone];
      }
      var missingSections := Missing(SuggestedHeadings, r.mentions);
      if missingSections != [] {
        tips' := tips' + [AddHeadings(missingSections)];
      }
    }
  }

  /** The content block of _generate_suggestions. */
  method AddContentSuggestions(r: Resume, contentScore: int, tips: seq<Tip>) returns (tips': seq<Tip>)
    ensures tips' == tips + ContentTips(ContentFactsOf(r), contentScore)
  {
    tips' := tips;
    if contentScore < 80 {
      var actionVerbCount := CountMentioned(SuggestedVerbs, r.mentions);
      if actionVerbCount < 5 {
        tips' := tips' + [UseActionVerbs];
      }
      if r.quantifiers < 3 {
        tips' := tips' + [AddMetrics];
      }
    }
  }

  /** The format block of _generate_suggestions. */
  method AddFormatSuggestions(r: Resume, formatScore: int, tips: seq<Tip>) returns (tips': seq<Tip>)
    ensures tips' == tips + FormatTips(FormatFactsOf(r), formatScore)
  {
    tips' := tips;
    if formatScore < 80 {
      if r.bullets < 5 {
        tips' := tips' + [UseBullets];
      }
      var paragraphs := ParagraphCount(r.text);
      if paragraphs < 4 {
        tips' := tips' + [ImproveStructure];
      }
      var wordCount := WordCount(r.text);
      if wordCount > 700 {
        tips' := tips' + [TooLong];
      } else if wordCount < 300 {
        tips' := tips' + [TooShort];
      }
    }
  }

  /** The skills block of _generate_suggestions. */
  method AddSkillsSuggestions(r: Resume, skillsScore: real, tips: seq<Tip>) returns (tips': seq<Tip>)
    ensures tips' == tips + SkillsTips(SkillsFactsOf(r), skillsScore)
  {
    tips' := tips;
    if skillsScore < 80.0 {
      var skills := ExtractSkills(r.mentions);
      var totalSkills := CountSkills(skills, r.mentions);
      if totalSkills < 10 {
        tips' := tips' + [AddSkills];
      }
      if |skills.soft| < 3 {
        tips' := tips' + [AddSoftSkills];
      }
    }
  }

  /** _generate_suggestions: the texts of the suggestion list. */
  method GenerateSuggestions(r: Resume, atsScore: int, contentScore: int, formatScore: int, skillsScore: real)
    returns (suggestions: seq<string>)
    ensures suggestions == Texts(Suggestions(FindingsOf(r), atsScore, contentScore, formatScore, skillsScore))
  {
    ghost var f := FindingsOf(r);
    assert f.ats == AtsFactsOf(r) && f.content == ContentFactsOf(r);
    assert f.format == FormatFactsOf(r) && f.skills == SkillsFactsOf(r);
    var tips: seq<Tip> := [];
    tips := AddAtsSuggestions(r, atsScore, tips);
    tips := AddContentSuggestions(r, contentScore, tips);
    tips := AddFormatSuggestions(r, formatScore, tips);
    tips := AddSkillsSuggestions(r, skillsScore, tips);
    assert tips == SpecificTips(f, atsScore, contentScore, formatScore, skillsScore);
    tips := tips + [TailorToJob];
    tips := tips + [KeepConsistent];
    if |tips| > 7 {
      tips := tips[..7];
    }
    assert tips == Suggestions(f, atsScore, contentScore, formatScore, skillsScore);
    suggestions := Texts(tips);
  }

  /** _generate_suggestions as written: below an ATS score of 80 the phone search compiles its
      pattern, and a pattern Python cannot parse raises instead of giving suggestions. */
  function SuggestionsAsWritten(f: Findings, atsScore: int, contentScore: int, formatScore: int, skillsScore: real)
    : (outcome: Result<seq<Tip>, PatternError>)
    ensures outcome.Failure? <==> atsScore < 80 && SyntaxError(PhonePatternAsWritten).Some?
    ensures outcome.Success? ==> outcome.value == Suggestions(f, atsScore, contentScore, formatScore, skillsScore)
  {
    if atsScore < 80 && SyntaxError(PhonePatternAsWritten).Some? then
      Failure(SyntaxError(PhonePatternAsWritten).value)
    else
      Success(Suggestions(f, atsScore, contentScore, formatScore, skillsScore))
  }

  /** As written, _generate_suggestions raises "nothing to repeat" at position 25 exactly when the
      ATS score is below 80, and otherwise gives the suggestion list. */
  lemma SuggestionsAsWrittenRaise(f: Findings, atsScore: int, contentScore: int, formatScore: int, skillsScore: real)
    ensures atsScore < 80 ==>
      SuggestionsAsWritten(f, atsScore, contentScore, formatScore, skillsScore) == Failure(NothingToRepeat(25))
    ensures atsScore >= 80 ==>
      SuggestionsAsWritten(f, atsScore, contentScore, formatScore, skillsScore)
        == Success(Suggestions(f, atsScore, contentScore, formatScore, skillsScore))
  {
    PhonePatternRejected();
  }

  // ---------------------------------------------------------------------------
  // Properties of the suggestion list
  // ---------------------------------------------------------------------------

  // What each block can add, and under which score.

  lemma AtsTipsOnly(f: AtsFacts, atsScore: int)
    ensures |AtsTips(f, atsScore)| <= 3
    ensures forall t :: t in AtsTips(f, atsScore) ==> CategoryOf(t) == AtsCategory && atsScore < 80
  {
  }

  /** The ATS block adds each of its suggestions exactly when the ATS score is below 80 and the fact is missing. */
  lemma AtsTipsExact(f: AtsFacts, atsScore: int)
    ensures AddEmail in AtsTips(f, atsScore) <==> atsScore < 80 && !f.hasEmail
    ensures AddPhone in AtsTips(f, atsScore) <==> atsScore < 80 && !f.hasPhone
    ensures forall m :: AddHeadings(m) in AtsTips(f, atsScore) <==>
      atsScore < 80 && f.missingHeadings != [] && m == f.missingHeadings
  {
  }

  lemma ContentTipsOnly(f: ContentFacts, contentScore: int)
    ensures |ContentTips(f, contentScore)| <= 2
    ensures forall t :: t in ContentTips(f, contentScore) ==> CategoryOf(t) == ContentCategory && contentScore < 80
  {
  }

  lemma FormatTipsOnly(f: FormatFacts, formatScore: int)
    ensures |FormatTips(f, formatScore)| <= 3
    ensures forall t :: t in FormatTips(f, formatScore) ==>
      CategoryOf(t) == FormatCategory && formatScore < 80 &&
      (t == TooLong ==> f.words > 700) && (t == TooShort ==> f.words < 300)
  {
  }

  lemma SkillsTipsOnly(f: SkillsFacts, skillsScore: real)
    ensures |SkillsTips(f, skillsScore)| <= 2
    ensures forall t :: t in SkillsTips(f, skillsScore) ==> CategoryOf(t) == SkillsCategory && skillsScore < 80.0
  {
  }

  /** Every suggestion comes from one of the four blocks or is one of the two general ones. */
  lemma SuggestionsMembers(f: Findings, atsScore: int, contentScore: int, formatScore: int, skillsScore: real, tip: Tip)
    requires tip in Suggestions(f, atsScore, contentScore, formatScore, skillsScore)
    ensures tip in AtsTips(f.ats, atsScore) || tip in ContentTips(f.content, contentScore) ||
      tip in FormatTips(f.format, formatScore) || tip in SkillsTips(f.skills, skillsScore) ||
      tip == TailorToJob || tip == KeepConsistent
  {
    TakeMembers(SpecificTips(f, atsScore, contentScore, formatScore, skillsScore) + [TailorToJob, KeepConsistent], 7, tip);
  }

  /** A category's suggestions appear only when that category's score is below 80. */
  lemma SuggestionsGated(f: Findings, atsScore: int, contentScore: int, formatScore: int, skillsScore: real)
    ensures forall tip :: tip in Suggestions(f, atsScore, contentScore, formatScore, skillsScore) ==>
      (CategoryOf(tip) == AtsCategory ==> atsScore < 80) &&
      (CategoryOf(tip) == ContentCategory ==> contentScore < 80) &&
      (CategoryOf(tip) == FormatCategory ==> formatScore < 80) &&
      (CategoryOf(tip) == SkillsCategory ==> skillsScore < 80.0)
  {
    AtsTipsOnly(f.ats, atsScore);
    ContentTipsOnly(f.content, contentScore);
    FormatTipsOnly(f.format, formatScore);
    SkillsTipsOnly(f.skills, skillsScore);
    forall tip | tip in Suggestions(f, atsScore, contentScore, formatScore, skillsScore)
      ensures (CategoryOf(tip) == AtsCategory ==> atsScore < 80) &&
        (CategoryOf(tip) == ContentCategory ==> contentScore < 80) &&
        (CategoryOf(tip) == FormatCategory ==> formatScore < 80) &&
        (CategoryOf(tip) == SkillsCategory ==> skillsScore < 80.0)
    {
      SuggestionsMembers(f, atsScore, contentScore, formatScore, skillsScore, tip);
    }
  }

  /** The "too long" and "too short" suggestions never appear together. */
  lemma LengthTipsExclusive(f: Findings, atsScore: int, contentScore: int, formatScore: int, skillsScore: real)
    ensures var s := Suggestions(f, atsScore, contentScore, formatScore, skillsScore);
      TooLong in s ==> TooShort !in s
  {
    var s := Suggestions(f, atsScore, contentScore, formatScore, skillsScore);
    AtsTipsOnly(f.ats, atsScore);
    ContentTipsOnly(f.content, contentScore);
    FormatTipsOnly(f.format, formatScore);
    SkillsTipsOnly(f.skills, skillsScore);
    if TooLong in s && TooShort in s {
      SuggestionsMembers(f, atsScore, contentScore, formatScore, skillsScore, TooLong);
      SuggestionsMembers(f, atsScore, contentScore, formatScore, skillsScore, TooShort);
    }
  }

  /** At most seven suggestions: the specific ones (at most ten) and the two general ones, cut to seven. */
  lemma SuggestionsLength(f: Findings, atsScore: int, contentScore: int, formatScore: int, skillsScore: real)
    ensures var specific := SpecificTips(f, atsScore, contentScore, formatScore, skillsScore);
      |specific| <= 10 &&
      |Suggestions(f, atsScore, contentScore, formatScore, skillsScore)| == Min(|specific| + 2, 7)
  {
    AtsTipsOnly(f.ats, atsScore);
    ContentTipsOnly(f.content, contentScore);
    FormatTipsOnly(f.format, formatScore);
    SkillsTipsOnly(f.skills, skillsScore);
  }

  /** The general tips survive the cut exactly when there are at most six (the first) or five (both)
      specific suggestions. */
  lemma GeneralTipsSurvive(f: Findings, atsScore: int, contentScore: int, formatScore: int, skillsScore: real)
    ensures var specific := SpecificTips(f, atsScore, contentScore, formatScore, skillsScore);
      var s := Suggestions(f, atsScore, contentScore, formatScore, skillsScore);
      (TailorToJob in s <==> |specific| <= 6) && (KeepConsistent in s <==> |specific| <= 5)
  {
    AtsTipsOnly(f.ats, atsScore);
    ContentTipsOnly(f.content, contentScore);
    FormatTipsOnly(f.format, formatScore);
    SkillsTipsOnly(f.skills, skillsScore);
    TakeGeneral(SpecificTips(f, atsScore, contentScore, formatScore, skillsScore));
  }

  /** The ATS suggestions come first, so the cut never drops them: an ATS suggestion is in the list
      exactly when the ATS block added it. */
  lemma AtsTipsFirst(f: Findings, atsScore: int, contentScore: int, formatScore: int, skillsScore: real)
    ensures forall t :: CategoryOf(t) == AtsCategory ==>
      (t in Suggestions(f, atsScore, contentScore, formatScore, skillsScore) <==> t in AtsTips(f.ats, atsScore))
  {
    var s := Suggestions(f, atsScore, contentScore, formatScore, skillsScore);
    var ats := AtsTips(f.ats, atsScore);
    AtsTipsOnly(f.ats, atsScore);
    ContentTipsOnly(f.content, contentScore);
    FormatTipsOnly(f.format, formatScore);
    SkillsTipsOnly(f.skills, skillsScore);
    var rest := ContentTips(f.content, contentScore) + FormatTips(f.format, formatScore) + SkillsTips(f.skills, skillsScore)
      + [TailorToJob, KeepConsistent];
    assert SpecificTips(f, atsScore, contentScore, formatScore, skillsScore) + [TailorToJob, KeepConsistent]
      == ats + rest;
    TakeKeepsPrefix(ats, rest, 7);
    forall t | t in ats
      ensures t in s
    {
      assert t in s[..|ats|];
    }
    forall t | t in s && CategoryOf(t) == AtsCategory
      ensures t in ats
    {
      SuggestionsMembers(f, atsScore, contentScore, formatScore, skillsScore, t);
    }
  }

  /** Each ATS suggestion appears exactly when the ATS score is below 80 and its fact is missing, and
      the headings suggestion names the missing headings. */
  lemma AtsTipsSurvive(f: Findings, atsScore: int, contentScore: int, formatScore: int, skillsScore: real)
    ensures var s := Suggestions(f, atsScore, contentScore, formatScore, skillsScore);
      var missing := f.ats.missingHeadings;
      (AddEmail in s <==> atsScore < 80 && !f.ats.hasEmail) &&
      (AddPhone in s <==> atsScore < 80 && !f.ats.hasPhone) &&
      ((exists m :: AddHeadings(m) in s) <==> atsScore < 80 && missing != []) &&
      (forall m :: AddHeadings(m) in s ==> m == missing)
  {
    AtsTipsFirst(f, atsScore, contentScore, formatScore, skillsScore);
    AtsTipsExact(f.ats, atsScore);
    var s := Suggestions(f, atsScore, contentScore, formatScore, skillsScore);
    var missing := f.ats.missingHeadings;
    if atsScore < 80 && missing != [] {
      assert AddHeadings(missing) in s;
    }
  }

  // ---------------------------------------------------------------------------
  // The texts tell the suggestions apart
  // ---------------------------------------------------------------------------

  /** A text that differs from a prefix at one position does not start with it. */
  lemma NotPrefixAt(prefix: string, x: string, i: nat)
    requires i < |prefix| && i < |x| && prefix[i] != x[i]
    ensures !(prefix <= x)
  {
  }

  /** The missing-headings text starts with its opening words. */
  lemma HeadingsText(missing: seq<string>)
    ensures HeadingsPrefix <= TipText(AddHeadings(missing))
  {
    assert TipText(AddHeadings(missing)) == HeadingsPrefix + (JoinWith(missing, ", ") + ".");
  }

  /** The length of each fixed text. */
  function FixedLength(tip: Tip): nat
  {
    match tip
    case AddEmail => 54
    case AddPhone => 53
    case AddHeadings(_) => 0
    case UseActionVerbs => 68
    case AddMetrics => 95
    case UseBullets => 70
    case ImproveStructure => 63
    case TooLong => 84
    case TooShort => 92
    case AddSkills => 89
    case AddSoftSkills => 75
    case TailorToJob => 90
    case KeepConsistent => 99
  }

  // The fixed texts of each category have the lengths listed and do not start with the
  // missing-headings opening.

  lemma AtsTexts()
    ensures |TipText(AddEmail)| == FixedLength(AddEmail) && !(HeadingsPrefix <= TipText(AddEmail))
    ensures |TipText(AddPhone)| == FixedLength(AddPhone) && !(HeadingsPrefix <= TipText(AddPhone))
  {
    NotPrefixAt(HeadingsPrefix, TipText(AddEmail), 4);
    NotPrefixAt(HeadingsPrefix, TipText(AddPhone), 4);
  }

  lemma ContentTexts()
    ensures |TipText(UseActionVerbs)| == FixedLength(UseActionVerbs) && !(HeadingsPrefix <= TipText(UseActionVerbs))
    ensures |TipText(AddMetrics)| == FixedLength(AddMetrics) && !(HeadingsPrefix <= TipText(AddMetrics))
  {
    NotPrefixAt(HeadingsPrefix, TipText(UseActionVerbs), 0);
    NotPrefixAt(HeadingsPrefix, TipText(AddMetrics), 4);
  }

  lemma FormatTexts()
    ensures |TipText(UseBullets)| == FixedLength(UseBullets) && !(HeadingsPrefix <= TipText(UseBullets))
    ensures |TipText(ImproveStructure)| == FixedLength(ImproveStructure) && !(HeadingsPrefix <= TipText(ImproveStructure))
    ensures |TipText(TooLong)| == FixedLength(TooLong) && !(HeadingsPrefix <= TipText(TooLong))
    ensures |TipText(TooShort)| == FixedLength(TooShort) && !(HeadingsPrefix <= TipText(TooShort))
  {
    NotPrefixAt(HeadingsPrefix, TipText(UseBullets), 0);
    NotPrefixAt(HeadingsPrefix, TipText(ImproveStructure), 0);
    NotPrefixAt(HeadingsPrefix, TipText(TooLong), 0);
    NotPrefixAt(HeadingsPrefix, TipText(TooShort), 0);
  }

  lemma SkillsTexts()
    ensures |TipText(AddSkills)| == FixedLength(AddSkills) && !(HeadingsPrefix <= TipText(AddSkills))
    ensures |TipText(AddSoftSkills)| == FixedLength(AddSoftSkills) && !(HeadingsPrefix <= TipText(AddSoftSkills))
  {
    NotPrefixAt(HeadingsPrefix, TipText(AddSkills), 4);
    NotPrefixAt(HeadingsPrefix, TipText(AddSoftSkills), 0);
  }

  lemma GeneralTexts()
    ensures |TipText(TailorToJob)| == FixedLength(TailorToJob) && !(HeadingsPrefix <= TipText(TailorToJob))
    ensures |TipText(KeepConsistent)| == FixedLength(KeepConsistent) && !(HeadingsPrefix <= TipText(KeepConsistent))
  {
    NotPrefixAt(HeadingsPrefix, TipText(TailorToJob), 0);
    NotPrefixAt(HeadingsPrefix, TipText(KeepConsistent), 0);
  }

  /** Different suggestions have different texts (two missing-headings suggestions aside, and a
      list holds at most one of those), so the properties above hold of the returned texts. */
  lemma TipTextInjective(a: Tip, b: Tip)
    requires !(a.AddHeadings? && b.AddHeadings?)
    requires TipText(a) == TipText(b)
    ensures a == b
  {
    AtsTexts();
    ContentTexts();
    FormatTexts();
    SkillsTexts();
    GeneralTexts();
    if a.AddHeadings? {
      HeadingsText(a.missing);
    } else if b.AddHeadings? {
      HeadingsText(b.missing);
    }
  }
}
