/**
  The rule-based resume scorer (ResumeAnalyzer in resume_analyzer.py): skill
  extraction and the four category scores.

  Regular-expression searches are not modelled character by character. What a
  search reports about a resume is part of the input: whether an email address
  and a phone number occur, which terms occur as whole words in the lower-cased
  text (`Mentions`), and how many matches the quantifier, education, experience
  and bullet patterns find. Word and paragraph counts are Python's own `split`
  and are modelled on the text.

  `hasPhone` is what a search with the intended phone pattern finds. The pattern as written does
  not compile (PhonePatterns); `AtsScoreAsWritten` gives the outcome of the code as written.
 */
module ResumeScoring {
  import opened Wrappers
  import opened PatternSyntax
  import opened PhonePatterns

  /** Whether `re.search(r'\b' + term + r'\b', text.lower())` finds the term. */
  type Mentions = string -> bool

  /** A resume text and what the analyzer's regular expressions find in it. */
  datatype Resume = Resume(
    text: string,
    hasEmail: bool,
    hasPhone: bool,
    mentions: Mentions,
    quantifiers: nat,
    educationMatches: nat,
    experienceMatches: nat,
    bullets: nat)

  // ---------------------------------------------------------------------------
  // Keyword lists
  // ---------------------------------------------------------------------------

  const Technical: seq<string> := [
    "python", "javascript", "react", "node.js", "typescript", "html", "css",
    "java", "c++", "c#", "sql", "nosql", "mongodb", "postgresql", "mysql",
    "aws", "azure", "gcp", "docker", "kubernetes", "ci/cd", "git", "github",
    "machine learning", "deep learning", "ai", "data science", "data analysis",
    "tensorflow", "pytorch", "keras", "scikit-learn", "pandas", "numpy"]

  const Soft: seq<string> := [
    "communication", "teamwork", "leadership", "problem solving", "critical thinking",
    "time management", "adaptability", "creativity", "collaboration", "presentation",
    "negotiation", "conflict resolution", "decision making", "emotional intelligence"]

  const Business: seq<string> := [
    "project management", "agile", "scrum", "kanban", "product management",
    "business analysis", "requirements gathering", "stakeholder management",
    "strategic planning", "market research", "competitive analysis", "budgeting",
    "forecasting", "risk management", "quality assurance", "user experience"]

  /** The skills found in a text, one list per category of the keyword dictionary. */
  datatype Skills = Skills(technical: seq<string>, soft: seq<string>, business: seq<string>)

  const JobTitles: seq<string> := [
    "software engineer", "data scientist", "web developer", "frontend developer",
    "backend developer", "full stack developer", "devops engineer", "cloud engineer",
    "machine learning engineer", "ai researcher", "product manager", "project manager",
    "ux designer", "ui designer", "data analyst", "business analyst", "qa engineer",
    "systems administrator", "network engineer", "security engineer", "database administrator"]

  const SectionHeadings: seq<string> := ["education", "experience", "skills", "projects", "summary", "objective"]

  const ActionVerbs: seq<string> := [
    "achieved", "improved", "developed", "created", "implemented", "managed",
    "led", "designed", "built", "launched", "increased", "decreased", "reduced"]

  // ---------------------------------------------------------------------------
  // Keyword matching
  // ---------------------------------------------------------------------------

  /** The keywords that are mentioned, in keyword-list order. */
  function Matching(keywords: seq<string>, mentions: Mentions): (found: seq<string>)
    ensures |found| <= |keywords|
  {
    if keywords == [] then []
    else
      var n := |keywords| - 1;
      Matching(keywords[..n], mentions) + (if mentions(keywords[n]) then [keywords[n]] else [])
  }

  /** The result holds exactly the mentioned keywords. */
  lemma {:induction false} MatchingMembers(keywords: seq<string>, mentions: Mentions, x: string)
    ensures x in Matching(keywords, mentions) <==> x in keywords && mentions(x)
    decreases |keywords|
  {
    if keywords != [] {
      var n := |keywords| - 1;
      MatchingMembers(keywords[..n], mentions, x);
      assert keywords == keywords[..n] + [keywords[n]];
    }
  }

  /** The result is a subsequence of the keyword list: it picks keywords at increasing positions. */
  lemma {:induction false} MatchingInOrder(keywords: seq<string>, mentions: Mentions) returns (positions: seq<nat>)
    ensures |positions| == |Matching(keywords, mentions)|
    ensures forall k :: 0 <= k < |positions| ==>
      positions[k] < |keywords| && keywords[positions[k]] == Matching(keywords, mentions)[k]
    ensures forall i, j :: 0 <= i < j < |positions| ==> positions[i] < positions[j]
    decreases |keywords|
  {
    if keywords == [] {
      positions := [];
    } else {
      var n := |keywords| - 1;
      var before := MatchingInOrder(keywords[..n], mentions);
      var prev := Matching(keywords[..n], mentions);
      forall k | 0 <= k < |before|
        ensures before[k] < n && keywords[before[k]] == prev[k]
      {
        assert keywords[..n][before[k]] == keywords[before[k]];
      }
      if mentions(keywords[n]) {
        positions := before + [n];
        var found := prev + [keywords[n]];
        assert Matching(keywords, mentions) == found;
        forall k | 0 <= k < |positions|
          ensures positions[k] < |keywords| && keywords[positions[k]] == found[k]
        {
          if k < |before| {
            assert positions[k] == before[k] && found[k] == prev[k];
          }
        }
        forall i, j | 0 <= i < j < |positions|
          ensures positions[i] < positions[j]
        {
          if j < |before| {
            assert positions[i] == before[i] && positions[j] == before[j];
          }
        }
      } else {
        assert Matching(keywords, mentions) == prev;
        positions := before;
      }
    }
  }

  /** The number of mentioned keywords of each category, summed. */
  function SkillsTotal(mentions: Mentions): nat
  {
    |Matching(Technical, mentions)| + |Matching(Soft, mentions)| + |Matching(Business, mentions)|
  }

  /** The inner loop of extract_skills: appends the mentioned keywords to a category's list. */
  method FindSkills(keywords: seq<string>, mentions: Mentions, list: seq<string>) returns (list': seq<string>)
    ensures list' == list + Matching(keywords, mentions)
  {
    list' := list;
    for j := 0 to |keywords|
      invariant list' == list + Matching(keywords[..j], mentions)
    {
      var skill := keywords[j];
      if mentions(skill) {
        list' := list' + [skill];
      }
      assert keywords[..j + 1][..j] == keywords[..j];
    }
    assert keywords[..|keywords|] == keywords;
  }

  /** extract_skills: for every category, the category's keywords found in the text, in keyword order. */
  method ExtractSkills(mentions: Mentions) returns (found: Skills)
    ensures found.technical == Matching(Technical, mentions)
    ensures found.soft == Matching(Soft, mentions)
    ensures found.business == Matching(Business, mentions)
  {
    found := Skills([], [], []);
    var technical := FindSkills(Technical, mentions, found.technical);
    found := found.(technical := technical);
    var soft := FindSkills(Soft, mentions, found.soft);
    found := found.(soft := soft);
    var business := FindSkills(Business, mentions, found.business);
    found := found.(business := business);
  }

  /** Every keyword of the dictionary, category after category. */
  const Keywords: seq<string> := Technical + Soft + Business

  /** Matching a concatenation matches each part. */
  lemma {:induction false} MatchingAppend(a: seq<string>, b: seq<string>, mentions: Mentions)
    ensures Matching(a + b, mentions) == Matching(a, mentions) + Matching(b, mentions)
    decreases |b|
  {
    if b == [] {
      assert a + b == a;
    } else {
      var n := |b| - 1;
      assert (a + b)[..|a + b| - 1] == a + b[..n];
      assert (a + b)[|a + b| - 1] == b[n];
      MatchingAppend(a, b[..n], mentions);
    }
  }

  /** `sum(len(skills_list) for skills_list in skills.values())` over extracted skills: the number
      of dictionary keywords the text mentions. */
  method CountSkills(found: Skills, ghost mentions: Mentions) returns (total: nat)
    requires found.technical == Matching(Technical, mentions)
    requires found.soft == Matching(Soft, mentions)
    requires found.business == Matching(Business, mentions)
    ensures total == |Matching(Keywords, mentions)|
    ensures total == SkillsTotal(mentions)
  {
    total := 0;
    total := total + |found.technical|;
    total := total + |found.soft|;
    total := total + |found.business|;
    MatchingAppend(Technical, Soft, mentions);
    MatchingAppend(Technical + Soft, Business, mentions);
  }

  // ---------------------------------------------------------------------------
  // Python's str.split on whitespace and on a blank line
  // ---------------------------------------------------------------------------

  /** The characters Python's `str.isspace` accepts. */
  predicate IsSpace(c: char)
  {
    c == ' ' || ('\t' <= c <= '\r') || ('\U{1c}' <= c <= '\U{1f}') || c == '\U{85}' || c == '\U{a0}' ||
    c == '\U{1680}' || ('\U{2000}' <= c <= '\U{200a}') || c == '\U{2028}' || c == '\U{2029}' ||
    c == '\U{202f}' || c == '\U{205f}' || c == '\U{3000}'
  }

  /** Position i starts a word: a non-space at the start of the text or after a space. */
  predicate WordStart(s: string, i: nat)
    requires i < |s|
  {
    !IsSpace(s[i]) && (i == 0 || IsSpace(s[i - 1]))
  }

  /** `len(text.split())`: the number of maximal runs of non-space characters. */
  function WordCount(s: string): (n: nat)
    ensures n <= |s|
  {
    if s == [] then 0
    else WordCount(s[..|s| - 1]) + (if WordStart(s, |s| - 1) then 1 else 0)
  }

  /** A space between two texts separates their words. */
  lemma {:induction false} WordCountJoin(a: string, b: string)
    ensures WordCount(a + " " + b) == WordCount(a) + WordCount(b)
    decreases |b|
  {
    var s := a + " " + b;
    if b == [] {
      assert s[..|s| - 1] == a;
    } else {
      var n := |b| - 1;
      assert s[..|s| - 1] == a + " " + b[..n];
      assert s[|s| - 1] == b[n];
      assert s[|s| - 2] == if n == 0 then ' ' else b[n - 1];
      WordCountJoin(a, b[..n]);
    }
  }

  /** The number of non-overlapping blank-line separators, read from the left. */
  function BlankLines(s: string): nat
  {
    if |s| < 2 then 0
    else if s[0] == '\n' && s[1] == '\n' then 1 + BlankLines(s[2..])
    else BlankLines(s[1..])
  }

  /** `len(text.split('\n\n'))`. */
  function ParagraphCount(s: string): (n: nat)
    ensures n >= 1
  {
    BlankLines(s) + 1
  }

  /** Separators do not overlap: three newlines in a row are one separator. */
  lemma ParagraphsDoNotOverlap(a: string, b: string)
    requires a == [] || a[|a| - 1] != '\n'
    ensures ParagraphCount(a + "\n\n\n" + b) == ParagraphCount(a) + ParagraphCount("\n" + b)
  {
    TripleNewline(a, b);
  }

  lemma {:induction false} TripleNewline(a: string, b: string)
    requires a == [] || a[|a| - 1] != '\n'
    ensures BlankLines(a + "\n\n\n" + b) == BlankLines(a) + 1 + BlankLines("\n" + b)
    decreases |a|
  {
    var s := a + "\n\n\n" + b;
    if a == [] {
      assert s[2..] == "\n" + b;
    } else if |a| == 1 {
      assert s[1..] == [] + "\n\n\n" + b;
      TripleNewline([], b);
    } else {
      assert s[1..] == a[1..] + "\n\n\n" + b;
      if a[0] == '\n' && a[1] == '\n' {
        assert s[2..] == a[2..] + "\n\n\n" + b;
        TripleNewline(a[2..], b);
        if |a| == 2 {
          assert false;
        }
      } else {
        TripleNewline(a[1..], b);
      }
    }
  }

  // ---------------------------------------------------------------------------
  // Scores
  // ---------------------------------------------------------------------------

  function Min(a: int, b: int): int
  {
    if a <= b then a else b
  }

  function SkillsTier(total: nat): int
  {
    if total > 15 then 20 else if total > 10 then 15 else if total > 5 then 10 else 5
  }

  /** Some term occurs in both texts. */
  predicate SharedTerm(terms: seq<string>, mentions: Mentions, job: Mentions)
  {
    exists k :: 0 <= k < |terms| && mentions(terms[k]) && job(terms[k])
  }

  /** The job-title loop of calculate_ats_score: stops at the first term both texts mention. */
  method MentionedByBoth(terms: seq<string>, mentions: Mentions, job: Mentions) returns (found: bool)
    ensures found <==> SharedTerm(terms, mentions, job)
  {
    found := false;
    var i := 0;
    while i < |terms|
      invariant 0 <= i <= |terms|
      invariant forall k :: 0 <= k < i ==> !(mentions(terms[k]) && job(terms[k]))
    {
      var title := terms[i];
      if mentions(title) && job(title) {
        found := true;
        break;
      }
      i := i + 1;
    }
  }

  /** The ATS points before the cap: contact details, headings, skills tier and one title bonus.
      A job description that is None or empty is `None`. */
  function AtsPoints(r: Resume, job: Option<Mentions>): int
  {
    (if r.hasEmail then 10 else 0) + (if r.hasPhone then 10 else 0)
    + 5 * |Matching(SectionHeadings, r.mentions)|
    + SkillsTier(SkillsTotal(r.mentions))
    + (if job.Some? && SharedTerm(JobTitles, r.mentions, job.value) then 15 else 0)
  }

  /** The ATS score is its uncapped sum: the sum lies in [5, 85], so the cap at 100 never applies. */
  function AtsScore(r: Resume, job: Option<Mentions>): (score: int)
    ensures score == AtsPoints(r, job)
    ensures 5 <= score <= 85
    ensures job.None? ==> score <= 70
  {
    assert |SectionHeadings| == 6;
    Min(AtsPoints(r, job), 100)
  }

  /** calculate_ats_score. */
  method CalculateAtsScore(r: Resume, job: Option<Mentions>) returns (atsScore: int)
    ensures atsScore == AtsScore(r, job)
  {
    atsScore := 0;
    if r.hasEmail {
      atsScore := atsScore + 10;
    }
    if r.hasPhone {
      atsScore := atsScore + 10;
    }
    var headings := CountMentioned(SectionHeadings, r.mentions);
    atsScore := atsScore + 5 * headings;

    var skills := ExtractSkills(r.mentions);
    var totalSkills := CountSkills(skills, r.mentions);
    if totalSkills > 15 {
      atsScore := atsScore + 20;
    } else if totalSkills > 10 {
      atsScore := atsScore + 15;
    } else if totalSkills > 5 {
      atsScore := atsScore + 10;
    } else {
      atsScore := atsScore + 5;
    }

    if job.Some? {
      var titleMatch := MentionedByBoth(JobTitles, r.mentions, job.value);
      if titleMatch {
        atsScore := atsScore + 15;
      }
    }

    atsScore := Min(atsScore, 100);
  }

  /** calculate_ats_score as written: the phone search compiles its pattern first, and a pattern
      Python cannot parse raises instead of giving a score. */
  function AtsScoreAsWritten(r: Resume, job: Option<Mentions>): (outcome: Result<int, PatternError>)
    ensures outcome.Failure? <==> SyntaxError(PhonePatternAsWritten).Some?
    ensures outcome.Success? ==> outcome.value == AtsScore(r, job)
  {
    match SyntaxError(PhonePatternAsWritten)
    case Some(e) => Failure(e)
    case None => Success(AtsScore(r, job))
  }

  /** As written, calculate_ats_score raises "nothing to repeat" at position 25 for every resume. */
  lemma AtsScoreAsWrittenRaises(r: Resume, job: Option<Mentions>)
    ensures AtsScoreAsWritten(r, job) == Failure(NothingToRepeat(25))
  {
    PhonePatternRejected();
  }

  function VerbTier(count: nat): int
  {
    if count > 10 then 25 else if count > 5 then 15 else 5
  }

  function QuantifierTier(count: nat): int
  {
    if count > 5 then 25 else if count > 2 then 15 else 5
  }

  function ExperienceTier(count: nat): int
  {
    if count > 3 then 25 else if count > 1 then 15 else 5
  }

  function ContentPoints(r: Resume): int
  {
    VerbTier(|Matching(ActionVerbs, r.mentions)|) + QuantifierTier(r.quantifiers)
    + (if r.educationMatches > 0 then 15 else 0) + ExperienceTier(r.experienceMatches)
  }

  /** The content score is its uncapped sum and lies in [15, 90]. */
  function ContentScore(r: Resume): (score: int)
    ensures score == ContentPoints(r)
    ensures 15 <= score <= 90
  {
    Min(ContentPoints(r), 100)
  }

  /** `sum(1 for term in terms if re.search(...))`: the number of mentioned terms. */
  method CountMentioned(terms: seq<string>, mentions: Mentions) returns (count: nat)
    ensures count == |Matching(terms, mentions)|
  {
    count := 0;
    for i := 0 to |terms|
      invariant count == |Matching(terms[..i], mentions)|
    {
      if mentions(terms[i]) {
        count := count + 1;
      }
      assert terms[..i + 1][..i] == terms[..i];
    }
    assert terms[..|terms|] == terms;
  }

  /** calculate_content_quality_score. */
  method CalculateContentQualityScore(r: Resume) returns (qualityScore: int)
    ensures qualityScore == ContentScore(r)
  {
    qualityScore := 0;
    var actionVerbCount := CountMentioned(ActionVerbs, r.mentions);
    if actionVerbCount > 10 {
      qualityScore := qualityScore + 25;
    } else if actionVerbCount > 5 {
      qualityScore := qualityScore + 15;
    } else {
      qualityScore := qualityScore + 5;
    }
    if r.quantifiers > 5 {
      qualityScore := qualityScore + 25;
    } else if r.quantifiers > 2 {
      qualityScore := qualityScore + 15;
    } else {
      qualityScore := qualityScore + 5;
    }
    if r.educationMatches > 0 {
      qualityScore := qualityScore + 15;
    }
    if r.experienceMatches > 3 {
      qualityScore := qualityScore + 25;
    } else if r.experienceMatches > 1 {
      qualityScore := qualityScore + 15;
    } else {
      qualityScore := qualityScore + 5;
    }
    qualityScore := Min(qualityScore, 100);
  }

  function SectionTier(count: nat): int
  {
    if count >= 4 then 30 else if count >= 2 then 15 else 5
  }

  function BulletTier(count: nat): int
  {
    if count > 10 then 30 else if count > 5 then 15 else 5
  }

  function ParagraphTier(count: nat): int
  {
    if count > 5 then 20 else if count > 3 then 10 else 5
  }

  function LengthTier(words: nat): (points: int)
    ensures points == 20 <==> 300 <= words <= 700
    ensures points == 10 <==> words < 300
    ensures points == 5 <==> words > 700
  {
    if 300 <= words <= 700 then 20 else if words < 300 then 10 else 5
  }

  function FormatPoints(r: Resume): int
  {
    SectionTier(|Matching(SectionHeadings, r.mentions)|) + BulletTier(r.bullets)
    + ParagraphTier(ParagraphCount(r.text)) + LengthTier(WordCount(r.text))
  }

  /** The format score lies in [20, 100], so the cap at 100 never applies. */
  function FormatScore(r: Resume): (score: int)
    ensures score == FormatPoints(r)
    ensures 20 <= score <= 100
  {
    Min(FormatPoints(r), 100)
  }

  /** calculate_format_score. */
  method CalculateFormatScore(r: Resume) returns (formatScore: int)
    ensures formatScore == FormatScore(r)
  {
    formatScore := 0;
    var sectionCount := CountMentioned(SectionHeadings, r.mentions);
    if sectionCount >= 4 {
      formatScore := formatScore + 30;
    } else if sectionCount >= 2 {
      formatScore := formatScore + 15;
    } else {
      formatScore := formatScore + 5;
    }
    if r.bullets > 10 {
      formatScore := formatScore + 30;
    } else if r.bullets > 5 {
      formatScore := formatScore + 15;
    } else {
      formatScore := formatScore + 5;
    }
    var paragraphs := ParagraphCount(r.text);
    if paragraphs > 5 {
      formatScore := formatScore + 20;
    } else if paragraphs > 3 {
      formatScore := formatScore + 10;
    } else {
      formatScore := formatScore + 5;
    }
    var wordCount := WordCount(r.text);
    if 300 <= wordCount <= 700 {
      formatScore := formatScore + 20;
    } else if wordCount < 300 {
      formatScore := formatScore + 10;
    } else {
      formatScore := formatScore + 5;
    }
    formatScore := Min(formatScore, 100);
  }

  // ---------------------------------------------------------------------------
  // Skills match
  // ---------------------------------------------------------------------------

  function SkillsCountScore(total: nat): int
  {
    if total > 15 then 90 else if total > 10 then 75 else if total > 5 then 60 else 40
  }

  /** The keywords mentioned by both texts. */
  function MatchingBoth(keywords: seq<string>, resume: Mentions, job: Mentions): (found: seq<string>)
    ensures |found| <= |Matching(keywords, job)|
  {
    if keywords == [] then []
    else
      var n := |keywords| - 1;
      MatchingBoth(keywords[..n], resume, job) + (if resume(keywords[n]) && job(keywords[n]) then [keywords[n]] else [])
  }

  function MatchedTotal(resume: Mentions, job: Mentions): nat
  {
    |MatchingBoth(Technical, resume, job)| + |MatchingBoth(Soft, resume, job)| + |MatchingBoth(Business, resume, job)|
  }

  function MinReal(a: real, b: real): real
  {
    if a <= b then a else b
  }

  /** The skills-match score. With a job description it is the share of the description's skills
      that the resume also has, in percent (exact arithmetic: floating-point rounding is not
      modelled); without one it is tiered on the resume's skill count. */
  function SkillsMatchScore(r: Resume, job: Option<Mentions>): real
  {
    if job.Some? then
      var totalJob := SkillsTotal(job.value);
      var percentage := if totalJob > 0 then (MatchedTotal(r.mentions, job.value) as real / totalJob as real) * 100.0 else 0.0;
      MinReal(percentage, 100.0)
    else SkillsCountScore(SkillsTotal(r.mentions)) as real
  }

  /** `len([x for x in xs if x in ys])`. */
  function CountIn(xs: seq<string>, ys: seq<string>): nat
  {
    if xs == [] then 0 else CountIn(xs[..|xs| - 1], ys) + (if xs[|xs| - 1] in ys then 1 else 0)
  }

  /** Counting the resume's skills of a category that the job's list holds counts the keywords both mention. */
  lemma {:induction false} CountInMatching(keywords: seq<string>, resume: Mentions, job: Mentions, upTo: nat)
    requires upTo <= |keywords|
    ensures CountIn(Matching(keywords[..upTo], resume), Matching(keywords, job)) == |MatchingBoth(keywords[..upTo], resume, job)|
    decreases upTo
  {
    var pre := keywords[..upTo];
    if upTo > 0 {
      var n := upTo - 1;
      var k := keywords[n];
      assert pre[..n] == keywords[..n];
      assert pre[n] == k;
      assert k in keywords;
      CountInMatching(keywords, resume, job, n);
      MatchingMembers(keywords, job, k);
      var m := Matching(keywords[..n], resume);
      if resume(k) {
        assert Matching(pre, resume) == m + [k];
        assert (m + [k])[..|m|] == m;
        assert CountIn(m + [k], Matching(keywords, job)) == CountIn(m, Matching(keywords, job)) + (if k in Matching(keywords, job) then 1 else 0);
      } else {
        assert Matching(pre, resume) == m;
      }
    }
  }

  /** The same for a whole keyword list. */
  lemma MatchedCount(keywords: seq<string>, resume: Mentions, job: Mentions)
    ensures CountIn(Matching(keywords, resume), Matching(keywords, job)) == |MatchingBoth(keywords, resume, job)|
  {
    CountInMatching(keywords, resume, job, |keywords|);
    assert keywords[..|keywords|] == keywords;
  }

  /** The inner loop of calculate_skills_match_score: how many of a category's resume skills
      the job description's list of that category holds. */
  method CountShared(found: seq<string>, jobFound: seq<string>) returns (count: nat)
    ensures count == CountIn(found, jobFound)
  {
    count := 0;
    for j := 0 to |found|
      invariant count == CountIn(found[..j], jobFound)
    {
      if found[j] in jobFound {
        count := count + 1;
      }
      assert found[..j + 1][..j] == found[..j];
    }
    assert found[..|found|] == found;
  }

  /** Matching both texts over a concatenation matches each part. */
  lemma {:induction false} MatchingBothAppend(a: seq<string>, b: seq<string>, resume: Mentions, job: Mentions)
    ensures MatchingBoth(a + b, resume, job) == MatchingBoth(a, resume, job) + MatchingBoth(b, resume, job)
    decreases |b|
  {
    if b == [] {
      assert a + b == a;
    } else {
      var n := |b| - 1;
      assert (a + b)[..|a + b| - 1] == a + b[..n];
      assert (a + b)[|a + b| - 1] == b[n];
      MatchingBothAppend(a, b[..n], resume, job);
    }
  }

  /** The matching loop of calculate_skills_match_score over the extracted skills of both texts:
      the number of dictionary keywords that both texts mention. */
  method CountMatching(resumeSkills: Skills, jobSkills: Skills, ghost resume: Mentions, ghost job: Mentions)
    returns (matchingSkills: nat)
    requires resumeSkills.technical == Matching(Technical, resume)
    requires resumeSkills.soft == Matching(Soft, resume)
    requires resumeSkills.business == Matching(Business, resume)
    requires jobSkills.technical == Matching(Technical, job)
    requires jobSkills.soft == Matching(Soft, job)
    requires jobSkills.business == Matching(Business, job)
    ensures matchingSkills == |MatchingBoth(Keywords, resume, job)|
    ensures matchingSkills == MatchedTotal(resume, job)
  {
    matchingSkills := 0;
    var technical := CountShared(resumeSkills.technical, jobSkills.technical);
    MatchedCount(Technical, resume, job);
    matchingSkills := matchingSkills + technical;
    var soft := CountShared(resumeSkills.soft, jobSkills.soft);
    MatchedCount(Soft, resume, job);
    matchingSkills := matchingSkills + soft;
    var business := CountShared(resumeSkills.business, jobSkills.business);
    MatchedCount(Business, resume, job);
    matchingSkills := matchingSkills + business;
    MatchingBothAppend(Technical, Soft, resume, job);
    MatchingBothAppend(Technical + Soft, Business, resume, job);
  }

  /** calculate_skills_match_score. */
  method CalculateSkillsMatchScore(r: Resume, job: Option<Mentions>) returns (skillsScore: real)
    ensures skillsScore == SkillsMatchScore(r, job)
  {
    var resumeSkills := ExtractSkills(r.mentions);
    var totalResumeSkills := CountSkills(resumeSkills, r.mentions);
    if job.Some? {
      var jobSkills := ExtractSkills(job.value);
      var totalJobSkills := CountSkills(jobSkills, job.value);
      var matchingSkills := CountMatching(resumeSkills, jobSkills, r.mentions, job.value);
      var matchPercentage := 0.0;
      if totalJobSkills > 0 {
        matchPercentage := (matchingSkills as real / totalJobSkills as real) * 100.0;
      }
      skillsScore := MinReal(matchPercentage, 100.0);
    } else if totalResumeSkills > 15 {
      skillsScore := 90.0;
    } else if totalResumeSkills > 10 {
      skillsScore := 75.0;
    } else if totalResumeSkills > 5 {
      skillsScore := 60.0;
    } else {
      skillsScore := 40.0;
    }
  }

  /** A share of at most the whole is at most 100 percent. */
  lemma PercentageBound(part: nat, whole: nat)
    requires 0 < whole && part <= whole
    ensures 0.0 <= (part as real / whole as real) * 100.0 <= 100.0
  {
    var ratio := part as real / whole as real;
    assert ratio * (whole as real) == part as real;
  }

  /** Without a job description the score is 90, 75, 60 or 40 by strict tiers of the skill count;
      with one it is the matched share in percent, which never exceeds 100, so the cap never applies. */
  lemma SkillsMatchRange(r: Resume, job: Option<Mentions>)
    ensures job.None? ==> var total := SkillsTotal(r.mentions);
      SkillsMatchScore(r, job) == (if total > 15 then 90.0 else if total > 10 then 75.0 else if total > 5 then 60.0 else 40.0)
    ensures job.Some? ==> var totalJob := SkillsTotal(job.value);
      MatchedTotal(r.mentions, job.value) <= totalJob &&
      SkillsMatchScore(r, job) ==
        (if totalJob > 0 then (MatchedTotal(r.mentions, job.value) as real / totalJob as real) * 100.0 else 0.0)
    ensures 0.0 <= SkillsMatchScore(r, job) <= 100.0
  {
    if job.Some? {
      var totalJob := SkillsTotal(job.value);
      if totalJob > 0 {
        PercentageBound(MatchedTotal(r.mentions, job.value), totalJob);
      }
    }
  }
}
