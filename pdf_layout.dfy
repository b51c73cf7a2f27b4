/**
  Layout of the PDF report (the body of generatePDF in pdf-export.tsx).

  Page 1 holds the analysis, page 2 (when there is resume data) the optimized
  resume. Each page is 612 by 792 points and has a vertical cursor that starts
  at height - margin = 742 and steps down by the line height, 20, after every
  drawn line and every blank spacer. A call of `page.drawText` appends a Draw
  record to the log; fonts are reduced to a bold flag and colours are left out.

  The layout is specified by rows: the content of a page is a sequence of Line
  and Blank rows, row k sitting at y = 742 - 20 k, and `Place` turns the rows
  into the draws. The imperative `GeneratePdf` keeps the cursor and the log as
  the source does and is proved to produce `Report`, the draws of those rows.
 */
module PdfLayout {
  import opened Wrappers
  import opened TextWrap
  import opened Decimal

  // ---------------------------------------------------------------------------
  // Constants of the layout
  // ---------------------------------------------------------------------------

  const PageWidth: int := 612
  const PageHeight: int := 792
  const Margin: int := 50
  const LineHeight: int := 20
  /** Where each page's cursor starts: height - margin. */
  const Top: int := PageHeight - Margin
  const BodySize: int := 12
  /** Wrap width of indented body text: width - 2 * margin - 10. */
  const BodyWrapWidth: int := PageWidth - 2 * Margin - 10
  /** Wrap width of the joined skills: width - 2 * margin. */
  const SkillsWrapWidth: int := PageWidth - 2 * Margin

  const ReportTitle := "Resume Analysis Report"
  const ResumeTitle := "Optimized Resume"
  const SuggestionsHeading := "Suggestions for Improvement"
  const BulletGlyph := "•"

  // ---------------------------------------------------------------------------
  // Inputs
  // ---------------------------------------------------------------------------

  datatype Category = Category(score: int, feedback: string)

  datatype AnalysisResult = AnalysisResult(
    score: int,
    atsCompatibility: Category,
    skillsMatch: Category,
    formatStructure: Category,
    contentQuality: Category,
    suggestions: seq<string>)

  datatype PersonalInfo = PersonalInfo(name: string, email: string, phone: string, location: string)

  datatype Experience = Experience(
    company: string, title: string, startDate: string, endDate: string, description: seq<string>)

  datatype Education = Education(institution: string, degree: string, field: string, graduationDate: string)

  /** Every part is optional; a present but empty list is still truthy. */
  datatype ResumeData = ResumeData(
    personalInfo: Option<PersonalInfo>,
    skills: Option<seq<string>>,
    experience: Option<seq<Experience>>,
    education: Option<seq<Education>>)

  // ---------------------------------------------------------------------------
  // Output: the draw log and the row model of the cursor
  // ---------------------------------------------------------------------------

  /** One `page.drawText(text, { x, y, size, font })` call. */
  datatype Draw = Draw(page: nat, text: string, x: int, y: int, size: int, bold: bool)

  /** A drawn line, or a blank spacer; both take one line height. */
  datatype Row = Line(text: string, x: int, size: int, bold: bool) | Blank

  /** The draws of a page whose rows are `rows`: row k is drawn at y = Top - LineHeight * k. */
  function Place(rows: seq<Row>, page: nat): seq<Draw>
  {
    if rows == [] then []
    else
      var k := |rows| - 1;
      Place(rows[..k], page) +
        (if rows[k].Line? then [Draw(page, rows[k].text, rows[k].x, Top - LineHeight * k, rows[k].size, rows[k].bold)]
         else [])
  }

  // ---------------------------------------------------------------------------
  // Text of the report
  // ---------------------------------------------------------------------------

  function ScoreText(score: int): string
  {
    "Score: " + IntToString(score) + "/100"
  }

  function OverallText(score: int): string
  {
    "Overall Score: " + IntToString(score) + "/100"
  }

  /** The contact line: email, phone and location separated by " | ". */
  function ContactText(info: PersonalInfo): string
  {
    info.email + " | " + info.phone + " | " + info.location
  }

  // ---------------------------------------------------------------------------
  // The rows of each page
  // ---------------------------------------------------------------------------

  /** Wrapped lines drawn one per row, in the regular body font. */
  function TextRows(lines: seq<string>, x: int): seq<Row>
  {
    seq(|lines|, k requires 0 <= k < |lines| => Line(lines[k], x, BodySize, false))
  }

  /** Line 0 of a bullet is drawn as wrapped; later lines get two leading spaces. */
  function BulletText(index: nat, line: string): string
  {
    if index == 0 then line else "  " + line
  }

  function BulletRows(lines: seq<string>, x: int): seq<Row>
  {
    seq(|lines|, k requires 0 <= k < |lines| => Line(BulletText(k, lines[k]), x, BodySize, false))
  }

  /** The wrapped lines of the bullet `"• " + item`. */
  function BulletLines(item: string, width: Metric): seq<string>
  {
    Wrap(BulletGlyph + " " + item, width, BodySize, BodyWrapWidth as real)
  }

  /** Each item of a bulleted list, wrapped. */
  function WrapEach(items: seq<string>, width: Metric): seq<seq<string>>
  {
    seq(|items|, k requires 0 <= k < |items| => BulletLines(items[k], width))
  }

  /** A bulleted list (suggestions, experience descriptions) from its wrapped items, item after item. */
  function BulletListRows(wrapped: seq<seq<string>>): seq<Row>
  {
    if wrapped == [] then []
    else BulletListRows(wrapped[..|wrapped| - 1]) + BulletRows(wrapped[|wrapped| - 1], Margin + 10)
  }

  function FeedbackLines(c: Category, width: Metric): seq<string>
  {
    Wrap(c.feedback, width, BodySize, BodyWrapWidth as real)
  }

  /** The wrapped texts of page 1: the four feedback texts and the suggestions. */
  datatype Page1Text = Page1Text(
    ats: seq<string>, skills: seq<string>, format: seq<string>, content: seq<string>,
    suggestions: seq<seq<string>>)

  function WrapPage1(a: AnalysisResult, width: Metric): Page1Text
  {
    Page1Text(
      FeedbackLines(a.atsCompatibility, width), FeedbackLines(a.skillsMatch, width),
      FeedbackLines(a.formatStructure, width), FeedbackLines(a.contentQuality, width),
      WrapEach(a.suggestions, width))
  }

  /** Heading, score line, wrapped feedback and one blank spacer. */
  function SectionRows(title: string, score: int, lines: seq<string>): seq<Row>
  {
    [Line(title, Margin, 16, true)] + [Line(ScoreText(score), Margin + 10, BodySize, false)]
    + TextRows(lines, Margin + 10) + [Blank]
  }

  /** Page 1 laid out from its wrapped texts. */
  function Page1RowsOf(a: AnalysisResult, t: Page1Text): seq<Row>
  {
    [Line(ReportTitle, Margin, 24, true)] + [Blank] + [Line(OverallText(a.score), Margin, 18, true)] + [Blank]
    + SectionRows("ATS Compatibility", a.atsCompatibility.score, t.ats)
    + SectionRows("Skills Match", a.skillsMatch.score, t.skills)
    + SectionRows("Format & Structure", a.formatStructure.score, t.format)
    + SectionRows("Content Quality", a.contentQuality.score, t.content)
    + [Line(SuggestionsHeading, Margin, 16, true)]
    + BulletListRows(t.suggestions)
  }

  function Page1Rows(a: AnalysisResult, width: Metric): seq<Row>
  {
    Page1RowsOf(a, WrapPage1(a, width))
  }

  function PersonalRows(info: Option<PersonalInfo>): seq<Row>
  {
    if info.Some? then
      [Line(info.value.name, Margin, 18, true)] + [Line(ContactText(info.value), Margin, BodySize, false)] + [Blank]
    else []
  }

  function SkillsLines(skills: seq<string>, width: Metric): seq<string>
  {
    Wrap(JoinWith(skills, ", "), width, BodySize, SkillsWrapWidth as real)
  }

  function SkillsRows(skills: Option<seq<string>>, width: Metric): seq<Row>
  {
    if skills.Some? && |skills.value| > 0 then
      [Line("Skills", Margin, 16, true)] + TextRows(SkillsLines(skills.value, width), Margin) + [Blank]
    else []
  }

  function ExperienceEntryRows(e: Experience, width: Metric): seq<Row>
  {
    [Line(e.title + ", " + e.company, Margin, 14, true)] + [Line(e.startDate + " - " + e.endDate, Margin, BodySize, false)]
    + BulletListRows(WrapEach(e.description, width)) + [Blank]
  }

  function ExperienceListRows(es: seq<Experience>, width: Metric): seq<Row>
  {
    if es == [] then []
    else ExperienceListRows(es[..|es| - 1], width) + ExperienceEntryRows(es[|es| - 1], width)
  }

  function ExperienceRows(es: Option<seq<Experience>>, width: Metric): seq<Row>
  {
    if es.Some? && |es.value| > 0 then [Line("Experience", Margin, 16, true)] + ExperienceListRows(es.value, width)
    else []
  }

  function EducationEntryRows(e: Education): seq<Row>
  {
    [Line(e.degree + " in " + e.field, Margin, 14, true)]
    + [Line(e.institution + ", " + e.graduationDate, Margin, BodySize, false)] + [Blank]
  }

  function EducationListRows(es: seq<Education>): seq<Row>
  {
    if es == [] then [] else EducationListRows(es[..|es| - 1]) + EducationEntryRows(es[|es| - 1])
  }

  function EducationRows(es: Option<seq<Education>>): seq<Row>
  {
    if es.Some? && |es.value| > 0 then [Line("Education", Margin, 16, true)] + EducationListRows(es.value)
    else []
  }

  function Page2Rows(r: ResumeData, width: Metric): seq<Row>
  {
    [Line(ResumeTitle, Margin, 24, true)] + [Blank]
    + PersonalRows(r.personalInfo)
    + SkillsRows(r.skills, width)
    + ExperienceRows(r.experience, width)
    + EducationRows(r.education)
  }

  /** The second page is added on truthiness: any present part, empty lists included. */
  predicate HasSecondPage(resumeData: Option<ResumeData>)
  {
    resumeData.Some? &&
    (resumeData.value.personalInfo.Some? || resumeData.value.skills.Some? ||
     resumeData.value.experience.Some? || resumeData.value.education.Some?)
  }

  function PageCount(resumeData: Option<ResumeData>): nat
  {
    if HasSecondPage(resumeData) then 2 else 1
  }

  /** Every draw of the report, page 1 first. */
  function Report(a: AnalysisResult, resumeData: Option<ResumeData>, width: Metric): seq<Draw>
  {
    Place(Page1Rows(a, width), 0) +
      (if HasSecondPage(resumeData) then Place(Page2Rows(resumeData.value, width), 1) else [])
  }

  // ---------------------------------------------------------------------------
  // The imperative layout
  // ---------------------------------------------------------------------------

  /** The log of a page holds the draws of `rows` and the cursor stands below the last row. */
  predicate Cursor(draws: seq<Draw>, rows: seq<Row>, page: nat, y: int)
  {
    draws == Place(rows, page) && y == Top - LineHeight * |rows|
  }

  /** `page.drawText(text, { x, y, size, font })`: one record appended to the log. */
  method DrawText(draws: seq<Draw>, ghost rows: seq<Row>, page: nat, y: int, text: string, x: int, size: int, bold: bool)
    returns (draws': seq<Draw>, ghost rows': seq<Row>)
    requires Cursor(draws, rows, page, y)
    ensures draws' == draws + [Draw(page, text, x, y, size, bold)]
    ensures rows' == rows + [Line(text, x, size, bold)]
    ensures Cursor(draws', rows', page, y - LineHeight)
  {
    draws' := draws + [Draw(page, text, x, y, size, bold)];
    rows' := rows + [Line(text, x, size, bold)];
    assert rows'[..|rows|] == rows;
  }

  // Regrouping steps of the row log. Stated once over plain variables, they are much cheaper
  // to use than to re-prove inside the drawing methods, whose row terms are large.

  lemma Concat3(r: seq<Row>, a: seq<Row>, b: seq<Row>)
    ensures r + a + b == r + (a + b)
  {
  }

  lemma Concat4(r: seq<Row>, a: seq<Row>, b: seq<Row>, c: seq<Row>)
    ensures r + a + b + c == r + (a + b + c)
  {
  }

  lemma Concat5(r: seq<Row>, a: seq<Row>, b: seq<Row>, c: seq<Row>, d: seq<Row>)
    ensures r + a + b + c + d == r + (a + b + c + d)
  {
  }

  /** A cursor step with nothing drawn is a blank row. */
  lemma Skip(draws: seq<Draw>, rows: seq<Row>, page: nat, y: int) returns (rows': seq<Row>)
    requires Cursor(draws, rows, page, y + LineHeight)
    ensures rows' == rows + [Blank] && Cursor(draws, rows', page, y)
  {
    rows' := rows + [Blank];
    assert rows'[..|rows|] == rows;
  }

  /** `for (const line of lines) { drawText(line); y -= lineHeight }`. */
  method DrawLines(draws: seq<Draw>, ghost rows: seq<Row>, page: nat, y: int, lines: seq<string>, x: int)
    returns (draws': seq<Draw>, ghost rows': seq<Row>, y': int)
    requires Cursor(draws, rows, page, y)
    ensures rows' == rows + TextRows(lines, x)
    ensures Cursor(draws', rows', page, y')
  {
    draws', rows', y' := draws, rows, y;
    for i := 0 to |lines|
      invariant rows' == rows + TextRows(lines[..i], x)
      invariant Cursor(draws', rows', page, y')
    {
      draws', rows' := DrawText(draws', rows', page, y', lines[i], x, BodySize, false);
      y' := y' - LineHeight;
      assert TextRows(lines[..i + 1], x) == TextRows(lines[..i], x) + [Line(lines[i], x, BodySize, false)];
    }
    assert lines[..|lines|] == lines;
  }

  /** One more bullet line; a lemma for the same reason as the regrouping steps above. */
  lemma BulletRowsSnoc(lines: seq<string>, n: nat, x: int)
    requires n < |lines|
    ensures BulletRows(lines[..n + 1], x) == BulletRows(lines[..n], x) + [Line(BulletText(n, lines[n]), x, BodySize, false)]
  {
  }

  lemma BulletListSnoc(wrapped: seq<seq<string>>, i: nat)
    requires i < |wrapped|
    ensures BulletListRows(wrapped[..i + 1]) == BulletListRows(wrapped[..i]) + BulletRows(wrapped[i], Margin + 10)
  {
    assert wrapped[..i + 1][..i] == wrapped[..i];
  }

  /** One bullet: `"• " + item` wrapped, line 0 as is, later lines indented by two spaces. */
  method DrawBullet(draws: seq<Draw>, ghost rows: seq<Row>, page: nat, y: int, item: string, width: Metric)
    returns (draws': seq<Draw>, ghost rows': seq<Row>, y': int)
    requires Cursor(draws, rows, page, y)
    ensures rows' == rows + BulletRows(BulletLines(item, width), Margin + 10)
    ensures Cursor(draws', rows', page, y')
  {
    var lines := SplitTextToLines(BulletGlyph + " " + item, width, BodySize, BodyWrapWidth as real);
    draws', rows', y' := draws, rows, y;
    for index := 0 to |lines|
      invariant rows' == rows + BulletRows(lines[..index], Margin + 10)
      invariant Cursor(draws', rows', page, y')
    {
      var lineText := if index == 0 then lines[index] else "  " + lines[index];
      ghost var before := rows';
      draws', rows' := DrawText(draws', rows', page, y', lineText, Margin + 10, BodySize, false);
      y' := y' - LineHeight;
      BulletRowsSnoc(lines, index, Margin + 10);
      Concat3(rows, BulletRows(lines[..index], Margin + 10), [Line(lineText, Margin + 10, BodySize, false)]);
    }
    assert lines[..|lines|] == lines;
  }

  /** A bulleted list, item after item. */
  method DrawBullets(draws: seq<Draw>, ghost rows: seq<Row>, page: nat, y: int, items: seq<string>, width: Metric)
    returns (draws': seq<Draw>, ghost rows': seq<Row>, y': int)
    requires Cursor(draws, rows, page, y)
    ensures rows' == rows + BulletListRows(WrapEach(items, width))
    ensures Cursor(draws', rows', page, y')
  {
    ghost var wrapped := WrapEach(items, width);
    draws', rows', y' := draws, rows, y;
    for i := 0 to |items|
      invariant rows' == rows + BulletListRows(wrapped[..i])
      invariant Cursor(draws', rows', page, y')
    {
      draws', rows', y' := DrawBullet(draws', rows', page, y', items[i], width);
      BulletListSnoc(wrapped, i);
      Concat3(rows, BulletListRows(wrapped[..i]), BulletRows(wrapped[i], Margin + 10));
    }
    assert wrapped[..|items|] == wrapped;
  }

  /** One analysis section of page 1. */
  method DrawSection(draws: seq<Draw>, ghost rows: seq<Row>, y: int, title: string, c: Category, width: Metric)
    returns (draws': seq<Draw>, ghost rows': seq<Row>, y': int)
    requires Cursor(draws, rows, 0, y)
    ensures rows' == rows + SectionRows(title, c.score, FeedbackLines(c, width))
    ensures Cursor(draws', rows', 0, y')
  {
    draws', rows' := DrawText(draws, rows, 0, y, title, Margin, 16, true);
    y' := y - LineHeight;
    draws', rows' := DrawText(draws', rows', 0, y', ScoreText(c.score), Margin + 10, BodySize, false);
    y' := y' - LineHeight;
    var feedbackLines := SplitTextToLines(c.feedback, width, BodySize, BodyWrapWidth as real);
    draws', rows', y' := DrawLines(draws', rows', 0, y', feedbackLines, Margin + 10);
    y' := y' - LineHeight;
    rows' := Skip(draws', rows', 0, y');
    Concat5(rows, [Line(title, Margin, 16, true)], [Line(ScoreText(c.score), Margin + 10, BodySize, false)],
      TextRows(feedbackLines, Margin + 10), [Blank]);
  }

  lemma ExperienceListSnoc(es: seq<Experience>, i: nat, width: Metric)
    requires i < |es|
    ensures ExperienceListRows(es[..i + 1], width) == ExperienceListRows(es[..i], width) + ExperienceEntryRows(es[i], width)
  {
    assert es[..i + 1][..i] == es[..i];
  }

  /** One experience entry: title and company, dates, bulleted description, spacer. */
  method DrawExperienceEntry(draws: seq<Draw>, ghost rows: seq<Row>, y: int, exp: Experience, width: Metric)
    returns (draws': seq<Draw>, ghost rows': seq<Row>, y': int)
    requires Cursor(draws, rows, 1, y)
    ensures rows' == rows + ExperienceEntryRows(exp, width)
    ensures Cursor(draws', rows', 1, y')
  {
    draws', rows' := DrawText(draws, rows, 1, y, exp.title + ", " + exp.company, Margin, 14, true);
    y' := y - LineHeight;
    draws', rows' := DrawText(draws', rows', 1, y', exp.startDate + " - " + exp.endDate, Margin, BodySize, false);
    y' := y' - LineHeight;
    draws', rows', y' := DrawBullets(draws', rows', 1, y', exp.description, width);
    y' := y' - LineHeight;
    rows' := Skip(draws', rows', 1, y');
    Concat5(rows, [Line(exp.title + ", " + exp.company, Margin, 14, true)],
      [Line(exp.startDate + " - " + exp.endDate, Margin, BodySize, false)],
      BulletListRows(WrapEach(exp.description, width)), [Blank]);
  }

  /** The experience entries of page 2. */
  method DrawExperience(draws: seq<Draw>, ghost rows: seq<Row>, y: int, es: seq<Experience>, width: Metric)
    returns (draws': seq<Draw>, ghost rows': seq<Row>, y': int)
    requires Cursor(draws, rows, 1, y)
    ensures rows' == rows + ExperienceListRows(es, width)
    ensures Cursor(draws', rows', 1, y')
  {
    draws', rows', y' := draws, rows, y;
    for i := 0 to |es|
      invariant rows' == rows + ExperienceListRows(es[..i], width)
      invariant Cursor(draws', rows', 1, y')
    {
      draws', rows', y' := DrawExperienceEntry(draws', rows', y', es[i], width);
      ExperienceListSnoc(es, i, width);
      Concat3(rows, ExperienceListRows(es[..i], width), ExperienceEntryRows(es[i], width));
    }
    assert es[..|es|] == es;
  }

  lemma EducationListSnoc(es: seq<Education>, i: nat)
    requires i < |es|
    ensures EducationListRows(es[..i + 1]) == EducationListRows(es[..i]) + EducationEntryRows(es[i])
  {
    assert es[..i + 1][..i] == es[..i];
  }

  /** The education entries of page 2. */
  method DrawEducation(draws: seq<Draw>, ghost rows: seq<Row>, y: int, es: seq<Education>)
    returns (draws': seq<Draw>, ghost rows': seq<Row>, y': int)
    requires Cursor(draws, rows, 1, y)
    ensures rows' == rows + EducationListRows(es)
    ensures Cursor(draws', rows', 1, y')
  {
    draws', rows', y' := draws, rows, y;
    for i := 0 to |es|
      invariant rows' == rows + EducationListRows(es[..i])
      invariant Cursor(draws', rows', 1, y')
    {
      var edu := es[i];
      ghost var before := rows';
      draws', rows' := DrawText(draws', rows', 1, y', edu.degree + " in " + edu.field, Margin, 14, true);
      y' := y' - LineHeight;
      draws', rows' := DrawText(draws', rows', 1, y', edu.institution + ", " + edu.graduationDate, Margin, BodySize, false);
      y' := y' - LineHeight * 2;
      rows' := Skip(draws', rows', 1, y');
      Concat4(before, [Line(edu.degree + " in " + edu.field, Margin, 14, true)],
        [Line(edu.institution + ", " + edu.graduationDate, Margin, BodySize, false)], [Blank]);
      EducationListSnoc(es, i);
      Concat3(rows, EducationListRows(es[..i]), EducationEntryRows(edu));
    }
    assert es[..|es|] == es;
  }

  /** Page 1: title, overall score, the four sections and the suggestions. */
  method DrawPage1(a: AnalysisResult, width: Metric) returns (draws: seq<Draw>)
    ensures draws == Place(Page1Rows(a, width), 0)
  {
    var y := PageHeight - Margin;
    ghost var rows: seq<Row> := [];
    draws := [];
    draws, rows := DrawText(draws, rows, 0, y, ReportTitle, Margin, 24, true);
    y := y - LineHeight * 2;
    rows := Skip(draws, rows, 0, y);
    draws, rows := DrawText(draws, rows, 0, y, OverallText(a.score), Margin, 18, true);
    y := y - LineHeight * 2;
    rows := Skip(draws, rows, 0, y);

    draws, rows, y := DrawSection(draws, rows, y, "ATS Compatibility", a.atsCompatibility, width);
    draws, rows, y := DrawSection(draws, rows, y, "Skills Match", a.skillsMatch, width);
    draws, rows, y := DrawSection(draws, rows, y, "Format & Structure", a.formatStructure, width);
    draws, rows, y := DrawSection(draws, rows, y, "Content Quality", a.contentQuality, width);

    draws, rows := DrawText(draws, rows, 0, y, SuggestionsHeading, Margin, 16, true);
    y := y - LineHeight;
    draws, rows, y := DrawBullets(draws, rows, 0, y, a.suggestions, width);
    assert [] + [Line(ReportTitle, Margin, 24, true)] == [Line(ReportTitle, Margin, 24, true)];
  }

  method DrawPersonal(draws: seq<Draw>, ghost rows: seq<Row>, y: int, info: Option<PersonalInfo>)
    returns (draws': seq<Draw>, ghost rows': seq<Row>, y': int)
    requires Cursor(draws, rows, 1, y)
    ensures rows' == rows + PersonalRows(info)
    ensures Cursor(draws', rows', 1, y')
  {
    draws', rows', y' := draws, rows, y;
    if info.Some? {
      var p := info.value;
      draws', rows' := DrawText(draws', rows', 1, y', p.name, Margin, 18, true);
      y' := y' - LineHeight;
      draws', rows' := DrawText(draws', rows', 1, y', ContactText(p), Margin, BodySize, false);
      y' := y' - LineHeight * 2;
      rows' := Skip(draws', rows', 1, y');
      Concat4(rows, [Line(p.name, Margin, 18, true)], [Line(ContactText(p), Margin, BodySize, false)], [Blank]);
    } else {
      assert rows' == rows + [];
    }
  }

  method DrawSkills(draws: seq<Draw>, ghost rows: seq<Row>, y: int, skills: Option<seq<string>>, width: Metric)
    returns (draws': seq<Draw>, ghost rows': seq<Row>, y': int)
    requires Cursor(draws, rows, 1, y)
    ensures rows' == rows + SkillsRows(skills, width)
    ensures Cursor(draws', rows', 1, y')
  {
    draws', rows', y' := draws, rows, y;
    if skills.Some? && |skills.value| > 0 {
      draws', rows' := DrawText(draws', rows', 1, y', "Skills", Margin, 16, true);
      y' := y' - LineHeight;
      var skillsText := JoinWith(skills.value, ", ");
      var skillsLines := SplitTextToLines(skillsText, width, BodySize, SkillsWrapWidth as real);
      draws', rows', y' := DrawLines(draws', rows', 1, y', skillsLines, Margin);
      y' := y' - LineHeight;
      rows' := Skip(draws', rows', 1, y');
      Concat4(rows, [Line("Skills", Margin, 16, true)], TextRows(skillsLines, Margin), [Blank]);
    } else {
      assert rows' == rows + [];
    }
  }

  method DrawExperienceSection(draws: seq<Draw>, ghost rows: seq<Row>, y: int, es: Option<seq<Experience>>, width: Metric)
    returns (draws': seq<Draw>, ghost rows': seq<Row>, y': int)
    requires Cursor(draws, rows, 1, y)
    ensures rows' == rows + ExperienceRows(es, width)
    ensures Cursor(draws', rows', 1, y')
  {
    draws', rows', y' := draws, rows, y;
    if es.Some? && |es.value| > 0 {
      draws', rows' := DrawText(draws', rows', 1, y', "Experience", Margin, 16, true);
      y' := y' - LineHeight;
      draws', rows', y' := DrawExperience(draws', rows', y', es.value, width);
      Concat3(rows, [Line("Experience", Margin, 16, true)], ExperienceListRows(es.value, width));
    } else {
      assert rows' == rows + [];
    }
  }

  method DrawEducationSection(draws: seq<Draw>, ghost rows: seq<Row>, y: int, es: Option<seq<Education>>)
    returns (draws': seq<Draw>, ghost rows': seq<Row>, y': int)
    requires Cursor(draws, rows, 1, y)
    ensures rows' == rows + EducationRows(es)
    ensures Cursor(draws', rows', 1, y')
  {
    draws', rows', y' := draws, rows, y;
    if es.Some? && |es.value| > 0 {
      draws', rows' := DrawText(draws', rows', 1, y', "Education", Margin, 16, true);
      y' := y' - LineHeight;
      draws', rows', y' := DrawEducation(draws', rows', y', es.value);
      Concat3(rows, [Line("Education", Margin, 16, true)], EducationListRows(es.value));
    } else {
      assert rows' == rows + [];
    }
  }

  /** Page 2: the optimized resume. */
  method DrawPage2(r: ResumeData, width: Metric) returns (draws: seq<Draw>)
    ensures draws == Place(Page2Rows(r, width), 1)
  {
    var y := PageHeight - Margin;
    ghost var rows: seq<Row> := [];
    draws := [];
    draws, rows := DrawText(draws, rows, 1, y, ResumeTitle, Margin, 24, true);
    y := y - LineHeight * 2;
    rows := Skip(draws, rows, 1, y);
    draws, rows, y := DrawPersonal(draws, rows, y, r.personalInfo);
    draws, rows, y := DrawSkills(draws, rows, y, r.skills, width);
    draws, rows, y := DrawExperienceSection(draws, rows, y, r.experience, width);
    draws, rows, y := DrawEducationSection(draws, rows, y, r.education);
    assert [] + [Line(ResumeTitle, Margin, 24, true)] == [Line(ResumeTitle, Margin, 24, true)];
  }

  /** generatePDF without the pdf-lib plumbing: the draws of both pages and the page count. */
  method GeneratePdf(analysisResult: AnalysisResult, resumeData: Option<ResumeData>, width: Metric)
    returns (draws: seq<Draw>, pageCount: nat)
    ensures draws == Report(analysisResult, resumeData, width)
    ensures pageCount == PageCount(resumeData)
  {
    pageCount := 1;
    draws := DrawPage1(analysisResult, width);
    if resumeData.Some? &&
       (resumeData.value.personalInfo.Some? || resumeData.value.skills.Some? ||
        resumeData.value.experience.Some? || resumeData.value.education.Some?)
    {
      pageCount := 2;
      var page2 := DrawPage2(resumeData.value, width);
      draws := draws + page2;
    } else {
      assert draws == draws + [];
    }
  }
}
