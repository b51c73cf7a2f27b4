/**
  What the layout of the PDF report guarantees: where the cursor puts things,
  how the pages follow each other, how bullets are marked, and that page 1 has
  no page break.
 */
module LayoutProperties {
  import opened Wrappers
  import opened TextWrap
  import opened PdfLayout

  // ---------------------------------------------------------------------------
  // The cursor
  // ---------------------------------------------------------------------------

  /** The draws of a page stay on it, start at the top and step strictly downwards. */
  lemma {:induction false} PlaceDescending(rows: seq<Row>, page: nat)
    ensures var d := Place(rows, page);
      |d| <= |rows| &&
      (forall k :: 0 <= k < |d| ==> d[k].page == page && Top - LineHeight * |rows| < d[k].y <= Top) &&
      (forall i, j :: 0 <= i < j < |d| ==> d[j].y < d[i].y)
    decreases |rows|
  {
    if rows != [] {
      PlaceDescending(rows[..|rows| - 1], page);
    }
  }

  /** Row k, when it is a line, is drawn at y = Top - LineHeight * k. */
  lemma {:induction false} PlaceRow(rows: seq<Row>, page: nat, k: nat)
    requires k < |rows| && rows[k].Line?
    ensures Draw(page, rows[k].text, rows[k].x, Top - LineHeight * k, rows[k].size, rows[k].bold) in Place(rows, page)
    decreases |rows|
  {
    var n := |rows| - 1;
    if k < n {
      assert rows[..n][k] == rows[k];
      PlaceRow(rows[..n], page, k);
    }
  }

  /** A first line row is the first draw of its page. */
  lemma {:induction false} PlaceFirst(rows: seq<Row>, page: nat)
    requires rows != [] && rows[0].Line?
    ensures var d := Place(rows, page);
      d != [] && d[0] == Draw(page, rows[0].text, rows[0].x, Top, rows[0].size, rows[0].bold)
    decreases |rows|
  {
    var k := |rows| - 1;
    if k > 0 {
      assert rows[..k][0] == rows[0];
      PlaceFirst(rows[..k], page);
    } else {
      assert rows[..k] == [];
    }
  }

  /** Two pages in a row: page numbers never decrease and each page steps downwards. */
  lemma TwoPages(d1: seq<Draw>, d2: seq<Draw>)
    requires forall k :: 0 <= k < |d1| ==> d1[k].page == 0 && d1[k].y <= Top
    requires forall k :: 0 <= k < |d2| ==> d2[k].page == 1 && d2[k].y <= Top
    requires forall i, j :: 0 <= i < j < |d1| ==> d1[j].y < d1[i].y
    requires forall i, j :: 0 <= i < j < |d2| ==> d2[j].y < d2[i].y
    ensures var d := d1 + d2;
      (forall k :: 0 <= k < |d| ==> d[k].page < 2 && d[k].y <= Top) &&
      (forall i, j :: 0 <= i < j < |d| ==> d[i].page <= d[j].page) &&
      (forall i, j :: 0 <= i < j < |d| && d[i].page == d[j].page ==> d[j].y < d[i].y)
  {
    var d := d1 + d2;
    forall i, j | 0 <= i < j < |d|
      ensures d[i].page <= d[j].page
      ensures d[i].page == d[j].page ==> d[j].y < d[i].y
    {
      if j < |d1| {
        assert d[i] == d1[i] && d[j] == d1[j];
      } else if i >= |d1| {
        assert d[i] == d2[i - |d1|] && d[j] == d2[j - |d1|];
      } else {
        assert d[i] == d1[i] && d[j] == d2[j - |d1|];
      }
    }
  }

  /** The report opens with its title at the top of page 1; page 2, when there is one,
      follows page 1 and opens with its own title at the top; on each page the draws
      step strictly downwards. */
  lemma ReportCursor(a: AnalysisResult, resumeData: Option<ResumeData>, width: Metric)
    ensures var d := Report(a, resumeData, width);
      d != [] && d[0] == Draw(0, ReportTitle, Margin, Top, 24, true) &&
      (forall k :: 0 <= k < |d| ==> d[k].page < PageCount(resumeData) && d[k].y <= Top) &&
      (forall i, j :: 0 <= i < j < |d| ==> d[i].page <= d[j].page) &&
      (forall i, j :: 0 <= i < j < |d| && d[i].page == d[j].page ==> d[j].y < d[i].y) &&
      (HasSecondPage(resumeData) ==> Draw(1, ResumeTitle, Margin, Top, 24, true) in d)
  {
    var d1 := Place(Page1Rows(a, width), 0);
    PlaceDescending(Page1Rows(a, width), 0);
    PlaceFirst(Page1Rows(a, width), 0);
    if HasSecondPage(resumeData) {
      var d2 := Place(Page2Rows(resumeData.value, width), 1);
      PlaceDescending(Page2Rows(resumeData.value, width), 1);
      PlaceFirst(Page2Rows(resumeData.value, width), 1);
      TwoPages(d1, d2);
      assert (d1 + d2)[|d1|] == d2[0];
    }
  }

  // ---------------------------------------------------------------------------
  // Page 1
  // ---------------------------------------------------------------------------

  /** A section takes 3 + (feedback lines) rows: heading, score, the lines, a spacer. */
  lemma SectionLayout(title: string, score: int, lines: seq<string>)
    ensures var rows := SectionRows(title, score, lines);
      |rows| == 3 + |lines| &&
      rows[0] == Line(title, Margin, 16, true) &&
      rows[1] == Line(ScoreText(score), Margin + 10, BodySize, false) &&
      (forall k :: 0 <= k < |lines| ==> rows[2 + k] == Line(lines[k], Margin + 10, BodySize, false)) &&
      rows[2 + |lines|] == Blank
  {
  }

  /** The row of each heading and score line of page 1, given the lengths of the wrapped
      feedback texts: each section moves the next one down by 3 + (its lines) rows. */
  lemma Page1Layout(a: AnalysisResult, t: Page1Text)
    ensures var rows := Page1RowsOf(a, t);
      var n1 := |t.ats|;
      var n2 := |t.skills|;
      var n3 := |t.format|;
      var n4 := |t.content|;
      |rows| == 17 + n1 + n2 + n3 + n4 + |BulletListRows(t.suggestions)| &&
      rows[0] == Line(ReportTitle, Margin, 24, true) &&
      rows[2] == Line(OverallText(a.score), Margin, 18, true) &&
      rows[4] == Line("ATS Compatibility", Margin, 16, true) &&
      rows[5] == Line(ScoreText(a.atsCompatibility.score), Margin + 10, BodySize, false) &&
      rows[7 + n1] == Line("Skills Match", Margin, 16, true) &&
      rows[8 + n1] == Line(ScoreText(a.skillsMatch.score), Margin + 10, BodySize, false) &&
      rows[10 + n1 + n2] == Line("Format & Structure", Margin, 16, true) &&
      rows[11 + n1 + n2] == Line(ScoreText(a.formatStructure.score), Margin + 10, BodySize, false) &&
      rows[13 + n1 + n2 + n3] == Line("Content Quality", Margin, 16, true) &&
      rows[14 + n1 + n2 + n3] == Line(ScoreText(a.contentQuality.score), Margin + 10, BodySize, false) &&
      rows[16 + n1 + n2 + n3 + n4] == Line(SuggestionsHeading, Margin, 16, true)
  {
    var s1 := SectionRows("ATS Compatibility", a.atsCompatibility.score, t.ats);
    var s2 := SectionRows("Skills Match", a.skillsMatch.score, t.skills);
    var s3 := SectionRows("Format & Structure", a.formatStructure.score, t.format);
    var s4 := SectionRows("Content Quality", a.contentQuality.score, t.content);
    var p2 := [Line(ReportTitle, Margin, 24, true)] + [Blank] + [Line(OverallText(a.score), Margin, 18, true)] + [Blank];
    var p3 := p2 + s1;
    var p4 := p3 + s2;
    var p5 := p4 + s3;
    var p6 := p5 + s4;
    var p7 := p6 + [Line(SuggestionsHeading, Margin, 16, true)];
    var rows := p7 + BulletListRows(t.suggestions);
    assert Page1RowsOf(a, t) == rows;
    PrefixIndex(p7, BulletListRows(t.suggestions), p6, [Line(SuggestionsHeading, Margin, 16, true)]);
    SectionStart(rows, p5, "Content Quality", a.contentQuality.score, t.content);
    SectionStart(rows, p4, "Format & Structure", a.formatStructure.score, t.format);
    SectionStart(rows, p3, "Skills Match", a.skillsMatch.score, t.skills);
    SectionStart(rows, p2, "ATS Compatibility", a.atsCompatibility.score, t.ats);
    assert rows[0] == p2[0] && rows[2] == p2[2];
  }

  /** Rows that begin with a prefix and a section hold the section's heading and score line right
      after the prefix, and begin with the prefix alone. */
  lemma SectionStart(rows: seq<Row>, prefix: seq<Row>, title: string, score: int, lines: seq<string>)
    requires var whole := prefix + SectionRows(title, score, lines);
      |whole| <= |rows| && forall i :: 0 <= i < |whole| ==> rows[i] == whole[i]
    ensures |SectionRows(title, score, lines)| == 3 + |lines|
    ensures forall i :: 0 <= i < |prefix| ==> rows[i] == prefix[i]
    ensures rows[|prefix|] == Line(title, Margin, 16, true)
    ensures rows[|prefix| + 1] == Line(ScoreText(score), Margin + 10, BodySize, false)
  {
    var whole := prefix + SectionRows(title, score, lines);
    SectionLayout(title, score, lines);
    assert rows[|prefix|] == whole[|prefix|];
    assert rows[|prefix| + 1] == whole[|prefix| + 1];
  }

  lemma PrefixIndex(whole: seq<Row>, tail: seq<Row>, prefix: seq<Row>, middle: seq<Row>)
    requires whole == prefix + middle
    ensures forall i :: 0 <= i < |prefix| ==> (whole + tail)[i] == prefix[i]
  {}

  /** Line row k of page 1 is drawn on page 1 at y = Top - LineHeight * k. */
  lemma Page1RowDrawn(a: AnalysisResult, resumeData: Option<ResumeData>, width: Metric, k: nat)
    requires k < |Page1Rows(a, width)| && Page1Rows(a, width)[k].Line?
    ensures var r := Page1Rows(a, width)[k];
      Draw(0, r.text, r.x, Top - LineHeight * k, r.size, r.bold) in Report(a, resumeData, width)
  {
    var rows := Page1Rows(a, width);
    PlaceRow(rows, 0, k);
    InPrefix(Place(rows, 0), Report(a, resumeData, width));
  }

  /** Whatever a prefix holds, the whole sequence holds. */
  lemma InPrefix(p: seq<Draw>, d: seq<Draw>)
    requires p <= d
    ensures forall x :: x in p ==> x in d
  {
    forall x | x in p
      ensures x in d
    {
      var k :| 0 <= k < |p| && p[k] == x;
      assert d[k] == x;
    }
  }

  // ---------------------------------------------------------------------------
  // Bullets
  // ---------------------------------------------------------------------------

  /** A row that starts with the bullet glyph. */
  predicate BulletLed(r: Row)
  {
    r.Line? && |r.text| > 0 && r.text[0] == '•'
  }

  function CountBulletLed(rows: seq<Row>): nat
  {
    if rows == [] then 0
    else CountBulletLed(rows[..|rows| - 1]) + (if BulletLed(rows[|rows| - 1]) then 1 else 0)
  }

  lemma {:induction false} CountAppend(r: seq<Row>, s: seq<Row>)
    ensures CountBulletLed(r + s) == CountBulletLed(r) + CountBulletLed(s)
    decreases |s|
  {
    if s != [] {
      var n := |s| - 1;
      assert (r + s)[..|r + s| - 1] == r + s[..n];
      assert (r + s)[|r + s| - 1] == s[n];
      CountAppend(r, s[..n]);
    } else {
      assert r + s == r;
    }
  }

  lemma {:induction false} CountNone(rows: seq<Row>)
    requires forall k :: 0 <= k < |rows| ==> !BulletLed(rows[k])
    ensures CountBulletLed(rows) == 0
    decreases |rows|
  {
    if rows != [] {
      CountNone(rows[..|rows| - 1]);
    }
  }

  /** Only line 0 of a wrapped bullet can start with the glyph: later lines are indented. */
  lemma BulletRowsLed(lines: seq<string>, x: int)
    ensures CountBulletLed(BulletRows(lines, x)) ==
      if lines != [] && |lines[0]| > 0 && lines[0][0] == '•' then 1 else 0
  {
    var rows := BulletRows(lines, x);
    if lines != [] {
      assert rows == rows[..1] + rows[1..];
      CountAppend(rows[..1], rows[1..]);
      CountNone(rows[1..]);
      assert rows[..1][..0] == [];
    }
  }

  /** The wrapped lines of `"• " + item`: the glyph opens line 0 when it fits the width,
      and line 0 is empty when it does not. */
  lemma BulletLinesShape(item: string, width: Metric)
    ensures var lines := BulletLines(item, width);
      lines != [] &&
      (width(BulletGlyph, BodySize) <= BodyWrapWidth as real ==> |lines[0]| > 0 && lines[0][0] == '•') &&
      (width(BulletGlyph, BodySize) > BodyWrapWidth as real ==> lines[0] == "")
  {
    var text := BulletGlyph + " " + item;
    SplitAround(BulletGlyph, item);
    SplitWord(BulletGlyph);
    assert Split(text)[0] == BulletGlyph;
    if width(BulletGlyph, BodySize) <= BodyWrapWidth as real {
      WrapFirstWord(text, width, BodySize, BodyWrapWidth as real);
      var line := BulletLines(item, width)[0];
      assert line[..1] == BulletGlyph;
      assert line[0] == line[..1][0];
    } else {
      WrapEmptyFirstLine(text, width, BodySize, BodyWrapWidth as real);
    }
  }

  /** Counting the glyph-led rows of a bullet list counts its items in which line 0 starts with the glyph. */
  lemma {:induction false} BulletListLed(wrapped: seq<seq<string>>, led: bool)
    requires forall k :: 0 <= k < |wrapped| ==>
      wrapped[k] != [] && (led <==> |wrapped[k][0]| > 0 && wrapped[k][0][0] == '•')
    ensures CountBulletLed(BulletListRows(wrapped)) == if led then |wrapped| else 0
    decreases |wrapped|
  {
    if wrapped != [] {
      var n := |wrapped| - 1;
      BulletListLed(wrapped[..n], led);
      CountAppend(BulletListRows(wrapped[..n]), BulletRows(wrapped[n], Margin + 10));
      BulletRowsLed(wrapped[n], Margin + 10);
    }
  }

  /** When the glyph fits the wrap width, each item of a bulleted list opens exactly one
      glyph-led row; when it does not, no row starts with the glyph at all. */
  lemma BulletCount(items: seq<string>, width: Metric)
    ensures var count := CountBulletLed(BulletListRows(WrapEach(items, width)));
      (width(BulletGlyph, BodySize) <= BodyWrapWidth as real ==> count == |items|) &&
      (width(BulletGlyph, BodySize) > BodyWrapWidth as real ==> count == 0)
  {
    var wrapped := WrapEach(items, width);
    var led := width(BulletGlyph, BodySize) <= BodyWrapWidth as real;
    forall k | 0 <= k < |wrapped|
      ensures wrapped[k] != [] && (led <==> |wrapped[k][0]| > 0 && wrapped[k][0][0] == '•')
    {
      BulletLinesShape(items[k], width);
    }
    BulletListLed(wrapped, led);
  }

  // ---------------------------------------------------------------------------
  // No page break
  // ---------------------------------------------------------------------------

  /** Each item takes at least one row and the list ends on a drawn line. */
  lemma {:induction false} BulletListLength(wrapped: seq<seq<string>>)
    requires forall k :: 0 <= k < |wrapped| ==> wrapped[k] != []
    ensures var rows := BulletListRows(wrapped);
      |rows| >= |wrapped| && (wrapped != [] ==> rows[|rows| - 1].Line?)
    decreases |wrapped|
  {
    if wrapped != [] {
      BulletListLength(wrapped[..|wrapped| - 1]);
    }
  }

  lemma Page1LastRow(a: AnalysisResult, t: Page1Text)
    requires forall k :: 0 <= k < |t.suggestions| ==> t.suggestions[k] != []
    ensures var rows := Page1RowsOf(a, t);
      |rows| >= 17 + |t.suggestions| && rows[|rows| - 1].Line?
  {
    var rows := Page1RowsOf(a, t);
    var bullets := BulletListRows(t.suggestions);
    BulletListLength(t.suggestions);
    if t.suggestions == [] {
      assert rows[|rows| - 1] == Line(SuggestionsHeading, Margin, 16, true);
    } else {
      assert rows[|rows| - 1] == bullets[|bullets| - 1];
    }
  }

  /** Page 1 grows by a row per suggestion line and is never broken: its last draw is a
      suggestion line 20 points below the row before, at any depth. With 22 suggestions
      or more, that draw lies below the bottom edge of the page. */
  lemma Page1Overflow(a: AnalysisResult, resumeData: Option<ResumeData>, width: Metric)
    ensures var rows := Page1Rows(a, width);
      var d := Report(a, resumeData, width);
      |rows| >= 17 + |a.suggestions| &&
      (exists k :: 0 <= k < |d| && d[k].page == 0 && d[k].y == Top - LineHeight * (|rows| - 1)) &&
      (|a.suggestions| >= 22 ==> exists k :: 0 <= k < |d| && d[k].page == 0 && d[k].y < 0)
  {
    var t := WrapPage1(a, width);
    forall k | 0 <= k < |t.suggestions|
      ensures t.suggestions[k] != []
    {
      BulletLinesShape(a.suggestions[k], width);
    }
    Page1LastRow(a, t);
    var rows := Page1Rows(a, width);
    var last := |rows| - 1;
    var r := rows[last];
    PlaceRow(rows, 0, last);
    var d := Report(a, resumeData, width);
    InPrefix(Place(rows, 0), d);
    var p := Draw(0, r.text, r.x, Top - LineHeight * last, r.size, r.bold);
    assert p in d;
    var k :| 0 <= k < |d| && d[k] == p;
  }

  // ---------------------------------------------------------------------------
  // Page 2
  // ---------------------------------------------------------------------------

  /** Present but empty lists still add page 2, which then carries only its title. */
  lemma EmptyListsAddPage(r: ResumeData, width: Metric)
    requires r.personalInfo.None?
    requires r.skills.None? || r.skills.value == []
    requires r.experience.None? || r.experience.value == []
    requires r.education.None? || r.education.value == []
    requires r.skills.Some? || r.experience.Some? || r.education.Some?
    ensures PageCount(Some(r)) == 2
    ensures Page2Rows(r, width) == [Line(ResumeTitle, Margin, 24, true), Blank]
  {
  }

  /** Without resume data, or with every part absent, the report is page 1 alone. */
  lemma NoResumeData(a: AnalysisResult, resumeData: Option<ResumeData>, width: Metric)
    requires resumeData.None? || resumeData.value == ResumeData(None, None, None, None)
    ensures Report(a, resumeData, width) == Place(Page1Rows(a, width), 0)
    ensures PageCount(resumeData) == 1
  {
  }
}
