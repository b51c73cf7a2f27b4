/**
  Greedy word wrapping of the PDF report (splitTextToLines in pdf-export.tsx).

  The text is cut at single spaces; words are added to the current line while the
  measured width of the candidate line stays within the maximum, and the current
  line is committed when a word does not fit. The font metric is a foreign call
  (pdf-lib's widthOfTextAtSize), so it is a parameter: any total function.
 */
module TextWrap {

  /** Width of a string set in the regular report font at a point size. */
  type Metric = (string, int) -> real

  // ---------------------------------------------------------------------------
  // Strings: JavaScript's split(" ") and join(" ")
  // ---------------------------------------------------------------------------

  /** The position of the first space in `s`. */
  function FirstSpace(s: string): (i: nat)
    requires ' ' in s
    ensures i < |s| && s[i] == ' ' && ' ' !in s[..i]
  {
    if s[0] == ' ' then 0
    else
      var j := FirstSpace(s[1..]);
      assert s[..j + 1] == [s[0]] + s[1..][..j];
      j + 1
  }

  /** Any space with no space before it is the first one. */
  lemma FirstSpaceUnique(s: string, i: nat)
    requires i < |s| && s[i] == ' ' && ' ' !in s[..i]
    ensures FirstSpace(s) == i
  {
  }

  /** `s.split(" ")`: the pieces between single spaces, empty pieces included. */
  function Split(s: string): (pieces: seq<string>)
    ensures |pieces| >= 1
    ensures forall k :: 0 <= k < |pieces| ==> ' ' !in pieces[k]
    decreases |s|
  {
    if ' ' !in s then [s]
    else
      var i := FirstSpace(s);
      [s[..i]] + Split(s[i + 1..])
  }

  /** The items with a separator between each two (JavaScript's and Python's `join`). */
  function JoinWith(items: seq<string>, sep: string): string
  {
    if items == [] then ""
    else if |items| == 1 then items[0]
    else items[0] + sep + JoinWith(items[1..], sep)
  }

  /** `ws.join(" ")`. */
  function Join(ws: seq<string>): string
  {
    JoinWith(ws, " ")
  }

  /** Joining the pieces of a split gives the text back. */
  lemma {:induction false} JoinSplit(s: string)
    ensures Join(Split(s)) == s
    decreases |s|
  {
    if ' ' in s {
      var i := FirstSpace(s);
      var rest := s[i + 1..];
      JoinSplit(rest);
      var pieces := [s[..i]] + Split(rest);
      assert pieces[1..] == Split(rest);
      assert s == s[..i] + " " + rest;
    }
  }

  /** Joining one more word appends a space and the word. */
  lemma {:induction false} JoinSnoc(ws: seq<string>, w: string)
    requires ws != []
    ensures Join(ws + [w]) == Join(ws) + " " + w
  {
    if |ws| > 1 {
      assert (ws + [w])[1..] == ws[1..] + [w];
      JoinSnoc(ws[1..], w);
      assert Join(ws + [w]) == ws[0] + " " + Join(ws[1..] + [w]);
      assert Join(ws) == ws[0] + " " + Join(ws[1..]);
    } else {
      assert (ws + [w])[1..] == [w];
      assert JoinWith([w], " ") == w;
      assert Join(ws + [w]) == ws[0] + " " + JoinWith([w], " ");
    }
  }

  /** A space splits a text into the pieces of its two sides. */
  lemma {:induction false} SplitAround(a: string, b: string)
    ensures Split(a + " " + b) == Split(a) + Split(b)
    decreases |a|
  {
    var s := a + " " + b;
    if ' ' !in a {
      assert s[..|a|] == a;
      FirstSpaceUnique(s, |a|);
      assert s[|a| + 1..] == b;
    } else {
      var j := FirstSpace(a);
      assert s[..j] == a[..j];
      FirstSpaceUnique(s, j);
      assert s[j + 1..] == a[j + 1..] + " " + b;
      SplitAround(a[j + 1..], b);
    }
  }

  /** A piece without spaces splits into itself. */
  lemma SplitWord(w: string)
    requires ' ' !in w
    ensures Split(w) == [w]
  {
  }

  /** The non-empty pieces of a list, in order. */
  function NonEmpty(ws: seq<string>): (r: seq<string>)
  {
    if ws == [] then []
    else NonEmpty(ws[..|ws| - 1]) + (if ws[|ws| - 1] == "" then [] else [ws[|ws| - 1]])
  }

  lemma {:induction false} NonEmptyAppend(a: seq<string>, b: seq<string>)
    ensures NonEmpty(a + b) == NonEmpty(a) + NonEmpty(b)
    decreases |b|
  {
    if b == [] {
      assert a + b == a;
    } else {
      var b', w := b[..|b| - 1], b[|b| - 1];
      var tail := if w == "" then [] else [w];
      assert (a + b)[..|a + b| - 1] == a + b';
      assert (a + b)[|a + b| - 1] == w;
      NonEmptyAppend(a, b');
      assert NonEmpty(a + b) == NonEmpty(a + b') + tail;
      assert NonEmpty(b) == NonEmpty(b') + tail;
    }
  }

  /** The words of a text: the non-empty pieces of `text.split(" ")`. */
  function Tokens(s: string): seq<string>
  {
    NonEmpty(Split(s))
  }

  /** The words of a list of lines, line after line. */
  function LineTokens(lines: seq<string>): seq<string>
  {
    if lines == [] then []
    else LineTokens(lines[..|lines| - 1]) + Tokens(lines[|lines| - 1])
  }

  lemma {:induction false} TokensOfPiece(w: string)
    requires ' ' !in w
    ensures Tokens(w) == if w == "" then [] else [w]
  {
    SplitWord(w);
    assert [w][..0] == [];
    assert NonEmpty([w]) == NonEmpty([]) + (if w == "" then [] else [w]);
  }

  // ---------------------------------------------------------------------------
  // The wrapping algorithm as functions
  // ---------------------------------------------------------------------------

  /** The candidate line: `currentLine ? currentLine + " " + word : word`. */
  function Candidate(current: string, word: string): string
  {
    if current != "" then current + " " + word else word
  }

  /** Adding a word to the candidate adds exactly its piece to the words. */
  lemma TokensCandidate(current: string, word: string)
    ensures Tokens(Candidate(current, word)) == Tokens(current) + Tokens(word)
  {
    if current == "" {
      assert Split("") == [""];
      assert NonEmpty([""]) == NonEmpty([]) + [];
    } else {
      SplitAround(current, word);
      NonEmptyAppend(Split(current), Split(word));
    }
  }

  /** The committed lines so far and the line being filled. */
  datatype WrapState = WrapState(lines: seq<string>, current: string)

  /** One iteration of the loop over the words. */
  function Step(st: WrapState, word: string, width: Metric, size: int, maxWidth: real): WrapState
  {
    var testLine := Candidate(st.current, word);
    if width(testLine, size) <= maxWidth then WrapState(st.lines, testLine)
    else WrapState(st.lines + [st.current], word)
  }

  /** The state after the loop has run over `words`. */
  function Fill(words: seq<string>, width: Metric, size: int, maxWidth: real): WrapState
  {
    if words == [] then WrapState([], "")
    else Step(Fill(words[..|words| - 1], width, size, maxWidth), words[|words| - 1], width, size, maxWidth)
  }

  /** The lines splitTextToLines returns: the committed lines and a non-empty last line. */
  function Wrap(text: string, width: Metric, size: int, maxWidth: real): seq<string>
  {
    var st := Fill(Split(text), width, size, maxWidth);
    if st.current != "" then st.lines + [st.current] else st.lines
  }

  // ---------------------------------------------------------------------------
  // The imperative wrapper
  // ---------------------------------------------------------------------------

  /** splitTextToLines: the greedy loop over the words of `text`. */
  method SplitTextToLines(text: string, width: Metric, fontSize: int, maxWidth: real)
    returns (lines: seq<string>)
    ensures lines == Wrap(text, width, fontSize, maxWidth)
  {
    var words := Split(text);
    lines := [];
    var currentLine := "";
    for i := 0 to |words|
      invariant WrapState(lines, currentLine) == Fill(words[..i], width, fontSize, maxWidth)
    {
      var word := words[i];
      var testLine := if currentLine != "" then currentLine + " " + word else word;
      var textWidth := width(testLine, fontSize);
      if textWidth <= maxWidth {
        currentLine := testLine;
      } else {
        lines := lines + [currentLine];
        currentLine := word;
      }
      assert words[..i + 1][..i] == words[..i];
    }
    assert words[..|words|] == words;
    if currentLine != "" {
      lines := lines + [currentLine];
    }
  }

  // ---------------------------------------------------------------------------
  // What the wrapper guarantees
  // ---------------------------------------------------------------------------

  /** Each word commits at most one line. */
  lemma {:induction false} FillLength(words: seq<string>, width: Metric, size: int, maxWidth: real)
    ensures |Fill(words, width, size, maxWidth).lines| <= |words|
  {
    if words != [] {
      FillLength(words[..|words| - 1], width, size, maxWidth);
    }
  }

  /** There are at most one more lines than pieces of the text. */
  lemma WrapLineCount(text: string, width: Metric, size: int, maxWidth: real)
    ensures |Wrap(text, width, size, maxWidth)| <= |Split(text)| + 1
  {
    FillLength(Split(text), width, size, maxWidth);
  }

  /** A line passed the width test, or is one word started after an overflow and
      never measured alone, or is the empty line committed before the first word. */
  ghost predicate FitOrWord(line: string, words: seq<string>, width: Metric, size: int, maxWidth: real)
  {
    width(line, size) <= maxWidth || line in words
  }

  lemma {:induction false} FillFits(words: seq<string>, width: Metric, size: int, maxWidth: real)
    ensures var st := Fill(words, width, size, maxWidth);
      && (forall k :: 0 <= k < |st.lines| ==>
            FitOrWord(st.lines[k], words, width, size, maxWidth) || (k == 0 && st.lines[k] == ""))
      && (FitOrWord(st.current, words, width, size, maxWidth) || (st.current == "" && st.lines == []))
  {
    if words != [] {
      var init := words[..|words| - 1];
      FillFits(init, width, size, maxWidth);
      assert forall x :: x in init ==> x in words;
    }
  }

  /** Every line either fits within `maxWidth`, or is a single piece of the text that
      did not fit, or is the empty line 0 committed when the first piece did not fit. */
  lemma WrapFits(text: string, width: Metric, size: int, maxWidth: real)
    ensures var lines := Wrap(text, width, size, maxWidth);
      forall k :: 0 <= k < |lines| ==>
        width(lines[k], size) <= maxWidth || lines[k] in Split(text) || (k == 0 && lines[k] == "")
  {
    FillFits(Split(text), width, size, maxWidth);
  }

  lemma {:induction false} FillTokens(words: seq<string>, width: Metric, size: int, maxWidth: real)
    requires forall k :: 0 <= k < |words| ==> ' ' !in words[k]
    ensures var st := Fill(words, width, size, maxWidth);
      LineTokens(st.lines) + Tokens(st.current) == NonEmpty(words)
  {
    if words == [] {
      assert Tokens("") == [] by {
        assert Split("") == [""];
        assert NonEmpty([""]) == NonEmpty([]) + [];
      }
    } else {
      var init, w := words[..|words| - 1], words[|words| - 1];
      var st := Fill(init, width, size, maxWidth);
      assert LineTokens(st.lines) + Tokens(st.current) == NonEmpty(init) by {
        FillTokens(init, width, size, maxWidth);
      }
      assert NonEmpty(words) == NonEmpty(init) + Tokens(w) by {
        TokensOfPiece(w);
      }
      var testLine := Candidate(st.current, w);
      if width(testLine, size) <= maxWidth {
        TokensCandidate(st.current, w);
      } else {
        var lines' := st.lines + [st.current];
        assert LineTokens(lines') == LineTokens(st.lines) + Tokens(st.current) by {
          assert lines'[..|lines'| - 1] == st.lines;
        }
      }
    }
  }

  /** No word is split, dropped or reordered: the words of the lines, read in order,
      are the words of the text. */
  lemma WrapKeepsWords(text: string, width: Metric, size: int, maxWidth: real)
    ensures LineTokens(Wrap(text, width, size, maxWidth)) == Tokens(text)
  {
    var st := Fill(Split(text), width, size, maxWidth);
    FillTokens(Split(text), width, size, maxWidth);
    if st.current != "" {
      var lines := st.lines + [st.current];
      assert lines[..|lines| - 1] == st.lines;
    } else {
      assert Split("") == [""];
      assert NonEmpty([""]) == NonEmpty([]) + [];
    }
  }

  lemma {:induction false} NonEmptyAll(ws: seq<string>)
    requires forall k :: 0 <= k < |ws| ==> ws[k] != ""
    ensures NonEmpty(ws) == ws
  {
    if ws != [] {
      NonEmptyAll(ws[..|ws| - 1]);
    }
  }

  /** For a text without doubled, leading or trailing spaces, the words of the lines
      are exactly `text.split(" ")`. */
  lemma WrapKeepsPieces(text: string, width: Metric, size: int, maxWidth: real)
    requires forall k :: 0 <= k < |Split(text)| ==> Split(text)[k] != ""
    ensures LineTokens(Wrap(text, width, size, maxWidth)) == Split(text)
  {
    WrapKeepsWords(text, width, size, maxWidth);
    NonEmptyAll(Split(text));
  }

  lemma {:induction false} FillFirstTooWide(words: seq<string>, width: Metric, size: int, maxWidth: real)
    requires words != [] && width(words[0], size) > maxWidth
    ensures var st := Fill(words, width, size, maxWidth); st.lines != [] && st.lines[0] == ""
  {
    if |words| > 1 {
      var init := words[..|words| - 1];
      assert init[0] == words[0];
      FillFirstTooWide(init, width, size, maxWidth);
    } else {
      assert words[..0] == [];
    }
  }

  /** When the first piece alone is wider than `maxWidth`, line 0 is the empty string,
      because the current line is still empty when it is committed. */
  lemma WrapEmptyFirstLine(text: string, width: Metric, size: int, maxWidth: real)
    requires width(Split(text)[0], size) > maxWidth
    ensures var lines := Wrap(text, width, size, maxWidth); lines != [] && lines[0] == ""
  {
    FillFirstTooWide(Split(text), width, size, maxWidth);
  }

  lemma {:induction false} FillNoEmpty(words: seq<string>, width: Metric, size: int, maxWidth: real)
    requires words != [] && width(words[0], size) <= maxWidth
    requires forall k :: 0 <= k < |words| ==> words[k] != ""
    ensures var st := Fill(words, width, size, maxWidth);
      st.current != "" && forall k :: 0 <= k < |st.lines| ==> st.lines[k] != ""
  {
    if |words| > 1 {
      var init := words[..|words| - 1];
      assert init[0] == words[0];
      FillNoEmpty(init, width, size, maxWidth);
    } else {
      assert words[..0] == [];
    }
  }

  /** For a text without doubled, leading or trailing spaces whose first word fits,
      no line is empty. */
  lemma WrapNoEmptyLine(text: string, width: Metric, size: int, maxWidth: real)
    requires width(Split(text)[0], size) <= maxWidth
    requires forall k :: 0 <= k < |Split(text)| ==> Split(text)[k] != ""
    ensures var lines := Wrap(text, width, size, maxWidth);
      lines != [] && forall k :: 0 <= k < |lines| ==> lines[k] != ""
  {
    FillNoEmpty(Split(text), width, size, maxWidth);
  }

  /** The empty text gives no line when the empty string fits, and one empty line otherwise. */
  lemma WrapEmptyText(width: Metric, size: int, maxWidth: real)
    ensures Wrap("", width, size, maxWidth) == if width("", size) <= maxWidth then [] else [""]
  {
    var words := Split("");
    assert words == [""];
    assert words[..0] == [];
    assert Fill(words, width, size, maxWidth) == Step(WrapState([], ""), "", width, size, maxWidth);
  }

  /** Is `p` a prefix of `s`? */
  predicate IsPrefix(p: string, s: string)
  {
    |p| <= |s| && s[..|p|] == p
  }

  lemma {:induction false} FillFirstWord(words: seq<string>, width: Metric, size: int, maxWidth: real)
    requires words != [] && words[0] != "" && width(words[0], size) <= maxWidth
    ensures var st := Fill(words, width, size, maxWidth);
      if st.lines == [] then st.current != "" && IsPrefix(words[0], st.current)
      else IsPrefix(words[0], st.lines[0])
  {
    if |words| > 1 {
      var init := words[..|words| - 1];
      assert init[0] == words[0];
      FillFirstWord(init, width, size, maxWidth);
      var st := Fill(init, width, size, maxWidth);
      var testLine := Candidate(st.current, words[|words| - 1]);
      if st.lines == [] {
        assert testLine[..|st.current|] == st.current;
      }
    } else {
      assert words[..0] == [];
    }
  }

  /** When the first piece is a word that fits, line 0 exists and begins with it. */
  lemma WrapFirstWord(text: string, width: Metric, size: int, maxWidth: real)
    requires Split(text)[0] != "" && width(Split(text)[0], size) <= maxWidth
    ensures var lines := Wrap(text, width, size, maxWidth);
      lines != [] && IsPrefix(Split(text)[0], lines[0])
  {
    FillFirstWord(Split(text), width, size, maxWidth);
  }

  lemma {:induction false} FillAllFit(words: seq<string>, width: Metric, size: int, maxWidth: real)
    requires words != [] && words[0] != ""
    requires forall k :: 1 <= k <= |words| ==> width(Join(words[..k]), size) <= maxWidth
    ensures Fill(words, width, size, maxWidth) == WrapState([], Join(words))
  {
    var n := |words|;
    if n == 1 {
      assert words[..0] == [];
      assert words[..1] == words;
    } else {
      var init := words[..n - 1];
      assert init[0] == words[0];
      forall k | 1 <= k <= |init|
        ensures width(Join(init[..k]), size) <= maxWidth
      {
        assert init[..k] == words[..k];
      }
      FillAllFit(init, width, size, maxWidth);
      JoinNonEmpty(init);
      assert words[..n] == words;
      assert words == init + [words[n - 1]];
      JoinSnoc(init, words[n - 1]);
    }
  }

  lemma JoinNonEmpty(ws: seq<string>)
    requires ws != [] && ws[0] != ""
    ensures Join(ws) != ""
  {
  }

  /** When the text does not start with a space and every word-prefix of it fits,
      the result is the text itself on one line. */
  lemma WrapAllFit(text: string, width: Metric, size: int, maxWidth: real)
    requires Split(text)[0] != ""
    requires forall k :: 1 <= k <= |Split(text)| ==> width(Join(Split(text)[..k]), size) <= maxWidth
    ensures Wrap(text, width, size, maxWidth) == [text]
  {
    var words := Split(text);
    FillAllFit(words, width, size, maxWidth);
    JoinSplit(text);
    JoinNonEmpty(words);
  }
}
