/**
 * Which search patterns Python's `re` module accepts, for the syntax the resume analyzer's patterns
 * use: CPython's pattern parser (`re._parser`, Python 3.12) read one item at a time, with the
 * errors it raises and the positions it reports. A quantifier (`?`, `*`, `+`, `{m,n}`) repeats the
 * item before it and raises when there is none, when that item is an anchor, or when it is
 * already repeated.
 */
module PatternSyntax {
  import opened Wrappers
  import opened Decimal

  /** Python's `MAXREPEAT`: a repeat bound at least this large raises `OverflowError`. */
  const MaxRepeat: nat := 4294967295

  /** The last item of the current branch, as a following quantifier sees it. */
  datatype Previous = Empty | Anchor | Repeated | Item

  /** The errors of the parser, with the positions Python reports. `OverflowError` carries no
      position of its own; `RepeatTooLarge` gives that of the `{`. `OutsideFragment` is not a
      Python error: it marks syntax whose parsing this model does not cover. */
  datatype PatternError =
    | NothingToRepeat(pos: nat)
    | MultipleRepeat(pos: nat)
    | MinGreaterThanMax(pos: nat)
    | RepeatTooLarge(pos: nat)
    | BadEscape(pos: nat)
    | UnterminatedSet(pos: nat)
    | UnbalancedParenthesis(pos: nat)
    | MissingParenthesis(pos: nat)
    | OutsideFragment(pos: nat)

  predicate IsAsciiLetter(c: char)
  {
    'a' <= c <= 'z' || 'A' <= c <= 'Z'
  }

  /** Escapes with their own sub-syntax (hexadecimal, Unicode, named, octal, group reference). */
  predicate SpecialEscape(c: char)
  {
    c == 'x' || c == 'u' || c == 'U' || c == 'N' || IsDigit(c)
  }

  /** `\A`, `\b`, `\B`, `\Z`: the escapes that are anchors. */
  predicate AnchorEscape(c: char)
  {
    c == 'A' || c == 'b' || c == 'B' || c == 'Z'
  }

  /** The classes `\d \D \s \S \w \W` and the control escapes `\a \b \f \n \r \t \v`. */
  predicate ClassOrControlEscape(c: char)
  {
    c == 'd' || c == 'D' || c == 's' || c == 'S' || c == 'w' || c == 'W' ||
    c == 'a' || c == 'b' || c == 'f' || c == 'n' || c == 'r' || c == 't' || c == 'v'
  }

  /** The end of the run of digits that starts at i. */
  function DigitsEnd(p: string, i: nat): (j: nat)
    requires i <= |p|
    ensures i <= j <= |p|
    ensures forall k :: i <= k < j ==> IsDigit(p[k])
    ensures j < |p| ==> !IsDigit(p[j])
    decreases |p| - i
  {
    if i < |p| && IsDigit(p[i]) then DigitsEnd(p, i + 1) else i
  }

  /** The bounds of a brace repeat (`None`: not given) and the index after its `}`. */
  datatype Brace = Brace(lo: Option<nat>, hi: Option<nat>, end: nat)

  /** The value of the digits p[i..j], when there are any. */
  function BoundAt(p: string, i: nat, j: nat): Option<nat>
    requires i <= j <= |p|
    requires forall k :: i <= k < j ==> IsDigit(p[k])
  {
    if i == j then None else Some(DecimalValue(p[i..j]))
  }

  /** The `{` at i starts a repeat `{m}`, `{m,}`, `{,n}`, `{m,n}` or `{,}`; `{}` and a brace of any
      other shape are a literal `{`. Without a comma both bounds are m. */
  function BraceAt(p: string, i: nat): (b: Option<Brace>)
    requires i < |p| && p[i] == '{'
    ensures b.Some? ==> i + 2 <= b.value.end <= |p| && p[b.value.end - 1] == '}'
  {
    if i + 1 < |p| && p[i + 1] == '}' then None
    else
      var loEnd := DigitsEnd(p, i + 1);
      var lo := BoundAt(p, i + 1, loEnd);
      if loEnd < |p| && p[loEnd] == ',' then
        var hiEnd := DigitsEnd(p, loEnd + 1);
        if hiEnd < |p| && p[hiEnd] == '}' then Some(Brace(lo, BoundAt(p, loEnd + 1, hiEnd), hiEnd + 1))
        else None
      else if loEnd < |p| && p[loEnd] == '}' then Some(Brace(lo, lo, loEnd + 1))
      else None
  }

  /** The members of the set opened by the `[` at `start`, from position k on: the index after its
      closing `]`, which does not count as the first member. A range `a-b` is not modelled. */
  function SetEnd(p: string, start: nat, first: nat, k: nat): (r: Result<nat, PatternError>)
    requires start < first <= k <= |p|
    ensures r.Success? ==> first < r.value <= |p| && p[r.value - 1] == ']'
    ensures r.Failure? ==> r.error.pos < |p|
    decreases |p| - k
  {
    if k == |p| then Failure(UnterminatedSet(start))
    else if p[k] == ']' && k > first then Success(k + 1)
    else if p[k] == '\\' && k + 1 == |p| then Failure(OutsideFragment(k))
    else if p[k] == '\\' && SpecialEscape(p[k + 1]) then Failure(OutsideFragment(k))
    else if p[k] == '\\' && IsAsciiLetter(p[k + 1]) && !ClassOrControlEscape(p[k + 1]) then Failure(BadEscape(k))
    else
      var next := if p[k] == '\\' then k + 2 else k + 1;
      if next + 1 < |p| && p[next] == '-' && p[next + 1] != ']' then Failure(OutsideFragment(next))
      else SetEnd(p, start, first, next)
  }

  /** What a quantifier at `pos` finds before it. */
  function RepeatError(prev: Previous, pos: nat): (e: Option<PatternError>)
    ensures e.Some? <==> !prev.Item?
  {
    if prev.Empty? || prev.Anchor? then Some(NothingToRepeat(pos))
    else if prev.Repeated? then Some(MultipleRepeat(pos))
    else None
  }

  /** After a quantifier that ends at `end`: past its lazy `?` or possessive `+`, if any. */
  function SuffixEnd(p: string, end: nat): (j: nat)
    requires end <= |p|
    ensures end <= j <= |p|
  {
    if end < |p| && (p[end] == '?' || p[end] == '+') then end + 1 else end
  }

  /** The parse from position i, with the positions of the groups still open and the last item of
      the current branch: the first error raised, or `None` when the pattern compiles. */
  function Scan(p: string, i: nat, opens: seq<nat>, prev: Previous): (e: Option<PatternError>)
    requires i <= |p|
    requires forall k :: 0 <= k < |opens| ==> opens[k] < |p|
    ensures e.Some? ==> e.value.pos < |p|
    decreases |p| - i
  {
    if i == |p| then
      if opens == [] then None else Some(MissingParenthesis(opens[|opens| - 1]))
    else if p[i] == '\\' then
      if i + 1 == |p| || SpecialEscape(p[i + 1]) then Some(OutsideFragment(i))
      else if IsAsciiLetter(p[i + 1]) && !AnchorEscape(p[i + 1]) && !ClassOrControlEscape(p[i + 1]) then
        Some(BadEscape(i))
      else Scan(p, i + 2, opens, if AnchorEscape(p[i + 1]) then Anchor else Item)
    else if p[i] == '[' then
      var first := if i + 1 < |p| && p[i + 1] == '^' then i + 2 else i + 1;
      match SetEnd(p, i, first, first)
      case Failure(e) => Some(e)
      case Success(end) => Scan(p, end, opens, Item)
    else if p[i] == '(' then
      if i + 1 < |p| && p[i + 1] == '?' then
        if i + 2 < |p| && p[i + 2] == ':' then Scan(p, i + 3, opens + [i], Empty)
        else Some(OutsideFragment(i))
      else Scan(p, i + 1, opens + [i], Empty)
    else if p[i] == ')' then
      if opens == [] then Some(UnbalancedParenthesis(i))
      else Scan(p, i + 1, opens[..|opens| - 1], Item)
    else if p[i] == '|' then Scan(p, i + 1, opens, Empty)
    else if p[i] == '^' || p[i] == '$' then Scan(p, i + 1, opens, Anchor)
    else if p[i] == '?' || p[i] == '*' || p[i] == '+' then
      if RepeatError(prev, i).Some? then RepeatError(prev, i)
      else Scan(p, SuffixEnd(p, i + 1), opens, Repeated)
    else if p[i] == '{' then
      match BraceAt(p, i)
      case None => Scan(p, i + 1, opens, Item)
      case Some(b) =>
        if (b.lo.Some? && b.lo.value >= MaxRepeat) || (b.hi.Some? && b.hi.value >= MaxRepeat) then
          Some(RepeatTooLarge(i))
        else if b.lo.Some? && b.hi.Some? && b.hi.value < b.lo.value then Some(MinGreaterThanMax(i + 1))
        else if RepeatError(prev, i).Some? then RepeatError(prev, i)
        else Scan(p, SuffixEnd(p, b.end), opens, Repeated)
    else Scan(p, i + 1, opens, Item)
  }

  /** `re.compile(pattern)`: the error it raises, or `None` when the pattern compiles. */
  function SyntaxError(pattern: string): (e: Option<PatternError>)
    ensures e.Some? ==> e.value.pos < |pattern|
  {
    Scan(pattern, 0, [], Empty)
  }

  // One step of the parse for each kind of item: what `Scan` does at position i, stated over any
  // pattern that has that item there.

  /** A quantifier right after `^` or `$` has nothing to repeat, wherever the anchor stands. */
  lemma AnchorThenRepeat(p: string, i: nat, opens: seq<nat>, prev: Previous)
    requires i + 1 < |p| && (p[i] == '^' || p[i] == '$')
    requires p[i + 1] == '?' || p[i + 1] == '*' || p[i + 1] == '+'
    requires forall k :: 0 <= k < |opens| ==> opens[k] < |p|
    ensures Scan(p, i, opens, prev) == Some(NothingToRepeat(i + 1))
  {
    assert Scan(p, i, opens, prev) == Scan(p, i + 1, opens, Anchor);
  }

  /** `^` and `$` are anchors. */
  lemma AnchorStep(p: string, i: nat, opens: seq<nat>, prev: Previous)
    requires i < |p| && (p[i] == '^' || p[i] == '$')
    requires forall k :: 0 <= k < |opens| ==> opens[k] < |p|
    ensures Scan(p, i, opens, prev) == Scan(p, i + 1, opens, Anchor)
  {
  }

  /** A two-character escape: an anchor for `\A \b \B \Z`, an item for a class, a control
      character or an escaped non-alphanumeric character. */
  lemma EscapeStep(p: string, i: nat, opens: seq<nat>, prev: Previous)
    requires i + 1 < |p| && p[i] == '\\'
    requires AnchorEscape(p[i + 1]) || ClassOrControlEscape(p[i + 1]) || !(IsAsciiLetter(p[i + 1]) || IsDigit(p[i + 1]))
    requires forall k :: 0 <= k < |opens| ==> opens[k] < |p|
    ensures Scan(p, i, opens, prev) == Scan(p, i + 2, opens, if AnchorEscape(p[i + 1]) then Anchor else Item)
  {
  }

  /** `(?:` opens a group whose first branch is empty so far. */
  lemma GroupStep(p: string, i: nat, opens: seq<nat>, prev: Previous)
    requires i + 2 < |p| && p[i] == '(' && p[i + 1] == '?' && p[i + 2] == ':'
    requires forall k :: 0 <= k < |opens| ==> opens[k] < |p|
    ensures Scan(p, i, opens, prev) == Scan(p, i + 3, opens + [i], Empty)
  {
  }

  /** `)` closes the innermost open group, which is then an item. */
  lemma CloseStep(p: string, i: nat, opens: seq<nat>, prev: Previous)
    requires i < |p| && p[i] == ')' && opens != []
    requires forall k :: 0 <= k < |opens| ==> opens[k] < |p|
    ensures Scan(p, i, opens, prev) == Scan(p, i + 1, opens[..|opens| - 1], Item)
  {
  }

  /** `?`, `*` or `+` after an item repeats it. */
  lemma RepeatStep(p: string, i: nat, opens: seq<nat>, prev: Previous)
    requires i < |p| && (p[i] == '?' || p[i] == '*' || p[i] == '+') && prev.Item?
    requires forall k :: 0 <= k < |opens| ==> opens[k] < |p|
    ensures Scan(p, i, opens, prev) == Scan(p, SuffixEnd(p, i + 1), opens, Repeated)
  {
  }

  /** A bound of one digit has that digit's value. */
  lemma SingleDigitValue(p: string, i: nat)
    requires i < |p| && IsDigit(p[i])
    ensures BoundAt(p, i, i + 1) == Some(DigitValue(p[i]))
  {
    var d := p[i..i + 1];
    assert d[0] == p[i] && d[..0] == [];
    assert DecimalValue(d) == 10 * DecimalValue(d[..0]) + DigitValue(d[0]);
  }

  /** `{d}` with one digit: both bounds are d. */
  lemma BraceOneDigit(p: string, i: nat)
    requires i + 2 < |p| && p[i] == '{' && IsDigit(p[i + 1]) && p[i + 2] == '}'
    ensures BraceAt(p, i) == Some(Brace(Some(DigitValue(p[i + 1])), Some(DigitValue(p[i + 1])), i + 3))
  {
    assert DigitsEnd(p, i + 1) == i + 2;
    SingleDigitValue(p, i + 1);
  }

  /** `{d,e}` with one digit on each side. */
  lemma BraceTwoDigits(p: string, i: nat)
    requires i + 4 < |p| && p[i] == '{' && IsDigit(p[i + 1]) && p[i + 2] == ',' && IsDigit(p[i + 3]) && p[i + 4] == '}'
    ensures BraceAt(p, i) == Some(Brace(Some(DigitValue(p[i + 1])), Some(DigitValue(p[i + 3])), i + 5))
  {
    assert DigitsEnd(p, i + 1) == i + 2;
    assert DigitsEnd(p, i + 3) == i + 4;
    SingleDigitValue(p, i + 1);
    SingleDigitValue(p, i + 3);
  }

  /** A brace repeat within bounds after an item repeats it. */
  lemma BraceStep(p: string, i: nat, opens: seq<nat>, prev: Previous, b: Brace)
    requires i < |p| && p[i] == '{' && BraceAt(p, i) == Some(b) && prev.Item?
    requires b.lo.Some? && b.hi.Some? && b.lo.value <= b.hi.value < MaxRepeat
    requires forall k :: 0 <= k < |opens| ==> opens[k] < |p|
    ensures Scan(p, i, opens, prev) == Scan(p, SuffixEnd(p, b.end), opens, Repeated)
  {
  }

  /** The separator set `[-.\s]`: a dash, a dot or white space. */
  lemma SeparatorSet(p: string, i: nat, opens: seq<nat>, prev: Previous)
    requires i + 5 < |p| && p[i] == '[' && p[i + 1] == '-' && p[i + 2] == '.'
    requires p[i + 3] == '\\' && p[i + 4] == 's' && p[i + 5] == ']'
    requires forall k :: 0 <= k < |opens| ==> opens[k] < |p|
    ensures Scan(p, i, opens, prev) == Scan(p, i + 6, opens, Item)
  {
    assert SetEnd(p, i, i + 1, i + 3) == Success(i + 6);
    assert SetEnd(p, i, i + 1, i + 1) == Success(i + 6);
  }

  // Pieces of the analyzer's phone pattern, each an item followed by its quantifier. A quantifier
  // is not followed by `?` or `+` when the piece ends the pattern or the next character is another.

  /** Whether a quantifier that ends at j is followed by neither a lazy nor a possessive suffix. */
  predicate PlainEnd(p: string, j: nat)
  {
    j >= |p| || (p[j] != '?' && p[j] != '+')
  }

  /** An optional escaped punctuation character, such as `\(?`. */
  lemma OptionalEscape(p: string, i: nat, opens: seq<nat>, prev: Previous)
    requires i + 2 < |p| && p[i] == '\\' && !(IsAsciiLetter(p[i + 1]) || IsDigit(p[i + 1])) && p[i + 2] == '?'
    requires PlainEnd(p, i + 3)
    requires forall k :: 0 <= k < |opens| ==> opens[k] < |p|
    ensures Scan(p, i, opens, prev) == Scan(p, i + 3, opens, Repeated)
  {
    EscapeStep(p, i, opens, prev);
    RepeatStep(p, i + 2, opens, Item);
  }

  /** Exactly d digits, `\d{d}`. */
  lemma DigitCount(p: string, i: nat, opens: seq<nat>, prev: Previous)
    requires i + 4 < |p| && p[i] == '\\' && p[i + 1] == 'd'
    requires p[i + 2] == '{' && IsDigit(p[i + 3]) && p[i + 4] == '}'
    requires PlainEnd(p, i + 5)
    requires forall k :: 0 <= k < |opens| ==> opens[k] < |p|
    ensures Scan(p, i, opens, prev) == Scan(p, i + 5, opens, Repeated)
  {
    EscapeStep(p, i, opens, prev);
    BraceOneDigit(p, i + 2);
    BraceStep(p, i + 2, opens, Item, Brace(Some(DigitValue(p[i + 3])), Some(DigitValue(p[i + 3])), i + 5));
  }

  /** Between d and e digits, `\d{d,e}`, where d is at most e. */
  lemma DigitRange(p: string, i: nat, opens: seq<nat>, prev: Previous)
    requires i + 6 < |p| && p[i] == '\\' && p[i + 1] == 'd'
    requires p[i + 2] == '{' && IsDigit(p[i + 3]) && p[i + 4] == ',' && IsDigit(p[i + 5]) && p[i + 6] == '}'
    requires DigitValue(p[i + 3]) <= DigitValue(p[i + 5])
    requires PlainEnd(p, i + 7)
    requires forall k :: 0 <= k < |opens| ==> opens[k] < |p|
    ensures Scan(p, i, opens, prev) == Scan(p, i + 7, opens, Repeated)
  {
    EscapeStep(p, i, opens, prev);
    BraceTwoDigits(p, i + 2);
    BraceStep(p, i + 2, opens, Item, Brace(Some(DigitValue(p[i + 3])), Some(DigitValue(p[i + 5])), i + 7));
  }

  /** An optional separator, `[-.\s]?`. */
  lemma OptionalSeparator(p: string, i: nat, opens: seq<nat>, prev: Previous)
    requires i + 6 < |p| && p[i] == '[' && p[i + 1] == '-' && p[i + 2] == '.'
    requires p[i + 3] == '\\' && p[i + 4] == 's' && p[i + 5] == ']' && p[i + 6] == '?'
    requires PlainEnd(p, i + 7)
    requires forall k :: 0 <= k < |opens| ==> opens[k] < |p|
    ensures Scan(p, i, opens, prev) == Scan(p, i + 7, opens, Repeated)
  {
    SeparatorSet(p, i, opens, prev);
    RepeatStep(p, i + 6, opens, Item);
  }
}
