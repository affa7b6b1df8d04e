/**
 * The message renderer of v0_design/components/chat-messages.tsx. A message
 * is split into lines and each line is classified in a fixed order (code
 * fence, line inside a code block, `### ` and `## ` headings, `- `/`* `
 * bullets, numbered items, blank lines, paragraphs); running text is scanned
 * for `**bold**` and `` `code` `` spans. The rendered elements are modelled
 * by what they hold, not by their markup.
 */
module ChatMarkdown {
  import opened Options
  import opened Seqs
  import opened Text

  // ---------------------------------------------------------------------------
  // The two inline patterns
  // ---------------------------------------------------------------------------

  /** The characters the regular-expression `.` does not match. */
  predicate IsLineTerminator(c: char) {
    c == '\n' || c == '\r' || c == '\U{2028}' || c == '\U{2029}'
  }

  predicate StarsAt(s: string, j: int) {
    0 <= j && j + 2 <= |s| && s[j] == '*' && s[j + 1] == '*'
  }

  /**
   * The lazy `(.+?)\*\*`, resumed at `k`, closes at `j`: `j` is the first `**`
   * at or after `k`, and no line terminator comes before it.
   */
  predicate ClosesAt(s: string, k: int, j: int) {
    && 0 <= k <= j && StarsAt(s, j)
    && (forall m :: k <= m < j ==> !IsLineTerminator(s[m]))
    && (forall m :: k <= m < j ==> !StarsAt(s, m))
  }

  // The bold pattern `\*\*(.+?)\*\*` matches at `i`, its closing stars at `j`
  // (the content is `s[i + 2..j]`).
  predicate BoldAt(s: string, i: int, j: int) {
    StarsAt(s, i) && i + 2 < |s| && !IsLineTerminator(s[i + 2]) && ClosesAt(s, i + 3, j)
  }

  /** ``/`([^`]+)`/`` matches at `i`, its closing backtick at `j` (the content is `s[i + 1..j]`). */
  predicate TicksAt(s: string, i: int, j: int) {
    0 <= i && i + 2 <= j < |s| && s[i] == '`' && s[j] == '`' &&
    forall m :: i < m < j ==> s[m] != '`'
  }

  /** Where the lazy `(.+?)\*\*`, resumed at `k`, finds its closing stars. */
  function CloseFrom(s: string, k: nat): (r: Option<nat>)
    ensures r.Some? ==> k <= r.value && StarsAt(s, r.value)
    decreases |s| - k
  {
    if k >= |s| then None
    else if StarsAt(s, k) then Some(k)
    else if IsLineTerminator(s[k]) then None
    else CloseFrom(s, k + 1)
  }

  lemma {:induction false} CloseFromCorrect(s: string, k: nat)
    ensures CloseFrom(s, k).Some? ==> ClosesAt(s, k, CloseFrom(s, k).value)
    ensures CloseFrom(s, k).None? ==> forall j :: !ClosesAt(s, k, j)
    decreases |s| - k
  {
    if k < |s| && !StarsAt(s, k) && !IsLineTerminator(s[k]) {
      CloseFromCorrect(s, k + 1);
      assert forall j :: ClosesAt(s, k, j) ==> ClosesAt(s, k + 1, j);
    }
  }

  /** The leftmost bold match starting at or after `from`, as `(start, closing stars)`. */
  function FindBold(s: string, from: nat): (r: Option<(nat, nat)>)
    ensures r.Some? ==> from <= r.value.0 && r.value.0 + 3 <= r.value.1 && StarsAt(s, r.value.0) && StarsAt(s, r.value.1)
    decreases |s| - from
  {
    if from >= |s| then None
    else if StarsAt(s, from) && from + 2 < |s| && !IsLineTerminator(s[from + 2]) && CloseFrom(s, from + 3).Some? then
      Some((from, CloseFrom(s, from + 3).value))
    else FindBold(s, from + 1)
  }

  lemma {:induction false} FindBoldCorrect(s: string, from: nat)
    ensures var r := FindBold(s, from);
      r.Some? ==> BoldAt(s, r.value.0, r.value.1) && forall i, j :: from <= i < r.value.0 ==> !BoldAt(s, i, j)
    ensures FindBold(s, from).None? ==> forall i, j :: from <= i ==> !BoldAt(s, i, j)
    decreases |s| - from
  {
    if from < |s| {
      CloseFromCorrect(s, from + 3);
      if !(StarsAt(s, from) && from + 2 < |s| && !IsLineTerminator(s[from + 2]) && CloseFrom(s, from + 3).Some?) {
        FindBoldCorrect(s, from + 1);
        assert forall j :: !BoldAt(s, from, j);
      }
    }
  }

  function NextTick(s: string, k: nat): (r: Option<nat>)
    ensures r.Some? ==> k <= r.value < |s| && s[r.value] == '`'
    decreases |s| - k
  {
    if k >= |s| then None
    else if s[k] == '`' then Some(k)
    else NextTick(s, k + 1)
  }

  lemma {:induction false} NextTickCorrect(s: string, k: nat)
    ensures NextTick(s, k).Some? ==> forall m :: k <= m < NextTick(s, k).value ==> s[m] != '`'
    ensures NextTick(s, k).None? ==> forall m :: k <= m < |s| ==> s[m] != '`'
    decreases |s| - k
  {
    if k < |s| && s[k] != '`' {
      NextTickCorrect(s, k + 1);
    }
  }

  /** The leftmost code match starting at or after `from`, as `(opening, closing backtick)`. */
  function FindCode(s: string, from: nat): (r: Option<(nat, nat)>)
    ensures r.Some? ==> from <= r.value.0 && r.value.0 + 2 <= r.value.1 < |s| && s[r.value.0] == '`' && s[r.value.1] == '`'
    decreases |s| - from
  {
    if from >= |s| then None
    else if s[from] == '`' && from + 1 < |s| && s[from + 1] != '`' && NextTick(s, from + 2).Some? then
      Some((from, NextTick(s, from + 2).value))
    else FindCode(s, from + 1)
  }

  lemma {:induction false} FindCodeCorrect(s: string, from: nat)
    ensures var r := FindCode(s, from);
      r.Some? ==> TicksAt(s, r.value.0, r.value.1) && forall i, j :: from <= i < r.value.0 ==> !TicksAt(s, i, j)
    ensures FindCode(s, from).None? ==> forall i, j :: from <= i ==> !TicksAt(s, i, j)
    decreases |s| - from
  {
    if from < |s| {
      NextTickCorrect(s, from + 2);
      if !(s[from] == '`' && from + 1 < |s| && s[from + 1] != '`' && NextTick(s, from + 2).Some?) {
        FindCodeCorrect(s, from + 1);
        assert forall j :: !TicksAt(s, from, j);
      }
    }
  }

  /** The match `renderInline` consumes next: where it starts, how long it is, its kind and its captured text. */
  datatype Markup = Markup(index: nat, length: nat, strong: bool, content: string)

  /**
   * The earlier of the bold and the code match; on equal positions bold wins
   * (a code match replaces it only when it starts strictly earlier).
   */
  function Earliest(s: string): (r: Option<Markup>)
    ensures r.Some? ==> r.value.index + r.value.length <= |s| && r.value.length >= 3
  {
    var bold := FindBold(s, 0);
    var code := FindCode(s, 0);
    if code.Some? && (bold.None? || code.value.0 < bold.value.0) then
      var (i, j) := code.value;
      Some(Markup(i, j + 1 - i, false, s[i + 1..j]))
    else if bold.Some? then
      var (i, j) := bold.value;
      Some(Markup(i, j + 2 - i, true, s[i + 2..j]))
    else None
  }

  /** `m` is framed in `s` by its markers and captures what lies between them. */
  predicate Framing(s: string, m: Markup) {
    && m.index + m.length <= |s|
    && (m.strong ==>
          && m.length >= 5 && StarsAt(s, m.index) && StarsAt(s, m.index + m.length - 2)
          && m.content == s[m.index + 2..m.index + m.length - 2])
    && (!m.strong ==>
          && m.length >= 3 && s[m.index] == '`' && s[m.index + m.length - 1] == '`'
          && m.content == s[m.index + 1..m.index + m.length - 1])
  }

  lemma EarliestShape(s: string)
    ensures Earliest(s).Some? ==> Framing(s, Earliest(s).value)
  {
  }

  /**
   * What `renderInline` picks is a real match of its kind, no match of either
   * kind starts earlier, and a code match is only picked where no bold match
   * starts at the same place; when nothing is picked, neither pattern matches
   * anywhere.
   */
  lemma EarliestIsLeftmost(s: string)
    ensures Earliest(s).None? ==> forall i, j :: !BoldAt(s, i, j) && !TicksAt(s, i, j)
    ensures Earliest(s).Some? ==>
      var m := Earliest(s).value;
      forall i, j :: 0 <= i < m.index ==> !BoldAt(s, i, j) && !TicksAt(s, i, j)
    ensures Earliest(s).Some? && Earliest(s).value.strong ==>
      var m := Earliest(s).value;
      BoldAt(s, m.index, m.index + m.length - 2)
    ensures Earliest(s).Some? && !Earliest(s).value.strong ==>
      var m := Earliest(s).value;
      TicksAt(s, m.index, m.index + m.length - 1) && forall j :: !BoldAt(s, m.index, j)
  {
    FindBoldCorrect(s, 0);
    FindCodeCorrect(s, 0);
  }

  // ---------------------------------------------------------------------------
  // renderInline
  // ---------------------------------------------------------------------------

  /** A piece of rendered text: a plain `<span>`, a `<strong>` or a `<code>`. */
  datatype Inline = Span(text: string) | Strong(text: string) | CodeSpan(text: string)

  /** The piece a match becomes. */
  function MarkOf(m: Markup): Inline {
    if m.strong then Strong(m.content) else CodeSpan(m.content)
  }

  /** The plain piece before a match at `m.index`, if there is any text before it. */
  function Before(s: string, m: Markup): seq<Inline>
    requires m.index <= |s|
  {
    if m.index > 0 then [Span(s[..m.index])] else []
  }

  /** The pieces `renderInline` produces, as a function of the text. */
  function InlineTokens(s: string): seq<Inline>
    decreases |s|
  {
    if s == [] then []
    else
      match Earliest(s)
      case None => [Span(s)]
      case Some(m) => Before(s, m) + [MarkOf(m)] + InlineTokens(s[m.index + m.length..])
  }

  /** One round of `renderInline`: the text before the match and the match itself are emitted, the rest remains. */
  lemma InlineTokensMatch(s: string, m: Markup)
    requires s != [] && Earliest(s) == Some(m)
    ensures m.index + m.length <= |s|
    ensures InlineTokens(s) == Before(s, m) + [MarkOf(m)] + InlineTokens(s[m.index + m.length..])
  {
    match Earliest(s) {
      case Some(m') =>
    }
  }

  lemma ConsumeMatch(done: seq<Inline>, remaining: string, m: Markup, all: seq<Inline>)
    requires remaining != [] && Earliest(remaining) == Some(m)
    requires done + InlineTokens(remaining) == all
    ensures m.index + m.length <= |remaining|
    ensures done + Before(remaining, m) + [MarkOf(m)] + InlineTokens(remaining[m.index + m.length..]) == all
  {
    InlineTokensMatch(remaining, m);
    var pre, rest := Before(remaining, m), InlineTokens(remaining[m.index + m.length..]);
    Regroup(done, pre + [MarkOf(m)], rest);
    Regroup(done, pre, [MarkOf(m)]);
  }

  /** `renderInline`: consume the earliest match (and the text before it) until nothing is left. */
  method RenderInline(text: string) returns (parts: seq<Inline>)
    ensures parts == InlineTokens(text)
  {
    parts := [];
    var remaining := text;
    while |remaining| > 0
      invariant parts + InlineTokens(remaining) == InlineTokens(text)
      decreases |remaining|
    {
      var first := Earliest(remaining);
      if first.Some? {
        var m := first.value;
        ConsumeMatch(parts, remaining, m, InlineTokens(text));
        ghost var done := parts;
        if m.index > 0 {
          parts := parts + [Span(remaining[..m.index])];
        }
        if m.strong {
          parts := parts + [Strong(m.content)];
        } else {
          parts := parts + [CodeSpan(m.content)];
        }
        assert parts == done + Before(remaining, m) + [MarkOf(m)];
        remaining := remaining[m.index + m.length..];
      } else {
        assert InlineTokens(remaining) == [Span(remaining)];
        parts := parts + [Span(remaining)];
        remaining := "";
      }
    }
  }

  /** The source text a piece stands for, markers included. */
  function Source(p: Inline): string {
    match p
    case Span(t) => t
    case Strong(t) => "**" + t + "**"
    case CodeSpan(t) => "`" + t + "`"
  }

  function Unparse(parts: seq<Inline>): string
    decreases |parts|
  {
    if parts == [] then "" else Source(parts[0]) + Unparse(parts[1..])
  }

  lemma {:induction false} UnparseAppend(a: seq<Inline>, b: seq<Inline>)
    ensures Unparse(a + b) == Unparse(a) + Unparse(b)
    decreases |a|
  {
    if a == [] {
      assert a + b == b;
    } else {
      assert (a + b)[0] == a[0];
      assert (a + b)[1..] == a[1..] + b;
      UnparseAppend(a[1..], b);
    }
  }

  /** A slice that starts with `open` and ends with `close` is those around what lies between. */
  lemma Framed<T>(s: seq<T>, i: nat, e: nat, open: seq<T>, close: seq<T>)
    requires i + |open| + |close| <= e <= |s|
    requires s[i..i + |open|] == open && s[e - |close|..e] == close
    ensures s[i..e] == open + s[i + |open|..e - |close|] + close
  {
  }

  lemma StarsSlice(s: string, j: int)
    requires StarsAt(s, j)
    ensures s[j..j + 2] == "**"
  {
  }

  lemma TickSlice(s: string, j: nat)
    requires j < |s| && s[j] == '`'
    ensures s[j..j + 1] == "`"
  {
  }

  lemma BoldSource(s: string, m: Markup)
    requires Framing(s, m) && m.strong
    ensures Source(MarkOf(m)) == s[m.index..m.index + m.length]
  {
    var i, e, stars := m.index, m.index + m.length, "**";
    StarsSlice(s, i);
    StarsSlice(s, e - 2);
    Framed(s, i, e, stars, stars);
    assert s[i + |stars|..e - |stars|] == m.content;
    assert Source(MarkOf(m)) == stars + m.content + stars;
  }

  lemma CodeSource(s: string, m: Markup)
    requires Framing(s, m) && !m.strong
    ensures Source(MarkOf(m)) == s[m.index..m.index + m.length]
  {
    var i, e := m.index, m.index + m.length;
    TickSlice(s, i);
    TickSlice(s, e - 1);
    var tick := "`";
    Framed(s, i, e, tick, tick);
    assert s[i + |tick|..e - |tick|] == m.content;
    assert Source(MarkOf(m)) == tick + m.content + tick;
  }

  lemma UnparseSingle(p: Inline)
    ensures Unparse([p]) == Source(p)
  {
    assert Unparse([p]) == Source(p) + Unparse([]);
  }

  lemma UnparseAround(a: seq<Inline>, b: Inline, c: seq<Inline>)
    ensures Unparse(a + [b] + c) == Unparse(a) + Source(b) + Unparse(c)
  {
    UnparseAppend(a + [b], c);
    UnparseAppend(a, [b]);
    UnparseSingle(b);
  }

  lemma UnparseBefore(s: string, m: Markup)
    requires m.index <= |s|
    ensures Unparse(Before(s, m)) == s[..m.index]
  {
    if m.index > 0 {
      UnparseSingle(Span(s[..m.index]));
    }
  }

  lemma Reassemble(s: string, i: nat, e: nat, pre: seq<Inline>, mid: Inline, rest: seq<Inline>)
    requires i <= e <= |s|
    requires Unparse(pre) == s[..i] && Source(mid) == s[i..e] && Unparse(rest) == s[e..]
    ensures Unparse(pre + [mid] + rest) == s
  {
    UnparseAround(pre, mid, rest);
    Thirds(s, i, e);
  }

  lemma Thirds<T>(s: seq<T>, i: nat, e: nat)
    requires i <= e <= |s|
    ensures s[..i] + s[i..e] + s[e..] == s
  {
  }

  /** Nothing is lost: the pieces, with their markers put back, spell the original text. */
  lemma {:induction false} InlineLossless(s: string)
    ensures Unparse(InlineTokens(s)) == s
    decreases |s|
  {
    if s != [] {
      var e := Earliest(s);
      if e.None? {
        InlineTokensNone(s);
        UnparseSingle(Span(s));
      } else {
        var m := e.value;
        var tail := s[m.index + m.length..];
        EarliestShape(s);
        InlineTokensMatch(s, m);
        InlineLossless(tail);
        LosslessStep(s, m, InlineTokens(tail));
      }
    }
  }

  lemma InlineTokensNone(s: string)
    requires s != [] && Earliest(s).None?
    ensures InlineTokens(s) == [Span(s)]
  {
  }

  /** A framed match with the text before it and a lossless rest spells the whole text. */
  lemma LosslessStep(s: string, m: Markup, rest: seq<Inline>)
    requires Framing(s, m) && Unparse(rest) == s[m.index + m.length..]
    ensures Unparse(Before(s, m) + [MarkOf(m)] + rest) == s
  {
    if m.strong {
      BoldSource(s, m);
    } else {
      CodeSource(s, m);
    }
    UnparseBefore(s, m);
    Reassemble(s, m.index, m.index + m.length, Before(s, m), MarkOf(m), rest);
  }

  predicate NoEmptyPiece(parts: seq<Inline>) {
    forall k :: 0 <= k < |parts| ==> parts[k].text != []
  }

  lemma NoEmptyPieceAppend(a: seq<Inline>, b: seq<Inline>)
    requires NoEmptyPiece(a) && NoEmptyPiece(b)
    ensures NoEmptyPiece(a + b)
  {
    forall k | 0 <= k < |a + b| ensures (a + b)[k].text != [] {
      if k >= |a| {
        assert (a + b)[k] == b[k - |a|];
      }
    }
  }

  /** Only a non-empty text yields pieces, and no piece is empty. */
  lemma {:induction false} InlineTokensNonEmpty(s: string)
    ensures InlineTokens(s) == [] <==> s == []
    ensures NoEmptyPiece(InlineTokens(s))
    decreases |s|
  {
    if s != [] {
      match Earliest(s)
      case None =>
        assert InlineTokens(s) == [Span(s)];
      case Some(m) =>
        InlineTokensMatch(s, m);
        InlineTokensNonEmpty(s[m.index + m.length..]);
        EarliestShape(s);
        assert MarkOf(m).text != [];
        NoEmptyPieceAppend(Before(s, m), [MarkOf(m)]);
        NoEmptyPieceAppend(Before(s, m) + [MarkOf(m)], InlineTokens(s[m.index + m.length..]));
    }
  }

  // ---------------------------------------------------------------------------
  // Line classification
  // ---------------------------------------------------------------------------

  /** A rendered element of a message. */
  datatype Block =
    | CodeBlock(lang: string, code: string)
    | Heading3(text: string)
    | Heading2(text: string)
    | Bullet(parts: seq<Inline>)
    | Numbered(number: string, parts: seq<Inline>)
    | Spacer
    | Paragraph(parts: seq<Inline>)

  const FENCE := "```"

  /** The number of leading ASCII digits (`\d`). */
  function LeadingDigits(s: string): (k: nat)
    ensures k <= |s| && AllDigits(s[..k])
    ensures k == |s| || !('0' <= s[k] <= '9')
    decreases |s|
  {
    if s != [] && '0' <= s[0] <= '9' then
      var k := 1 + LeadingDigits(s[1..]);
      assert forall m :: 1 <= m < k ==> s[..k][m] == s[1..][..k - 1][m - 1];
      k
    else 0
  }

  /** The length of the longest prefix without a line terminator (what a greedy `.+` takes). */
  function TextRun(s: string): (k: nat)
    ensures k <= |s| && (forall m :: 0 <= m < k ==> !IsLineTerminator(s[m]))
    ensures k == |s| || IsLineTerminator(s[k])
    decreases |s|
  {
    if s != [] && !IsLineTerminator(s[0]) then 1 + TextRun(s[1..]) else 0
  }

  /**
   * `line.match(/^(\d+)\.\s(.+)/)`: the digits and the item text. The pattern
   * matches exactly when some run of leading digits is followed by `.`, a
   * whitespace character and a character other than a line terminator; the
   * item text runs up to the first line terminator.
   */
  function NumberedItem(line: string): (r: Option<(string, string)>)
    ensures r.Some? ==>
      var (number, text) := r.value;
      && |number| >= 1 && AllDigits(number) && |number| + 2 + |text| <= |line|
      && line[..|number|] == number && line[|number|] == '.' && IsSpace(line[|number| + 1])
      && text != [] && line[|number| + 2..|number| + 2 + |text|] == text
      && (forall m :: 0 <= m < |text| ==> !IsLineTerminator(text[m]))
      && (|number| + 2 + |text| == |line| || IsLineTerminator(line[|number| + 2 + |text|]))
    ensures r.None? ==>
      forall k :: 1 <= k && k + 2 < |line| && AllDigits(line[..k]) && line[k] == '.' && IsSpace(line[k + 1]) ==>
        IsLineTerminator(line[k + 2])
  {
    var k := LeadingDigits(line);
    if 1 <= k && k + 2 < |line| && line[k] == '.' && IsSpace(line[k + 1]) && !IsLineTerminator(line[k + 2]) then
      var run := TextRun(line[k + 2..]);
      var text := line[k + 2..k + 2 + run];
      assert forall m :: 0 <= m < |text| ==> text[m] == line[k + 2..][m];
      Some((line[..k], text))
    else
      assert forall j :: 1 <= j && j + 2 < |line| && AllDigits(line[..j]) && line[j] == '.' ==> j == k by {
        forall j | 1 <= j && j + 2 < |line| && AllDigits(line[..j]) && line[j] == '.'
          ensures j == k
        {
          LeadingDigitsExact(line, j);
        }
      }
      None
  }

  /** Digits up to a non-digit: that is exactly the run `LeadingDigits` counts. */
  lemma {:induction false} LeadingDigitsExact(s: string, j: nat)
    requires j < |s| && AllDigits(s[..j]) && !('0' <= s[j] <= '9')
    ensures LeadingDigits(s) == j
    decreases j
  {
    if j > 0 {
      assert s[..j][0] == s[0];
      assert forall m :: 1 <= m < j ==> s[1..][..j - 1][m - 1] == s[..j][m];
      LeadingDigitsExact(s[1..], j - 1);
    }
  }

  /**
   * The element for a line outside a code block, by the first rule that
   * applies: `### ` heading, `## ` heading, `- ` or `* ` bullet, numbered
   * item, blank line, paragraph. Headings keep their text as is; the others
   * go through `renderInline`.
   */
  function Classify(line: string): (b: Block)
    ensures b.Heading3? <==> StartsWith(line, "### ")
    ensures b.Heading2? <==> !StartsWith(line, "### ") && StartsWith(line, "## ")
    ensures b.Bullet? <==>
      !StartsWith(line, "### ") && !StartsWith(line, "## ") && (StartsWith(line, "- ") || StartsWith(line, "* "))
    ensures b.Numbered? <==>
      !StartsWith(line, "### ") && !StartsWith(line, "## ") && !StartsWith(line, "- ") && !StartsWith(line, "* ") &&
      NumberedItem(line).Some?
    ensures b.Spacer? <==>
      !StartsWith(line, "### ") && !StartsWith(line, "## ") && !StartsWith(line, "- ") && !StartsWith(line, "* ") &&
      NumberedItem(line).None? && Blank(line)
    ensures b.Heading3? ==> line == "### " + b.text
    ensures b.Heading2? ==> line == "## " + b.text
    ensures b.Bullet? ==>
      (StartsWith(line, "- ") || StartsWith(line, "* ")) && b.parts == InlineTokens(line[2..]) && line[2..] == Unparse(b.parts)
    ensures b.Numbered? ==> NumberedItem(line).Some? && b.number == NumberedItem(line).value.0
    ensures b.Numbered? ==>
      b.parts == InlineTokens(NumberedItem(line).value.1) && Unparse(b.parts) == NumberedItem(line).value.1
    ensures b.Spacer? ==> Blank(line)
    ensures b.Paragraph? ==> !Blank(line) && b.parts == InlineTokens(line) && Unparse(b.parts) == line
  {
    if StartsWith(line, "### ") then Heading3(line[4..])
    else if StartsWith(line, "## ") then Heading2(line[3..])
    else if StartsWith(line, "- ") || StartsWith(line, "* ") then
      InlineLossless(line[2..]);
      Bullet(InlineTokens(line[2..]))
    else ClassifyPlain(line)
  }

  /** The rules of `Classify` after the heading and bullet prefixes: a numbered item, a blank line, else a paragraph. */
  function ClassifyPlain(line: string): (b: Block)
    ensures b.Numbered? <==> NumberedItem(line).Some?
    ensures b.Spacer? <==> NumberedItem(line).None? && Blank(line)
    ensures b.Numbered? || b.Spacer? || b.Paragraph?
    ensures b.Numbered? ==>
      && b.number == NumberedItem(line).value.0
      && b.parts == InlineTokens(NumberedItem(line).value.1) && Unparse(b.parts) == NumberedItem(line).value.1
    ensures b.Paragraph? ==> !Blank(line) && b.parts == InlineTokens(line) && Unparse(b.parts) == line
  {
    if NumberedItem(line).Some? then
      InlineLossless(NumberedItem(line).value.1);
      Numbered(NumberedItem(line).value.0, InlineTokens(NumberedItem(line).value.1))
    else if Blank(line) then Spacer
    else
      InlineLossless(line);
      Paragraph(InlineTokens(line))
  }

  // ---------------------------------------------------------------------------
  // renderMarkdown
  // ---------------------------------------------------------------------------

  /** The loop state of `renderMarkdown`: inside a fence or not, the buffered code lines, the language, the elements so far. */
  datatype Scan = Scan(inCode: bool, buffer: seq<string>, lang: string, blocks: seq<Block>)

  const START := Scan(false, [], "", [])

  /**
   * One line: a fence closes an open block (emitting the buffered lines joined
   * with newlines, whatever the closing fence line says) or opens one (its
   * language is the rest of the line, trimmed); inside a block lines are
   * buffered verbatim; any other line becomes one element.
   */
  function Step(st: Scan, line: string): (r: Scan)
    ensures StartsWith(line, FENCE) ==> r.inCode == !st.inCode
    ensures !StartsWith(line, FENCE) ==> r.inCode == st.inCode
    ensures r.blocks == st.blocks || (r.blocks != [] && r.blocks == st.blocks + [Last(r.blocks)])
    ensures st.inCode && !StartsWith(line, FENCE) ==> r.buffer == st.buffer + [line] && r.blocks == st.blocks
    ensures !st.inCode && !StartsWith(line, FENCE) ==> r.blocks == st.blocks + [Classify(line)]
    ensures StartsWith(line, FENCE) && st.inCode ==>
      r == Scan(false, [], "", st.blocks + [CodeBlock(st.lang, Join(st.buffer, '\n'))])
    ensures StartsWith(line, FENCE) && !st.inCode ==>
      r.lang == Trim(line[3..]) && r.buffer == st.buffer && r.blocks == st.blocks
  {
    if StartsWith(line, FENCE) then
      if st.inCode then Scan(false, [], "", st.blocks + [CodeBlock(st.lang, Join(st.buffer, '\n'))])
      else st.(inCode := true, lang := Trim(line[3..]))
    else if st.inCode then st.(buffer := st.buffer + [line])
    else st.(blocks := st.blocks + [Classify(line)])
  }

  /** The state after the given lines, starting from `st`. */
  function Run(st: Scan, lines: seq<string>): Scan
    decreases |lines|
  {
    if lines == [] then st else Step(Run(st, AllButLast(lines)), Last(lines))
  }

  /** What `renderMarkdown` shows for a message: the elements, once every line is read. */
  function Render(content: string): seq<Block> {
    Run(START, Split(content, {'\n'})).blocks
  }

  lemma RunPrefix(lines: seq<string>, i: nat)
    requires i < |lines|
    ensures Run(START, lines[..i + 1]) == Step(Run(START, lines[..i]), lines[i])
  {
    assert AllButLast(lines[..i + 1]) == lines[..i];
  }

  /** `renderMarkdown`: one pass over the lines, one element per line outside code blocks. */
  method RenderMarkdown(content: string) returns (elements: seq<Block>)
    ensures elements == Render(content)
  {
    var lines := Split(content, {'\n'});
    elements := [];
    var inCodeBlock := false;
    var codeBuffer: seq<string> := [];
    var codeLang := "";
    for i := 0 to |lines|
      invariant Scan(inCodeBlock, codeBuffer, codeLang, elements) == Run(START, lines[..i])
    {
      RunPrefix(lines, i);
      var line := lines[i];
      if StartsWith(line, FENCE) {
        if inCodeBlock {
          elements := elements + [CodeBlock(codeLang, Join(codeBuffer, '\n'))];
          codeBuffer := [];
          codeLang := "";
          inCodeBlock := false;
        } else {
          inCodeBlock := true;
          codeLang := Trim(line[3..]);
        }
      } else if inCodeBlock {
        codeBuffer := codeBuffer + [line];
      } else {
        var block: Block;
        if StartsWith(line, "### ") {
          block := Heading3(line[4..]);
        } else if StartsWith(line, "## ") {
          block := Heading2(line[3..]);
        } else if StartsWith(line, "- ") || StartsWith(line, "* ") {
          var parts := RenderInline(line[2..]);
          block := Bullet(parts);
        } else {
          var numbered := NumberedItem(line);
          if numbered.Some? {
            var parts := RenderInline(numbered.value.1);
            block := Numbered(numbered.value.0, parts);
          } else if Trim(line) == "" {
            block := Spacer;
          } else {
            var parts := RenderInline(line);
            block := Paragraph(parts);
          }
        }
        assert block == Classify(line);
        elements := elements + [block];
      }
    }
    assert lines[..|lines|] == lines;
  }

  // ---------------------------------------------------------------------------
  // Properties of the line scan
  // ---------------------------------------------------------------------------

  /** Outside a code block nothing is buffered and no language is pending. */
  predicate Tidy(st: Scan) {
    !st.inCode ==> st.buffer == [] && st.lang == ""
  }

  lemma {:induction false} RunTidy(lines: seq<string>)
    ensures Tidy(Run(START, lines))
    decreases |lines|
  {
    if lines != [] {
      RunTidy(AllButLast(lines));
    }
  }

  lemma {:induction false} RunAppend(st: Scan, a: seq<string>, b: seq<string>)
    ensures Run(st, a + b) == Run(Run(st, a), b)
    decreases |b|
  {
    if b == [] {
      assert a + b == a;
    } else {
      assert AllButLast(a + b) == a + AllButLast(b);
      assert Last(a + b) == Last(b);
      RunAppend(st, a, AllButLast(b));
    }
  }

  predicate NoFence(lines: seq<string>) {
    forall k :: 0 <= k < |lines| ==> !StartsWith(lines[k], FENCE)
  }

  /** Inside a code block, fence-free lines are only buffered, verbatim and in order. */
  lemma {:induction false} RunInsideCode(st: Scan, body: seq<string>)
    requires st.inCode && NoFence(body)
    ensures Run(st, body) == st.(buffer := st.buffer + body)
    decreases |body|
  {
    if body == [] {
      assert st.buffer + body == st.buffer;
    } else {
      RunInsideCode(st, AllButLast(body));
      assert st.buffer + AllButLast(body) + [Last(body)] == st.buffer + body;
    }
  }

  lemma RunSingle(st: Scan, line: string)
    ensures Run(st, [line]) == Step(st, line)
  {
    assert AllButLast([line]) == [];
  }

  lemma FencedBlockFrom(st: Scan, open: string, body: seq<string>, close: string)
    requires !st.inCode && st.buffer == []
    requires StartsWith(open, FENCE) && StartsWith(close, FENCE) && NoFence(body)
    ensures Run(st, [open] + body + [close]) ==
      Scan(false, [], "", st.blocks + [CodeBlock(Trim(open[3..]), Join(body, '\n'))])
  {
    RunSingle(st, open);
    var inside := Step(st, open);
    RunAppend(st, [open], body);
    RunInsideCode(inside, body);
    var full := Run(st, [open] + body);
    assert full == inside.(buffer := body);
    RunAppend(st, [open] + body, [close]);
    RunSingle(full, close);
  }

  /**
   * A fenced block becomes exactly one code element: its language is the
   * trimmed rest of the opening fence and its code is the lines in between
   * joined with newlines.
   */
  lemma FencedBlock(lines: seq<string>, open: string, body: seq<string>, close: string)
    requires !Run(START, lines).inCode
    requires StartsWith(open, FENCE) && StartsWith(close, FENCE) && NoFence(body)
    ensures Run(START, lines + [open] + body + [close]) ==
      Scan(false, [], "", Run(START, lines).blocks + [CodeBlock(Trim(open[3..]), Join(body, '\n'))])
  {
    RunTidy(lines);
    RunAppend(START, lines, [open] + body + [close]);
    RegroupFour(lines, [open], body, [close]);
    FencedBlockFrom(Run(START, lines), open, body, close);
  }

  /** A code block that is never closed shows nothing: its fence and lines add no element. */
  lemma UnterminatedFenceDropped(lines: seq<string>, open: string, body: seq<string>)
    requires !Run(START, lines).inCode
    requires StartsWith(open, FENCE) && NoFence(body)
    ensures Run(START, lines + [open] + body).blocks == Run(START, lines).blocks
    ensures Run(START, lines + [open] + body).inCode
  {
    var before := Run(START, lines);
    var inside := Step(before, open);
    assert inside.inCode && inside.blocks == before.blocks;
    RunSingle(before, open);
    RunAppend(before, [open], body);
    RunInsideCode(inside, body);
    RunAppend(START, lines, [open] + body);
    Regroup(lines, [open], body);
  }

  /** Elements are only ever appended, at most one per line. */
  lemma {:induction false} BlocksAtMostLines(lines: seq<string>)
    ensures |Run(START, lines).blocks| <= |lines|
    decreases |lines|
  {
    if lines != [] {
      BlocksAtMostLines(AllButLast(lines));
    }
  }
}
