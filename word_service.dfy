/** The Word export (services/wordService.ts): the sections of the written
    analysis become an HTML document that Word opens, one `<h1>` per section
    and one list item or paragraph per non-blank line, and the download name
    is derived from the requested file name. */
module WordService {
  import opened Types
  import opened JsText

  // ---------------------------------------------------------------------
  // Recognising list lines
  // ---------------------------------------------------------------------

  /** The end of the run of ASCII digits that starts at `i`. */
  function DigitRunEnd(s: string, i: nat): (j: nat)
    requires i <= |s|
    ensures i <= j <= |s|
    ensures j < |s| ==> !IsDigit(s[j])
    decreases |s| - i
  {
    if i < |s| && IsDigit(s[i]) then DigitRunEnd(s, i + 1) else i
  }

  /** Everything the digit run passes over is a digit. */
  lemma {:induction false} DigitRunIsDigits(s: string, i: nat, k: nat)
    requires i <= |s| && i <= k < DigitRunEnd(s, i)
    ensures IsDigit(s[k])
    decreases |s| - i
  {
    if i < k {
      DigitRunIsDigits(s, i + 1, k);
    }
  }

  /** A run of digits ended by a non-digit is the run `DigitRunEnd` finds. */
  lemma {:induction false} DigitRunEndUnique(s: string, i: nat, q: nat)
    requires i <= q < |s|
    requires forall k :: i <= k < q ==> IsDigit(s[k])
    requires !IsDigit(s[q])
    ensures DigitRunEnd(s, i) == q
    decreases q - i
  {
    if i < q {
      DigitRunEndUnique(s, i + 1, q);
    }
  }

  /** `/^\d+\./`: one or more leading digits followed by a full stop. */
  predicate StartsWithNumberDot(t: string) {
    t != [] && IsDigit(t[0]) && DigitRunEnd(t, 0) < |t| && t[DigitRunEnd(t, 0)] == '.'
  }

  /** The same test stated as the pattern reads: some `n >= 1` leading
      characters are all digits and the next one is a full stop. */
  lemma StartsWithNumberDotIff(t: string)
    ensures StartsWithNumberDot(t) <==>
      exists n :: 1 <= n < |t| && t[n] == '.' && forall k :: 0 <= k < n ==> IsDigit(t[k])
  {
    if StartsWithNumberDot(t) {
      var n := DigitRunEnd(t, 0);
      forall k | 0 <= k < n
        ensures IsDigit(t[k])
      {
        DigitRunIsDigits(t, 0, k);
      }
    }
    if exists n :: 1 <= n < |t| && t[n] == '.' && forall k :: 0 <= k < n ==> IsDigit(t[k]) {
      var n :| 1 <= n < |t| && t[n] == '.' && forall k :: 0 <= k < n ==> IsDigit(t[k]);
      DigitRunEndUnique(t, 0, n);
    }
  }

  /** The list-line test on a trimmed line: it starts with `-` or `*`, or
      with digits and a full stop. */
  predicate IsListLine(t: string)
    ensures IsListLine(t) ==> t != [] && (t[0] == '-' || t[0] == '*' || IsDigit(t[0]))
  {
    StartsWith(t, "-") || StartsWith(t, "*") || StartsWithNumberDot(t)
  }

  // ---------------------------------------------------------------------
  // Removing the list marker
  // ---------------------------------------------------------------------

  /** The second alternative of `/^[-*]|\d+\.\s+/` matches at `p`: a digit
      run from `p`, a full stop, and at least one whitespace character. */
  predicate NumberedMarkerAt(s: string, p: nat) {
    p < |s| && IsDigit(s[p])
    && var q := DigitRunEnd(s, p);
       q + 1 < |s| && s[q] == '.' && IsWhitespace(s[q + 1])
  }

  /** Where a numbered marker that matches at `p` ends: the greedy `\s+`
      takes every whitespace character after the full stop. */
  function NumberedMarkerEnd(s: string, p: nat): (e: nat)
    requires NumberedMarkerAt(s, p)
    ensures p + 2 < e <= |s|
    ensures e < |s| ==> !IsWhitespace(s[e])
  {
    SkipWhitespace(s, DigitRunEnd(s, p) + 1)
  }

  /** The leftmost position at or after `p` where a numbered marker matches. */
  function FindNumberedMarker(s: string, p: nat): (r: Option<nat>)
    requires p <= |s|
    ensures r.Some? ==> p <= r.value < |s| && NumberedMarkerAt(s, r.value)
    ensures forall k :: p <= k < (if r.Some? then r.value else |s|) ==> !NumberedMarkerAt(s, k)
    decreases |s| - p
  {
    if p == |s| then None
    else if NumberedMarkerAt(s, p) then Some(p)
    else FindNumberedMarker(s, p + 1)
  }

  /** `replace(/^[-*]|\d+\.\s+/, '')` as written: at position 0 a leading `-`
      or `*` goes first; otherwise the leftmost numbered marker goes, wherever
      in the line it is. The second alternative carries no `^` anchor. */
  function RemoveMarkerAsWritten(t: string): (r: string)
    ensures |r| <= |t|
    ensures (StartsWith(t, "-") || StartsWith(t, "*")) ==> r == t[1..]
  {
    if StartsWith(t, "-") || StartsWith(t, "*") then t[1..]
    else match FindNumberedMarker(t, 0)
      case None => t
      case Some(p) => t[..p] + t[NumberedMarkerEnd(t, p)..]
  }

  /** The three outcomes of the unanchored replace: one leading `-`/`*`
      dropped; else the leftmost `digits '.' whitespace+` cut out of the line
      with the text on both sides kept; else the line unchanged. */
  lemma RemoveMarkerAsWrittenCases(t: string)
    ensures StartsWith(t, "-") || StartsWith(t, "*") ==> RemoveMarkerAsWritten(t) == t[1..]
    ensures !(StartsWith(t, "-") || StartsWith(t, "*")) && FindNumberedMarker(t, 0).Some? ==>
      var p := FindNumberedMarker(t, 0).value; var e := NumberedMarkerEnd(t, p);
      && RemoveMarkerAsWritten(t) == t[..p] + t[e..]
      && |RemoveMarkerAsWritten(t)| == |t| - (e - p)
      && forall k :: 0 <= k < p ==> !NumberedMarkerAt(t, k)
    ensures !(StartsWith(t, "-") || StartsWith(t, "*")) && FindNumberedMarker(t, 0).None? ==>
      RemoveMarkerAsWritten(t) == t
  {
  }

  /** The marker removal the list rule evidently intends,
      `/^([-*]|\d+\.\s+)/`: only a marker at the very start of the line goes. */
  function RemoveLeadingMarker(t: string): (r: string)
    ensures |r| <= |t| && r == t[|t| - |r|..]
  {
    if StartsWith(t, "-") || StartsWith(t, "*") then t[1..]
    else if NumberedMarkerAt(t, 0) then t[NumberedMarkerEnd(t, 0)..]
    else t
  }

  /** What the intended removal drops is exactly a leading list marker: one
      `-` or `*`, or digits, a full stop and the whitespace after it; a line
      with no such marker is left alone. */
  lemma RemoveLeadingMarkerDropsOnlyTheMarker(t: string)
    ensures var d := |t| - |RemoveLeadingMarker(t)|;
      && (StartsWith(t, "-") || StartsWith(t, "*") ==> d == 1)
      && (!(StartsWith(t, "-") || StartsWith(t, "*")) && NumberedMarkerAt(t, 0) ==>
            d == NumberedMarkerEnd(t, 0)
            && (forall k :: 0 <= k < DigitRunEnd(t, 0) ==> IsDigit(t[k]))
            && t[DigitRunEnd(t, 0)] == '.'
            && forall k :: DigitRunEnd(t, 0) < k < d ==> IsWhitespace(t[k]))
      && (!(StartsWith(t, "-") || StartsWith(t, "*")) && !NumberedMarkerAt(t, 0) ==> d == 0)
  {
    if !(StartsWith(t, "-") || StartsWith(t, "*")) && NumberedMarkerAt(t, 0) {
      var q := DigitRunEnd(t, 0);
      forall k | 0 <= k < q
        ensures IsDigit(t[k])
      {
        DigitRunIsDigits(t, 0, k);
      }
      forall k | q < k < NumberedMarkerEnd(t, 0)
        ensures IsWhitespace(t[k])
      {
        SkippedIsWhitespace(t, q + 1, k);
      }
    }
  }

  /** The two agree whenever the line opens with its marker, which is the
      case for every line written as "- x", "* x" or "1. x". */
  lemma MarkerRemovalsAgreeOnLeadingMarkers(t: string)
    requires StartsWith(t, "-") || StartsWith(t, "*") || NumberedMarkerAt(t, 0)
    ensures RemoveMarkerAsWritten(t) == RemoveLeadingMarker(t)
  {
    if !(StartsWith(t, "-") || StartsWith(t, "*")) {
      assert FindNumberedMarker(t, 0) == Some(0);
      assert t[..0] + t[NumberedMarkerEnd(t, 0)..] == t[NumberedMarkerEnd(t, 0)..];
    }
  }

  /** A numbered line without a space after its number keeps its number,
      and the unanchored pattern then cuts a later "2. " out of the middle of
      the line: "1.a 2. b" becomes "1.a b". */
  lemma UnanchoredMarkerCutsMidLine()
    ensures IsListLine("1.a 2. b")
    ensures RemoveMarkerAsWritten("1.a 2. b") == "1.a b"
    ensures RemoveLeadingMarker("1.a 2. b") == "1.a 2. b"
  {
    var t := "1.a 2. b";
    assert DigitRunEnd(t, 0) == 1;
    assert !NumberedMarkerAt(t, 0);
    assert !NumberedMarkerAt(t, 1) && !NumberedMarkerAt(t, 2) && !NumberedMarkerAt(t, 3);
    assert DigitRunEnd(t, 4) == 5;
    assert NumberedMarkerAt(t, 4);
    assert FindNumberedMarker(t, 3) == Some(4);
    assert FindNumberedMarker(t, 0) == Some(4);
    assert NumberedMarkerEnd(t, 4) == 7;
    assert t[..4] + t[7..] == "1.a b";
  }

  /** The text of a list item: the marker removed by the replace as written,
      then trimmed again. */
  function ListItemText(t: string): (r: string)
    ensures Trimmed(r)
    ensures |r| <= |t|
    ensures (StartsWith(t, "-") || StartsWith(t, "*") || NumberedMarkerAt(t, 0)) ==>
      r == Trim(RemoveLeadingMarker(t))
  {
    RemoveMarkerAsWrittenShorter(t);
    Trim(RemoveMarkerAsWritten(t))
  }

  /** The replace never lengthens the line, and it removes what the intended
      pattern removes whenever the line opens with its marker. */
  lemma RemoveMarkerAsWrittenShorter(t: string)
    ensures |RemoveMarkerAsWritten(t)| <= |t|
    ensures (StartsWith(t, "-") || StartsWith(t, "*") || NumberedMarkerAt(t, 0)) ==>
      RemoveMarkerAsWritten(t) == RemoveLeadingMarker(t)
  {
    RemoveMarkerAsWrittenCases(t);
    if StartsWith(t, "-") || StartsWith(t, "*") || NumberedMarkerAt(t, 0) {
      MarkerRemovalsAgreeOnLeadingMarkers(t);
    }
  }

  /** Only one leading `*` goes: "**x**" becomes "*x**". */
  lemma DoubledStarKeepsOne()
    ensures IsListLine("**x**")
    ensures ListItemText("**x**") == "*x**"
  {
    var t := "**x**";
    assert t[..1] == "*";
    var r := t[1..];
    assert RemoveMarkerAsWritten(t) == r;
    assert r == "*x**";
    assert !IsWhitespace(r[0]) && !IsWhitespace(r[|r| - 1]);
    TrimOfTrimmed(r);
  }

  /** "1. Item" becomes "Item". */
  lemma NumberedMarkers()
    ensures IsListLine("1. Item") && ListItemText("1. Item") == "Item"
  {
    var a := "1. Item";
    assert DigitRunEnd(a, 0) == 1;
    assert NumberedMarkerEnd(a, 0) == 3;
    assert RemoveMarkerAsWritten(a) == "Item" by {
      RemoveMarkerAsWrittenShorter(a);
    }
    TrimOfTrimmed("Item");
  }

  /** "1.Item" is a list line but keeps its number. */
  lemma NumberWithoutSpaceStays()
    ensures IsListLine("1.Item") && ListItemText("1.Item") == "1.Item"
  {
    var b := "1.Item";
    assert DigitRunEnd(b, 0) == 1;
    assert RemoveMarkerAsWritten(b) == b by {
      assert !NumberedMarkerAt(b, 0);
      NoMarkerInWord(b, 1);
    }
    TrimOfTrimmed(b);
  }

  /** A tail with no digit holds no numbered marker. */
  lemma {:induction false} NoMarkerInWord(s: string, p: nat)
    requires p <= |s|
    requires forall k :: p <= k < |s| ==> !IsDigit(s[k])
    ensures FindNumberedMarker(s, p) == None
    decreases |s| - p
  {
    if p < |s| {
      NoMarkerInWord(s, p + 1);
    }
  }

  // ---------------------------------------------------------------------
  // Blocks
  // ---------------------------------------------------------------------

  /** What the builder writes: a section heading, a one-item list, or a
      paragraph. */
  datatype Block = Heading(title: string) | ListItem(text: string) | Paragraph(text: string)

  /** The block of one line: list lines lose their marker, every other line
      is the trimmed line itself. */
  function LineBlock(line: string): (b: Block)
    ensures !b.Heading?
  {
    var t := Trim(line);
    if IsListLine(t) then ListItem(ListItemText(t)) else Paragraph(t)
  }

  /** The exporter writes the line "1.a 2. b" as the list item "1.a b". */
  lemma ExportCutsMidLine()
    ensures LineBlock("1.a 2. b") == ListItem("1.a b")
  {
    var t := "1.a 2. b";
    UnanchoredMarkerCutsMidLine();
    TrimOfTrimmed(t);
    TrimOfTrimmed("1.a b");
  }

  /** A line is classified by its trimmed form alone, and a paragraph keeps
      the trimmed line verbatim. */
  lemma LineBlockClassification(line: string)
    ensures LineBlock(line).ListItem? <==> IsListLine(Trim(line))
    ensures LineBlock(line).Paragraph? <==> !IsListLine(Trim(line))
    ensures LineBlock(line).Paragraph? ==> LineBlock(line).text == Trim(line)
    ensures LineBlock(line).ListItem? ==> LineBlock(line).text == ListItemText(Trim(line))
  {
  }

  /** `filter(l => l.trim() !== '')` over the first `n` lines: the lines
      that are not blank, in order (`TrimEmptyIff`: a line trims to the empty
      string exactly when it is all whitespace). */
  function NonBlankPrefix(lines: seq<string>, n: nat): (r: seq<string>)
    requires n <= |lines|
    ensures |r| <= n
  {
    if n == 0 then []
    else
      var rest := NonBlankPrefix(lines, n - 1);
      if AllWhitespace(lines[n - 1]) then rest else rest + [lines[n - 1]]
  }

  function NonBlank(lines: seq<string>): (r: seq<string>)
    ensures |r| <= |lines|
  {
    NonBlankPrefix(lines, |lines|)
  }

  /** The filter keeps every non-blank line. */
  lemma {:induction false} NonBlankPrefixKeepsNonBlank(lines: seq<string>, n: nat, k: nat)
    requires k < n <= |lines| && !AllWhitespace(lines[k])
    ensures lines[k] in NonBlankPrefix(lines, n)
  {
    var rest := NonBlankPrefix(lines, n - 1);
    if k < n - 1 {
      NonBlankPrefixKeepsNonBlank(lines, n - 1, k);
      assert rest <= NonBlankPrefix(lines, n);
    } else {
      assert NonBlankPrefix(lines, n) == rest + [lines[k]];
    }
  }

  /** The filter keeps only lines of the input, and no blank one. */
  lemma {:induction false} NonBlankPrefixKeepsOnly(lines: seq<string>, n: nat, k: nat)
    requires n <= |lines| && k < |NonBlankPrefix(lines, n)|
    ensures NonBlankPrefix(lines, n)[k] in lines[..n]
    ensures !AllWhitespace(NonBlankPrefix(lines, n)[k])
  {
    var rest := NonBlankPrefix(lines, n - 1);
    if k < |rest| {
      NonBlankPrefixKeepsOnly(lines, n - 1, k);
      assert lines[..n - 1] <= lines[..n];
    }
  }

  /** With no blank line, the filter keeps everything. */
  lemma {:induction false} NonBlankPrefixAll(lines: seq<string>, n: nat)
    requires n <= |lines|
    requires forall k :: 0 <= k < n ==> !AllWhitespace(lines[k])
    ensures NonBlankPrefix(lines, n) == lines[..n]
  {
    if n > 0 {
      NonBlankPrefixAll(lines, n - 1);
      assert lines[..n] == lines[..n - 1] + [lines[n - 1]];
    }
  }

  /** What `filter(l => l.trim() !== '')` promises: it keeps every line that
      does not trim to nothing and only lines of the input, none of the lines
      it keeps is blank, and a list with no blank line is kept whole; line by
      line, the last line is kept after the others exactly when it is not
      blank, so order and repetitions are those of the input. */
  lemma NonBlankKeeps(lines: seq<string>)
    ensures forall l :: l in lines && Trim(l) != [] ==> l in NonBlank(lines)
    ensures forall l :: l in NonBlank(lines) ==> l in lines
    ensures forall k :: 0 <= k < |NonBlank(lines)| ==> Trim(NonBlank(lines)[k]) != []
    ensures (forall k :: 0 <= k < |lines| ==> Trim(lines[k]) != []) ==> NonBlank(lines) == lines
    ensures lines == [] ==> NonBlank(lines) == []
    ensures lines != [] ==>
      var last := lines[|lines| - 1];
      NonBlank(lines) == NonBlank(lines[..|lines| - 1]) + (if Trim(last) == [] then [] else [last])
  {
    var n := |lines|;
    if n > 0 {
      NonBlankPrefixSameLines(lines, lines[..n - 1], n - 1);
      TrimEmptyIff(lines[n - 1]);
    }
    assert lines[..n] == lines;
    forall l | l in lines && Trim(l) != []
      ensures l in NonBlank(lines)
    {
      var k :| 0 <= k < n && lines[k] == l;
      TrimEmptyIff(l);
      NonBlankPrefixKeepsNonBlank(lines, n, k);
    }
    forall k | 0 <= k < |NonBlank(lines)|
      ensures NonBlank(lines)[k] in lines && Trim(NonBlank(lines)[k]) != []
    {
      NonBlankPrefixKeepsOnly(lines, n, k);
      TrimEmptyIff(NonBlank(lines)[k]);
    }
    if forall k :: 0 <= k < n ==> Trim(lines[k]) != [] {
      forall k | 0 <= k < n
        ensures !AllWhitespace(lines[k])
      {
        TrimEmptyIff(lines[k]);
      }
      NonBlankPrefixAll(lines, n);
    }
  }

  /** The filter over the first `n` lines looks at those lines only. */
  lemma {:induction false} NonBlankPrefixSameLines(a: seq<string>, b: seq<string>, n: nat)
    requires n <= |a| && n <= |b| && a[..n] == b[..n]
    ensures NonBlankPrefix(a, n) == NonBlankPrefix(b, n)
  {
    if n > 0 {
      assert a[..n - 1] == a[..n][..n - 1] && b[..n - 1] == b[..n][..n - 1];
      assert a[n - 1] == a[..n][n - 1] && b[n - 1] == b[..n][n - 1];
      NonBlankPrefixSameLines(a, b, n - 1);
    }
  }

  lemma {:induction false} NonBlankPrefixShift(a: seq<string>, b: seq<string>, k: nat)
    requires k <= |b|
    ensures NonBlankPrefix(a + b, |a| + k) == NonBlank(a) + NonBlankPrefix(b, k)
  {
    if k == 0 {
      assert (a + b)[..|a|] == a[..|a|];
      NonBlankPrefixSameLines(a + b, a, |a|);
    } else {
      NonBlankPrefixShift(a, b, k - 1);
      assert (a + b)[|a| + k - 1] == b[k - 1];
    }
  }

  /** Filtering two lists of lines one after the other is filtering their
      concatenation: nothing is reordered, dropped twice or duplicated. */
  lemma NonBlankAppend(a: seq<string>, b: seq<string>)
    ensures NonBlank(a + b) == NonBlank(a) + NonBlank(b)
  {
    NonBlankPrefixShift(a, b, |b|);
  }

  /** The blocks of a list of lines, one per line, in order. */
  function LinesBlocks(lines: seq<string>): (r: seq<Block>)
    ensures |r| == |lines|
  {
    seq(|lines|, k requires 0 <= k < |lines| => LineBlock(lines[k]))
  }

  /** The lines of a section's content that produce output. */
  function SectionLines(section: WordSection): seq<string> {
    NonBlank(Split(section.content, '\n'))
  }

  /** One heading, then one block per non-blank line. */
  function SectionBlocks(section: WordSection): (r: seq<Block>)
    ensures |r| == 1 + |SectionLines(section)|
    ensures r[0] == Heading(section.title)
    ensures forall k :: 1 <= k < |r| ==> !r[k].Heading?
  {
    [Heading(section.title)] + LinesBlocks(SectionLines(section))
  }

  /** A section's only heading is its own title. */
  lemma SectionHeadings(section: WordSection)
    ensures HeadingTitles(SectionBlocks(section)) == [section.title]
  {
    var lb := LinesBlocks(SectionLines(section));
    HeadingTitlesAppend([Heading(section.title)], lb);
    NoHeadingsAmongLines(SectionLines(section), |lb|);
    assert lb[..|lb|] == lb;
    assert HeadingTitles([Heading(section.title)]) == [section.title];
  }

  /** The blocks of all sections, in section order. */
  function DocumentBlocks(sections: seq<WordSection>): (r: seq<Block>)
    ensures |r| >= |sections|
    ensures r == [] <==> sections == []
  {
    if sections == [] then []
    else DocumentBlocks(sections[..|sections| - 1]) + SectionBlocks(sections[|sections| - 1])
  }

  /** The titles of the heading blocks, in order. */
  function HeadingTitles(blocks: seq<Block>): seq<string> {
    if blocks == [] then []
    else
      var b := blocks[|blocks| - 1];
      HeadingTitles(blocks[..|blocks| - 1]) + (if b.Heading? then [b.title] else [])
  }

  lemma {:induction false} HeadingTitlesAppend(a: seq<Block>, b: seq<Block>)
    ensures HeadingTitles(a + b) == HeadingTitles(a) + HeadingTitles(b)
    decreases |b|
  {
    if b != [] {
      var init := b[..|b| - 1];
      assert (a + b)[..|a + b| - 1] == a + init;
      HeadingTitlesAppend(a, init);
    } else {
      assert a + b == a;
    }
  }

  lemma {:induction false} NoHeadingsAmongLines(lines: seq<string>, n: nat)
    requires n <= |lines|
    ensures HeadingTitles(LinesBlocks(lines)[..n]) == []
  {
    if n > 0 {
      var bs := LinesBlocks(lines);
      assert bs[..n][..n - 1] == bs[..n - 1];
      NoHeadingsAmongLines(lines, n - 1);
    }
  }

  /** The section titles, in order. */
  function Titles(sections: seq<WordSection>): (r: seq<string>)
    ensures |r| == |sections|
  {
    seq(|sections|, k requires 0 <= k < |sections| => sections[k].title)
  }

  lemma TitlesSnoc(sections: seq<WordSection>)
    requires sections != []
    ensures Titles(sections) == Titles(sections[..|sections| - 1]) + [sections[|sections| - 1].title]
  {
  }

  /** Adding a section adds exactly its title to the headings. */
  lemma HeadingTitlesStep(sections: seq<WordSection>)
    requires sections != []
    ensures HeadingTitles(DocumentBlocks(sections))
            == HeadingTitles(DocumentBlocks(sections[..|sections| - 1])) + [sections[|sections| - 1].title]
  {
    var init, s := sections[..|sections| - 1], sections[|sections| - 1];
    HeadingTitlesAppend(DocumentBlocks(init), SectionBlocks(s));
    SectionHeadings(s);
  }

  /** Each section contributes exactly one heading, its own title, and the
      headings appear in section order. */
  lemma {:induction false} HeadingsFollowSections(sections: seq<WordSection>)
    ensures HeadingTitles(DocumentBlocks(sections)) == Titles(sections)
  {
    if sections != [] {
      HeadingsFollowSections(sections[..|sections| - 1]);
      HeadingTitlesStep(sections);
      TitlesSnoc(sections);
    }
  }

  // ---------------------------------------------------------------------
  // HTML
  // ---------------------------------------------------------------------

  /** The markup of one block; the text goes in verbatim, with no escaping. */
  function RenderBlock(b: Block): string {
    match b
    case Heading(title) => "<h1>" + title + "</h1>"
    case ListItem(text) => "<ul><li>" + text + "</li></ul>"
    case Paragraph(text) => "<p>" + text + "</p>"
  }

  function RenderBlocks(blocks: seq<Block>): string {
    if blocks == [] then ""
    else RenderBlocks(blocks[..|blocks| - 1]) + RenderBlock(blocks[|blocks| - 1])
  }

  /** Rendering distributes over concatenation of block lists. */
  lemma {:induction false} RenderBlocksAppend(a: seq<Block>, b: seq<Block>)
    ensures RenderBlocks(a + b) == RenderBlocks(a) + RenderBlocks(b)
    decreases |b|
  {
    if b != [] {
      var init := b[..|b| - 1];
      assert (a + b)[..|a + b| - 1] == a + init;
      RenderBlocksAppend(a, init);
    } else {
      assert a + b == a;
    }
  }

  /** A text that cannot close or open a tag. */
  predicate NoMarkup(text: string) {
    '<' !in text
  }

  predicate PlainBlock(b: Block) {
    match b
    case Heading(t) => NoMarkup(t)
    case ListItem(t) => NoMarkup(t)
    case Paragraph(t) => NoMarkup(t)
  }

  /** The text of a block ends at the first `<` after its opening tag. */
  lemma OpeningTagAndText(b: Block, rest: string)
    requires PlainBlock(b)
    ensures var s := RenderBlock(b) + rest; var o := |OpeningTag(b)|;
      && s[..o] == OpeningTag(b)
      && IndexFrom(s, '<', o) == o + |BlockText(b)|
      && s[o..o + |BlockText(b)|] == BlockText(b)
  {
    var s := RenderBlock(b) + rest;
    var open, t, close := OpeningTag(b), BlockText(b), ClosingTag(b);
    RenderBlockParts(b);
    ConcatAssociative(open + t, close, rest);
    ConcatAssociative(open, t, close + rest);
    assert s == open + t + (close + rest);
    var o := |open|;
    assert s[o + |t|] == '<';
    forall k | o <= k < o + |t|
      ensures s[k] != '<'
    {
      assert s[k] == t[k - o];
    }
    IndexFromReaches(s, '<', o, o + |t|);
  }

  lemma RenderBlockParts(b: Block)
    ensures RenderBlock(b) == OpeningTag(b) + BlockText(b) + ClosingTag(b)
    ensures ClosingTag(b)[0] == '<'
    ensures PlainBlock(b) <==> NoMarkup(BlockText(b))
  {
  }

  lemma {:induction false} IndexFromReaches(s: string, c: char, i: nat, j: nat)
    requires i <= j < |s| && s[j] == c
    requires forall k :: i <= k < j ==> s[k] != c
    ensures IndexFrom(s, c, i) == j
    decreases j - i
  {
    if i < j {
      IndexFromReaches(s, c, i + 1, j);
    }
  }

  function OpeningTag(b: Block): string {
    match b
    case Heading(_) => "<h1>"
    case ListItem(_) => "<ul><li>"
    case Paragraph(_) => "<p>"
  }

  function ClosingTag(b: Block): string {
    match b
    case Heading(_) => "</h1>"
    case ListItem(_) => "</li></ul>"
    case Paragraph(_) => "</p>"
  }

  function BlockText(b: Block): string {
    match b
    case Heading(t) => t
    case ListItem(t) => t
    case Paragraph(t) => t
  }

  /** When no text holds a `<`, the markup of a block is readable back off
      the front of the document: the kind from the opening tag and the text up
      to the next `<`. */
  lemma RenderBlockPrefixFree(b1: Block, r1: string, b2: Block, r2: string)
    requires PlainBlock(b1) && PlainBlock(b2)
    requires RenderBlock(b1) + r1 == RenderBlock(b2) + r2
    ensures b1 == b2 && r1 == r2
  {
    var s := RenderBlock(b1) + r1;
    SameOpeningTag(b1, r1, b2, r2);
    OpeningTagAndText(b1, r1);
    OpeningTagAndText(b2, r2);
    SameKindAndText(b1, b2);
    assert r1 == s[|RenderBlock(b1)|..];
  }

  /** The second character of the markup tells the three opening tags apart. */
  lemma SameOpeningTag(b1: Block, r1: string, b2: Block, r2: string)
    requires RenderBlock(b1) + r1 == RenderBlock(b2) + r2
    ensures OpeningTag(b1) == OpeningTag(b2)
  {
    var s := RenderBlock(b1) + r1;
    assert s[1] == OpeningTag(b1)[1];
    assert s[1] == OpeningTag(b2)[1];
  }

  lemma SameKindAndText(b1: Block, b2: Block)
    requires OpeningTag(b1) == OpeningTag(b2) && BlockText(b1) == BlockText(b2)
    ensures b1 == b2
  {
  }

  lemma RenderBlocksCons(b: Block, rest: seq<Block>)
    ensures RenderBlocks([b] + rest) == RenderBlock(b) + RenderBlocks(rest)
  {
    RenderBlocksAppend([b], rest);
    assert RenderBlocks([b]) == RenderBlock(b);
  }

  /** Only the empty list renders to nothing. */
  lemma RenderBlocksNonEmpty(bs: seq<Block>)
    requires bs != []
    ensures RenderBlocks(bs) != ""
  {
    assert |RenderBlock(bs[|bs| - 1])| > 0;
  }

  /** With no `<` in any title or line, different block lists give different
      documents: the content determines the sections' structure. */
  lemma {:induction false} RenderBlocksInjective(a: seq<Block>, b: seq<Block>)
    requires forall k :: 0 <= k < |a| ==> PlainBlock(a[k])
    requires forall k :: 0 <= k < |b| ==> PlainBlock(b[k])
    requires RenderBlocks(a) == RenderBlocks(b)
    ensures a == b
    decreases |a| + |b|
  {
    if a != [] && b != [] {
      RenderBlocksCons(a[0], a[1..]);
      RenderBlocksCons(b[0], b[1..]);
      assert [a[0]] + a[1..] == a;
      assert [b[0]] + b[1..] == b;
      RenderBlockPrefixFree(a[0], RenderBlocks(a[1..]), b[0], RenderBlocks(b[1..]));
      RenderBlocksInjective(a[1..], b[1..]);
    } else if a != [] {
      RenderBlocksNonEmpty(a);
    } else if b != [] {
      RenderBlocksNonEmpty(b);
    }
  }

  /** Text goes in verbatim: a title holding markup renders exactly like two
      sections, so the structure is lost once a text contains a tag. */
  lemma MarkupInTitleIsNotEscaped()
    ensures RenderBlocks([Heading("a</h1><h1>b")]) == RenderBlocks([Heading("a"), Heading("b")])
  {
    assert [Heading("a"), Heading("b")][..1] == [Heading("a")];
  }

  /** The content string of the builder. */
  function WordBody(sections: seq<WordSection>): (r: string)
    ensures r == [] <==> sections == []
  {
    RenderBlocks(DocumentBlocks(sections))
  }

  /** The outer `forEach` over the sections that builds `content` with `+=`. */
  method BuildContent(sections: seq<WordSection>) returns (content: string)
    ensures content == WordBody(sections)
  {
    content := "";
    var i := 0;
    while i < |sections|
      invariant 0 <= i <= |sections|
      invariant content == RenderBlocks(DocumentBlocks(sections[..i]))
    {
      content := AppendSection(content, sections[i]);
      DocumentBlocksStep(sections, i);
      RenderBlocksAppend(DocumentBlocks(sections[..i]), SectionBlocks(sections[i]));
      i := i + 1;
    }
    assert sections[..i] == sections;
  }

  /** The body of the outer `forEach`: the heading, then the inner `forEach`
      over the non-blank lines. */
  method AppendSection(content0: string, section: WordSection) returns (content: string)
    ensures content == content0 + RenderBlocks(SectionBlocks(section))
  {
    content := content0 + ("<h1>" + section.title + "</h1>");
    ghost var start := content;
    var lines := NonBlank(Split(section.content, '\n'));
    var j := 0;
    while j < |lines|
      invariant 0 <= j <= |lines|
      invariant content == start + RenderBlocks(LinesBlocks(lines)[..j])
    {
      content := AppendLine(content, lines[j]);
      LinesBlocksStep(lines, j);
      ConcatAssociative(start, RenderBlocks(LinesBlocks(lines)[..j]), RenderBlock(LineBlock(lines[j])));
      j := j + 1;
    }
    assert LinesBlocks(lines)[..j] == LinesBlocks(lines);
    SectionRendering(content0, section);
  }

  /** The body of the inner `forEach`: one list item or one paragraph for a
      non-blank line. */
  method AppendLine(content0: string, line: string) returns (content: string)
    ensures content == content0 + RenderBlock(LineBlock(line))
  {
    var trimmed := Trim(line);
    if IsListLine(trimmed) {
      content := content0 + ("<ul><li>" + Trim(RemoveMarkerAsWritten(trimmed)) + "</li></ul>");
    } else {
      content := content0 + ("<p>" + trimmed + "</p>");
    }
  }

  lemma SectionRendering(content0: string, section: WordSection)
    ensures content0 + RenderBlock(Heading(section.title)) + RenderBlocks(LinesBlocks(SectionLines(section)))
            == content0 + RenderBlocks(SectionBlocks(section))
  {
    RenderBlocksCons(Heading(section.title), LinesBlocks(SectionLines(section)));
  }

  lemma LinesBlocksStep(lines: seq<string>, j: nat)
    requires j < |lines|
    ensures RenderBlocks(LinesBlocks(lines)[..j + 1])
            == RenderBlocks(LinesBlocks(lines)[..j]) + RenderBlock(LineBlock(lines[j]))
  {
    var bs := LinesBlocks(lines)[..j + 1];
    assert bs[..|bs| - 1] == LinesBlocks(lines)[..j];
  }

  lemma DocumentBlocksStep(sections: seq<WordSection>, i: nat)
    requires i < |sections|
    ensures DocumentBlocks(sections[..i + 1]) == DocumentBlocks(sections[..i]) + SectionBlocks(sections[i])
  {
    assert sections[..i + 1][..i] == sections[..i];
  }

  // ---------------------------------------------------------------------
  // The document and its name
  // ---------------------------------------------------------------------

  const HtmlHeader: string :=
    "\n"
    + "    <html xmlns:o='urn:schemas-microsoft-com:office:office' xmlns:w='urn:schemas-microsoft-com:office:word' xmlns='http://www.w3.org/TR/REC-html40'>\n"
    + "    <head><meta charset='utf-8'><title>Export</title>\n"
    + "    <style>\n"
    + "      body { font-family: 'Arial', sans-serif; line-height: 1.5; padding: 1in; }\n"
    + "      h1 { font-size: 16pt; font-weight: bold; margin-top: 20pt; color: #1E293B; border-bottom: 1px solid #E2E8F0; padding-bottom: 5pt; }\n"
    + "      p { font-size: 11pt; margin-bottom: 12pt; text-align: justify; line-height: 1.5; }\n"
    + "      ul { margin-bottom: 12pt; }\n"
    + "      li { margin-bottom: 6pt; list-style-type: disc; margin-left: 20pt; }\n"
    + "    </style>\n"
    + "    </head><body>\n"
    + "  "

  const HtmlFooter: string := "</body></html>"

  const DefaultFileName: string := "Case_Analysis"

  /** `replace(/\s+/g, '_')`: every maximal run of whitespace becomes one `_`. */
  function UnderscoreWhitespace(s: string): (r: string)
    ensures NoWhitespace(r)
    ensures |r| <= |s|
    decreases |s|
  {
    if s == [] then []
    else if IsWhitespace(s[0]) then "_" + UnderscoreWhitespace(s[SkipWhitespace(s, 0)..])
    else [s[0]] + UnderscoreWhitespace(s[1..])
  }

  /** The characters that are neither whitespace nor `_`, in order. */
  function Visible(s: string): string {
    if s == [] then []
    else (if IsWhitespace(s[0]) || s[0] == '_' then [] else [s[0]]) + Visible(s[1..])
  }

  lemma {:induction false} VisibleOfWhitespaceRun(s: string, i: nat)
    requires i <= SkipWhitespace(s, 0)
    ensures Visible(s) == Visible(s[i..])
    decreases i
  {
    if i > 0 {
      SkippedIsWhitespace(s, 0, 0);
      assert s[1..][i - 1..] == s[i..];
      SkipFromOne(s);
      VisibleOfWhitespaceRun(s[1..], i - 1);
    }
  }

  lemma SkipFromOne(s: string)
    requires s != [] && IsWhitespace(s[0])
    ensures SkipWhitespace(s, 0) - 1 <= SkipWhitespace(s[1..], 0)
  {
    SkipShift(s, 1);
  }

  lemma {:induction false} SkipShift(s: string, i: nat)
    requires 1 <= i <= |s|
    ensures SkipWhitespace(s, i) - 1 == SkipWhitespace(s[1..], i - 1)
    decreases |s| - i
  {
    if i < |s| && IsWhitespace(s[i]) {
      SkipShift(s, i + 1);
    }
  }

  /** Apart from the underscores, the name keeps exactly the visible
      characters of the requested one, in order; and a name without
      whitespace is kept as it is. */
  lemma {:induction false} UnderscoreWhitespaceKeepsVisible(s: string)
    ensures Visible(UnderscoreWhitespace(s)) == Visible(s)
    ensures NoWhitespace(s) ==> UnderscoreWhitespace(s) == s
    decreases |s|
  {
    if s != [] {
      var r := UnderscoreWhitespace(s);
      if IsWhitespace(s[0]) {
        var j := SkipWhitespace(s, 0);
        UnderscoreWhitespaceKeepsVisible(s[j..]);
        VisibleOfWhitespaceRun(s, j);
        assert r[1..] == UnderscoreWhitespace(s[j..]);
      } else {
        UnderscoreWhitespaceKeepsVisible(s[1..]);
        assert r[1..] == UnderscoreWhitespace(s[1..]);
      }
    }
  }

  /** Replacing twice is replacing once. */
  lemma UnderscoreWhitespaceIdempotent(s: string)
    ensures UnderscoreWhitespace(UnderscoreWhitespace(s)) == UnderscoreWhitespace(s)
  {
    UnderscoreWhitespaceKeepsVisible(UnderscoreWhitespace(s));
  }

  /** `UnderscoreWhitespace` goes through a string piece by piece: it can be
      split after any character that is not whitespace. */
  lemma {:induction false} UnderscoreWhitespaceAppend(u: string, x: string)
    requires u == [] || !IsWhitespace(u[|u| - 1])
    ensures UnderscoreWhitespace(u + x) == UnderscoreWhitespace(u) + UnderscoreWhitespace(x)
    decreases |u|
  {
    if u == [] {
      assert u + x == x;
    } else if !IsWhitespace(u[0]) {
      assert (u + x)[1..] == u[1..] + x;
      UnderscoreWhitespaceAppend(u[1..], x);
    } else {
      var q := SkipWhitespace(u, 0);
      if q == |u| {
        SkippedIsWhitespace(u, 0, |u| - 1);
      }
      forall k | 0 <= k < q
        ensures IsWhitespace((u + x)[k])
      {
        SkippedIsWhitespace(u, 0, k);
      }
      SkipWhitespaceReaches(u + x, 0, q);
      assert (u + x)[q..] == u[q..] + x;
      UnderscoreWhitespaceAppend(u[q..], x);
    }
  }

  /** A non-empty run of whitespace followed by anything that does not start
      with whitespace becomes one `_`. */
  lemma UnderscoreWhitespaceRun(w: string, v: string)
    requires w != [] && AllWhitespace(w)
    requires v == [] || !IsWhitespace(v[0])
    ensures UnderscoreWhitespace(w + v) == "_" + UnderscoreWhitespace(v)
  {
    SkipWhitespaceReaches(w + v, 0, |w|);
    assert (w + v)[|w|..] == v;
  }

  /** Each maximal run of whitespace becomes exactly one `_`, and the text on
      either side of it is replaced on its own. */
  lemma UnderscoreWhitespaceOnePerRun(u: string, w: string, v: string)
    requires u == [] || !IsWhitespace(u[|u| - 1])
    requires w != [] && AllWhitespace(w)
    requires v == [] || !IsWhitespace(v[0])
    ensures UnderscoreWhitespace(u + w + v) == UnderscoreWhitespace(u) + "_" + UnderscoreWhitespace(v)
  {
    ConcatAssociative(u, w, v);
    UnderscoreWhitespaceAppend(u, w + v);
    UnderscoreWhitespaceRun(w, v);
    ConcatAssociative(UnderscoreWhitespace(u), "_", UnderscoreWhitespace(v));
  }

  /** The download name: the requested name, or `Case_Analysis` when none is
      given, with whitespace runs replaced, and `.doc` appended. */
  function DownloadName(fileName: Option<string>): (r: string)
    ensures |r| >= 4 && r[|r| - 4..] == ".doc"
    ensures NoWhitespace(r[..|r| - 4])
    ensures fileName.Some? ==> r[..|r| - 4] == UnderscoreWhitespace(fileName.value)
    ensures fileName.None? ==> r == DefaultFileName + ".doc"
  {
    DefaultDownloadName();
    var name := if fileName.Some? then fileName.value else DefaultFileName;
    UnderscoreWhitespace(name) + ".doc"
  }

  /** The default name has no whitespace, so the download is named
      `Case_Analysis.doc`. */
  lemma DefaultNameHasNoWhitespace()
    ensures NoWhitespace(DefaultFileName)
  {
    var d := DefaultFileName;
    forall k | 0 <= k < |d|
      ensures !IsWhitespace(d[k])
    {
      assert '0' <= d[k] <= 'z';
    }
  }

  lemma DefaultDownloadName()
    ensures UnderscoreWhitespace(DefaultFileName) == DefaultFileName
  {
    DefaultNameHasNoWhitespace();
    UnderscoreWhitespaceKeepsVisible(DefaultFileName);
  }

  /** The file handed to the browser: a byte-order mark then the HTML, typed
      as a Word document, under the download name. */
  datatype WordFile = WordFile(parts: seq<string>, mimeType: string, downloadName: string)

  /** `exportToWord` up to the download. */
  method ExportToWord(sections: seq<WordSection>, fileName: Option<string>) returns (file: WordFile)
    ensures file.parts == ["\U{FEFF}", HtmlHeader + WordBody(sections) + HtmlFooter]
    ensures file.mimeType == "application/msword"
    ensures file.downloadName == DownloadName(fileName)
  {
    var content := BuildContent(sections);
    var fullHtml := HtmlHeader + content + HtmlFooter;
    var name := if fileName.Some? then fileName.value else DefaultFileName;
    file := WordFile(["\U{FEFF}", fullHtml], "application/msword", UnderscoreWhitespace(name) + ".doc");
  }
}
