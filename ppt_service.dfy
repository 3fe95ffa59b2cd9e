/** The presentation exporter (services/pptService.ts): the font-size rule,
    the logo filter, the text runs and frames handed to the slide library,
    and the download name. The library itself is a sink, `Presentation`,
    that records one list of drawing commands per slide. */
module PptService {
  import opened Types
  import opened JsText

  const MaxTitle: real := 32.0
  const MaxBody: real := 20.0
  const CanvasWidth: real := 13.33
  const CanvasHeight: real := 7.5

  function Min(a: real, b: real): real {
    if a <= b then a else b
  }

  function Max(a: real, b: real): real {
    if a >= b then a else b
  }

  // ---------------------------------------------------------------------
  // Logo filter
  // ---------------------------------------------------------------------

  /** A case-insensitive ".svg" starts at index `i` of `u`. */
  predicate SvgExtensionAt(u: string, i: int) {
    0 <= i && i + 4 <= |u|
    && u[i] == '.' && (u[i + 1] == 's' || u[i + 1] == 'S')
    && (u[i + 2] == 'v' || u[i + 2] == 'V') && (u[i + 3] == 'g' || u[i + 3] == 'G')
  }

  /** `isValidImageUrl`: a URL is used for a logo only when it is present,
      non-empty, starts with "http" and its lower-cased form has no ".svg". */
  function IsValidImageUrl(url: Option<string>): (ok: bool)
    ensures ok ==> url.Some? && StartsWith(url.value, "http")
  {
    if url.None? || url.value == "" || !StartsWith(url.value, "http") then false
    else
      var lowerUrl := ToLowerAscii(url.value);
      !Contains(lowerUrl, ".svg")
  }

  /** The lower-cased URL contains ".svg" exactly when the URL itself has a
      ".svg" in any mix of cases. */
  lemma LowerContainsSvg(u: string)
    ensures Contains(ToLowerAscii(u), ".svg") <==> exists i | 0 <= i <= |u| :: SvgExtensionAt(u, i)
  {
    var l := ToLowerAscii(u);
    if Contains(l, ".svg") {
      var i :| 0 <= i <= |l| && OccursAt(l, ".svg", i);
      var w := l[i..i + 4];
      assert w == ".svg";
      assert w[0] == l[i] && w[1] == l[i + 1] && w[2] == l[i + 2] && w[3] == l[i + 3];
      assert l[i] == '.' && l[i + 1] == 's' && l[i + 2] == 'v' && l[i + 3] == 'g';
      assert SvgExtensionAt(u, i);
    }
    if exists i | 0 <= i <= |u| :: SvgExtensionAt(u, i) {
      var i :| 0 <= i <= |u| && SvgExtensionAt(u, i);
      assert l[i..i + 4] == ".svg";
      assert OccursAt(l, ".svg", i);
    }
  }

  /** Both directions of the logo rule: accepted exactly when present, an
      "http" URL, and free of ".svg" in every letter case. */
  lemma ValidImageUrlIff(url: Option<string>)
    ensures IsValidImageUrl(url) <==>
      url.Some? && StartsWith(url.value, "http")
      && forall i | 0 <= i <= |url.value| :: !SvgExtensionAt(url.value, i)
  {
    if url.Some? {
      LowerContainsSvg(url.value);
    }
  }

  // ---------------------------------------------------------------------
  // Font sizes
  // ---------------------------------------------------------------------

  datatype Sizes = Sizes(titleSize: real, bodySize: real)

  /** The `reduce` over the points: the sum of their UNTRIMMED text lengths. */
  function TotalChars(points: seq<StyledPoint>): (n: nat)
    ensures points == [] ==> n == 0
    ensures forall i :: 0 <= i < |points| ==> |points[i].text| <= n
  {
    if points == [] then 0
    else TotalChars(points[..|points| - 1]) + |points[|points| - 1].text|
  }

  /** The character count of two runs of points is the sum of their counts. */
  lemma {:induction false} TotalCharsAppend(a: seq<StyledPoint>, b: seq<StyledPoint>)
    ensures TotalChars(a + b) == TotalChars(a) + TotalChars(b)
    decreases |b|
  {
    if b != [] {
      assert (a + b)[..|a + b| - 1] == a + b[..|b| - 1];
      assert (a + b)[|a + b| - 1] == b[|b| - 1];
      TotalCharsAppend(a, b[..|b| - 1]);
      assert TotalChars(a + b) == TotalChars(a + b[..|b| - 1]) + |b[|b| - 1].text|;
    } else {
      assert a + b == a;
    }
  }

  /** `getAdjustedSizes`: the title and body sizes used to draw a slide,
      never above the 32/20 caps. */
  function AdjustedSizes(slide: SlideData): (r: Sizes)
    ensures r.titleSize <= MaxTitle && r.bodySize <= MaxBody
  {
    var titleSize := Min(slide.style.titleFontSize, MaxTitle);
    var bodySize := Min(slide.style.bodyFontSize, MaxBody);
    var totalChars := TotalChars(slide.points);
    var pointCount := |slide.points|;
    if slide.kind == StrategicSummary then
      Sizes(Min(titleSize, 28.0), Min(bodySize, 18.0))
    else if totalChars > 600 || pointCount > 7 then
      Sizes(Max(24.0, titleSize * 0.9), Max(14.0, bodySize * 0.85))
    else if totalChars > 400 || pointCount > 5 then
      Sizes(titleSize, Max(16.0, bodySize * 0.9))
    else
      Sizes(titleSize, bodySize)
  }

  /** Strategic summary slides are capped at 28/18 and their points play no
      part in the result. */
  lemma SummarySizes(slide: SlideData, points: seq<StyledPoint>)
    requires slide.kind == StrategicSummary
    ensures AdjustedSizes(slide).titleSize == Min(slide.style.titleFontSize, 28.0)
    ensures AdjustedSizes(slide).bodySize == Min(slide.style.bodyFontSize, 18.0)
    ensures AdjustedSizes(slide.(points := points)) == AdjustedSizes(slide)
  {
  }

  /** Light slides (at most 400 characters and at most 5 points) keep their
      clamped style sizes. */
  lemma LightContentKeepsSizes(slide: SlideData)
    requires slide.kind != StrategicSummary
    requires TotalChars(slide.points) <= 400 && |slide.points| <= 5
    ensures AdjustedSizes(slide)
      == Sizes(Min(slide.style.titleFontSize, MaxTitle), Min(slide.style.bodyFontSize, MaxBody))
  {
  }

  /** Heavy slides (over 600 characters or over 7 points) shrink both sizes
      and never go below 24/14. */
  lemma HeavyContentFloors(slide: SlideData)
    requires slide.kind != StrategicSummary
    requires TotalChars(slide.points) > 600 || |slide.points| > 7
    ensures AdjustedSizes(slide).titleSize == Max(24.0, Min(slide.style.titleFontSize, MaxTitle) * 0.9)
    ensures AdjustedSizes(slide).bodySize == Max(14.0, Min(slide.style.bodyFontSize, MaxBody) * 0.85)
    ensures AdjustedSizes(slide).titleSize >= 24.0 && AdjustedSizes(slide).bodySize >= 14.0
  {
  }

  /** Medium slides shrink only the body, never below 16, and keep the
      clamped title. */
  lemma MediumContentFloors(slide: SlideData)
    requires slide.kind != StrategicSummary
    requires !(TotalChars(slide.points) > 600 || |slide.points| > 7)
    requires TotalChars(slide.points) > 400 || |slide.points| > 5
    ensures AdjustedSizes(slide).titleSize == Min(slide.style.titleFontSize, MaxTitle)
    ensures AdjustedSizes(slide).bodySize == Max(16.0, Min(slide.style.bodyFontSize, MaxBody) * 0.9)
    ensures AdjustedSizes(slide).bodySize >= 16.0
  {
  }

  /** A 32/20 slide with eight points is drawn at 28.8/17. */
  lemma EightPointsAt32And20(slide: SlideData)
    requires slide.kind != StrategicSummary && |slide.points| == 8
    requires slide.style.titleFontSize == 32.0 && slide.style.bodyFontSize == 20.0
    ensures AdjustedSizes(slide) == Sizes(28.8, 17.0)
  {
  }

  /** The strategic summary of the bundled example deck (style 32/18) is
      drawn at 28/18. */
  lemma ExampleSummaryAt32And18(slide: SlideData)
    requires slide.kind == StrategicSummary
    requires slide.style.titleFontSize == 32.0 && slide.style.bodyFontSize == 18.0
    ensures AdjustedSizes(slide) == Sizes(28.0, 18.0)
  {
  }

  /** There is no lower bound on a light slide: small style sizes pass
      through unchanged. */
  lemma LightSlideMayStaySmall(slide: SlideData)
    requires slide.kind == Content && slide.points == []
    requires slide.style.titleFontSize == 12.0 && slide.style.bodyFontSize == 10.0
    ensures AdjustedSizes(slide).titleSize < 24.0 && AdjustedSizes(slide).bodySize < 14.0
  {
  }

  /** Whitespace inside the points counts towards the volume: a single
      point of 401 spaces already makes a slide "medium". */
  lemma PaddingCountsAsContent(slide: SlideData)
    requires slide.kind == Content && slide.style.bodyFontSize == 10.0
    requires |slide.points| == 1 && slide.points[0].text == seq(401, _ => ' ')
    ensures Trim(slide.points[0].text) == []
    ensures AdjustedSizes(slide).bodySize == 16.0
  {
    assert TotalChars(slide.points) == TotalChars([]) + 401;
  }

  // ---------------------------------------------------------------------
  // Text runs
  // ---------------------------------------------------------------------

  /** One text object of an `addText` array, with the options the exporter
      sets (`None` where it sets none). */
  datatype Run = Run(
    text: string,
    bold: bool,
    italic: bool,
    bullet: bool,
    color: Option<string>,
    fontSize: Option<real>,
    margin: Option<real>,
    lineSpacing: Option<real>)

  /** A plain string passed to `addText`. */
  function PlainRun(text: string): Run {
    Run(text, false, false, false, None, None, None, None)
  }

  const Keywords: seq<string> := ["What happened?", "Why did it happen?", "How do we avoid this?"]

  /** Some candidate starts `text`. */
  predicate AnyPrefix(candidates: seq<string>, text: string) {
    exists k :: k in candidates && StartsWith(text, k)
  }

  /** `candidates.find(k => text.startsWith(k))`: the first candidate that
      starts `text`, found exactly when there is one. */
  function FindPrefix(candidates: seq<string>, text: string): (k: Option<string>)
    ensures k.Some? ==> k.value in candidates && StartsWith(text, k.value)
    ensures k.Some? <==> AnyPrefix(candidates, text)
  {
    if candidates == [] then None
    else if StartsWith(text, candidates[0]) then Some(candidates[0])
    else FindPrefix(candidates[1..], text)
  }

  function FindKeyword(text: string): Option<string> {
    FindPrefix(Keywords, text)
  }

  /** No keyword is a prefix of another, so at most one keyword starts any
      text and the order of the search does not matter. */
  lemma KeywordsExclusive(text: string, k1: string, k2: string)
    requires k1 in Keywords && k2 in Keywords
    requires StartsWith(text, k1) && StartsWith(text, k2)
    ensures k1 == k2
  {
    var w0, w1, w2 := Keywords[0], Keywords[1], Keywords[2];
    assert w0[2] == 'a' && w1[2] == 'y' && w2[0] == 'H' && w0[0] == 'W' && w1[0] == 'W';
  }

  /** `suffix` appended to a run: a line break after every point but the last. */
  function WithBreak(t: string, isLast: bool): (r: string)
    ensures isLast ==> r == t
    ensures !isLast ==> |r| == |t| + 1 && r[..|t|] == t && r[|t|] == '\n'
  {
    t + (if isLast then "" else "\n")
  }

  /** The text of the plain run of a summary point: after a keyword, a line
      break and the trimmed remainder; otherwise the trimmed text. */
  function SummaryBodyText(text: string, keyword: Option<string>): (r: string)
    requires keyword.Some? ==> StartsWith(text, keyword.value)
    ensures keyword.None? ==> r == Trim(text)
    ensures keyword.Some? ==> |r| >= 1 && r[0] == '\n' && r[1..] == Trim(text[|keyword.value|..])
  {
    if keyword.Some? then "\n" + Trim(text[|keyword.value|..]) else Trim(text)
  }

  /** The runs of one strategic-summary point: a keyword run then the rest
      when the point opens with a keyword, the point alone otherwise. */
  function SummaryPointRuns(p: StyledPoint, isLast: bool, bodySize: real, textColor: string): (r: seq<Run>)
    ensures |r| == if FindKeyword(p.text).Some? then 2 else 1
  {
    var keyword := FindKeyword(p.text);
    var body := Run(WithBreak(SummaryBodyText(p.text, keyword), isLast), false, false, false, Some(textColor),
                    Some(bodySize), None, None);
    if keyword.Some? then
      [Run(keyword.value, true, false, false, Some("2563EB"), Some(bodySize + 4.0), None, None), body]
    else
      [body]
  }

  /** The keyword run is bold, blue and four points above the body; the
      remaining run carries the slide's text colour at the body size, and
      every point but the last ends in a line break. */
  lemma SummaryPointShape(p: StyledPoint, isLast: bool, bodySize: real, textColor: string)
    ensures var k := FindKeyword(p.text); var r := SummaryPointRuns(p, isLast, bodySize, textColor);
      && (k.Some? ==> r[0] == Run(k.value, true, false, false, Some("2563EB"), Some(bodySize + 4.0), None, None))
      && r[|r| - 1].text == WithBreak(SummaryBodyText(p.text, k), isLast)
      && r[|r| - 1].color == Some(textColor) && r[|r| - 1].fontSize == Some(bodySize)
      && !r[|r| - 1].bold && !r[|r| - 1].bullet
  {
  }

  /** Of a summary slide's points, only the last lacks the closing line break:
      its final run is the trimmed text, or a break and the trimmed rest. */
  lemma SummaryLineBreaks(p: StyledPoint, isLast: bool, bodySize: real, textColor: string)
    ensures var r := SummaryPointRuns(p, isLast, bodySize, textColor); var t := r[|r| - 1].text;
      && (!isLast ==> |t| > 0 && t[|t| - 1] == '\n')
      && (isLast && FindKeyword(p.text).None? ==> Trimmed(t))
      && (isLast && FindKeyword(p.text).Some? ==> t[0] == '\n' && Trimmed(t[1..]))
  {
  }

  /** The runs of the first `k` points of a strategic-summary slide: one run
      per point plus one more per point that opens with a keyword. */
  function SummaryRunsUpTo(points: seq<StyledPoint>, k: nat, bodySize: real, textColor: string): (r: seq<Run>)
    requires k <= |points|
    ensures |r| == k + KeywordPoints(points, k)
  {
    if k == 0 then []
    else SummaryRunsUpTo(points, k - 1, bodySize, textColor)
         + SummaryPointRuns(points[k - 1], k == |points|, bodySize, textColor)
  }

  /** `leftItems` of a strategic-summary slide. */
  function SummaryRuns(points: seq<StyledPoint>, bodySize: real, textColor: string): seq<Run> {
    SummaryRunsUpTo(points, |points|, bodySize, textColor)
  }

  /** The number of points among the first `k` that start with a keyword. */
  function KeywordPoints(points: seq<StyledPoint>, k: nat): nat
    requires k <= |points|
  {
    if k == 0 then 0
    else KeywordPoints(points, k - 1) + (if FindKeyword(points[k - 1].text).Some? then 1 else 0)
  }

  /** One more point appends its runs. */
  lemma SummaryRunsStep(points: seq<StyledPoint>, k: nat, bodySize: real, textColor: string)
    requires k < |points|
    ensures SummaryRunsUpTo(points, k + 1, bodySize, textColor)
            == SummaryRunsUpTo(points, k, bodySize, textColor) + SummaryPointRuns(points[k], k == |points| - 1, bodySize, textColor)
  {
  }

  /** The `forEach` callback of the strategic-summary branch: pushes the runs
      of one point onto `leftItems`. */
  method PushPointRuns(leftItems: seq<Run>, p: StyledPoint, isLast: bool, bodySize: real, textColor: string)
    returns (items: seq<Run>)
    ensures items == leftItems + SummaryPointRuns(p, isLast, bodySize, textColor)
  {
    var keyword := FindKeyword(p.text);
    var suffix := if isLast then "" else "\n";
    items := leftItems;
    if keyword.Some? {
      items := items + [Run(keyword.value, true, false, false, Some("2563EB"), Some(bodySize + 4.0), None, None)];
      var rest := Trim(p.text[|keyword.value|..]);
      items := items + [Run("\n" + rest + suffix, false, false, false, Some(textColor), Some(bodySize), None, None)];
    } else {
      items := items + [Run(Trim(p.text) + suffix, false, false, false, Some(textColor), Some(bodySize), None, None)];
    }
  }

  /** The loop of the strategic-summary branch that fills `leftItems`. */
  method BuildSummaryRuns(points: seq<StyledPoint>, bodySize: real, textColor: string)
    returns (leftItems: seq<Run>)
    ensures leftItems == SummaryRuns(points, bodySize, textColor)
  {
    leftItems := [];
    var idx := 0;
    while idx < |points|
      invariant 0 <= idx <= |points|
      invariant leftItems == SummaryRunsUpTo(points, idx, bodySize, textColor)
    {
      leftItems := PushPointRuns(leftItems, points[idx], idx == |points| - 1, bodySize, textColor);
      SummaryRunsStep(points, idx, bodySize, textColor);
      idx := idx + 1;
    }
  }

  predicate IsHeading(p: StyledPoint) {
    IsTrue(p.isHeading)
  }

  /** The run of one point of a content slide. */
  function ContentRun(p: StyledPoint, bodySize: real, textColor: string, lineSpacing: real): (r: Run)
    ensures r.text == Trim(p.text) && Trimmed(r.text) && |r.text| <= |p.text|
    ensures r.color == Some(RemoveFirst(if NonEmpty(p.color) then p.color.value else textColor, '#'))
    ensures r.bullet <==> !IsHeading(p)
    ensures IsHeading(p) ==> r.bold
    ensures NonZero(p.fontSize) ==> r.fontSize == Some(p.fontSize.value)
  {
    Run(Trim(p.text),
        IsTrue(p.bold) || IsHeading(p),
        false,
        !IsHeading(p),
        Some(RemoveFirst(if NonEmpty(p.color) then p.color.value else textColor, '#')),
        Some(if NonZero(p.fontSize) then p.fontSize.value else if IsHeading(p) then bodySize + 4.0 else bodySize),
        Some(8.0),
        Some(lineSpacing))
  }

  /** `styledPoints` of a content slide: one run per point. */
  function ContentRuns(points: seq<StyledPoint>, bodySize: real, textColor: string, lineSpacing: real): (r: seq<Run>)
    ensures |r| == |points|
  {
    seq(|points|, i requires 0 <= i < |points| => ContentRun(points[i], bodySize, textColor, lineSpacing))
  }

  /** Content runs follow the points in order with trimmed text; headings are
      bold, unbulleted and four points larger than the body unless the point
      sets its own non-zero size; other points are bulleted at the body size
      under the same proviso. */
  lemma ContentRunsShape(points: seq<StyledPoint>, bodySize: real, textColor: string, lineSpacing: real, i: nat)
    requires i < |points|
    ensures var r := ContentRuns(points, bodySize, textColor, lineSpacing)[i]; var p := points[i];
      && Trimmed(r.text) && r.text == Trim(p.text)
      && r.color == Some(RemoveFirst(if NonEmpty(p.color) then p.color.value else textColor, '#'))
      && (IsHeading(p) ==>
            !r.bullet && r.bold
            && r.fontSize == Some(if NonZero(p.fontSize) then p.fontSize.value else bodySize + 4.0))
      && (!IsHeading(p) ==>
            r.bullet && r.bold == IsTrue(p.bold)
            && r.fontSize == Some(if NonZero(p.fontSize) then p.fontSize.value else bodySize))
  {
  }

  /** The bulleted authority opinions of a strategic-summary slide: one per
      opinion, none when the slide has no list. */
  function OpinionRuns(opinions: Option<seq<string>>, bodySize: real): (r: seq<Run>)
    ensures |r| == if opinions.Some? then |opinions.value| else 0
    ensures forall i :: 0 <= i < |r| ==>
      && opinions.Some?
      && r[i].text == Trim(opinions.value[i])
      && r[i].bullet && !r[i].bold && !r[i].italic
      && r[i].color == Some("1E3A8A") && r[i].fontSize == Some(bodySize - 4.0) && r[i].margin == Some(5.0)
  {
    var os := if opinions.Some? then opinions.value else [];
    seq(|os|, i requires 0 <= i < |os| =>
      Run(Trim(os[i]), false, false, true, Some("1E3A8A"), Some(bodySize - 4.0), Some(5.0), None))
  }

  // ---------------------------------------------------------------------
  // Drawing commands
  // ---------------------------------------------------------------------

  /** Position and size in inches on the 13.33 x 7.5 wide layout. */
  datatype Frame = Frame(x: real, y: real, w: real, h: Option<real>)

  datatype ImageRef = Path(url: string) | Data(dataUrl: string)

  /** What the exporter hands to the slide library. */
  datatype Command =
    | Background(fill: string)
    | Text(runs: seq<Run>, frame: Frame, fontSize: Option<real>, bold: bool, color: Option<string>,
           lineSpacingMultiple: Option<real>)
    | Image(image: ImageRef, frame: Frame)
    | Rect(frame: Frame, rectFill: string, lineColor: string, lineWidth: real)

  /** A horizontal percentage of the canvas in inches. */
  function X(pct: real): real {
    (pct / 100.0) * CanvasWidth
  }

  /** A vertical percentage of the canvas in inches. */
  function Y(pct: real): real {
    (pct / 100.0) * CanvasHeight
  }

  function Footer(): Command {
    Text([PlainRun("CaseLens Pro | AI Strategic Synthesis")], Frame(0.5, 7.1, 4.0, None), Some(9.0), false,
         Some("94A3B8"), None)
  }

  /** The headline "<organisation> vs <regulator>", two logos when their URLs
      pass the filter, and the deck's subtitle. */
  function TitleSlideCommands(s: SlideData, sizes: Sizes, subtitle: string): (r: seq<Command>)
    ensures |r| == 2 + (if IsValidImageUrl(s.companyLogoUrl) then 1 else 0)
                     + (if IsValidImageUrl(s.authorityLogoUrl) then 1 else 0)
    ensures r[|r| - 1].Text? && r[|r| - 1].runs == [PlainRun(subtitle)]
  {
    var st := s.style;
    var textColor := RemoveFirst(st.textColor, '#');
    var accentColor := RemoveFirst(st.accentColor, '#');
    var companyText := if NonEmpty(s.companyName) then s.companyName.value else "Organization";
    var authorityText := if NonEmpty(s.authorityName) then s.authorityName.value else "Regulator";
    var logoY := Y(st.titleYPos - 12.0);
    (if IsValidImageUrl(s.companyLogoUrl)
     then [Image(Path(s.companyLogoUrl.value), Frame(X(st.titleXPos), logoY, 1.0, Some(1.0)))] else [])
    + (if IsValidImageUrl(s.authorityLogoUrl)
       then [Image(Path(s.authorityLogoUrl.value), Frame(X(st.titleXPos + 22.0), logoY, 1.0, Some(1.0)))] else [])
    + [Text([Run(companyText, true, false, false, Some(textColor), None, None, None),
             Run(" vs ", false, true, false, Some(accentColor), None, None, None),
             Run(authorityText, true, false, false, Some(textColor), None, None, None)],
            Frame(X(st.titleXPos), Y(st.titleYPos), 12.0, None), Some(sizes.titleSize + 10.0), false, None, None),
       Text([PlainRun(subtitle)], Frame(X(st.titleXPos), Y(st.titleYPos + 18.0), 10.0, None), Some(24.0), false,
            Some(accentColor), None)]
  }

  /** The title, the narrative runs on the left, and the authority-opinion
      panel on the right. */
  function SummarySlideCommands(s: SlideData, sizes: Sizes, leftItems: seq<Run>): (r: seq<Command>)
    ensures |r| == 5
    ensures r[1].Text? && r[1].runs == leftItems
    ensures r[4].Text? && r[4].runs == OpinionRuns(s.authorityOpinions, sizes.bodySize)
  {
    var st := s.style;
    var textColor := RemoveFirst(st.textColor, '#');
    [Text([PlainRun(s.title)], Frame(X(st.titleXPos), Y(st.titleYPos), 12.0, None), Some(sizes.titleSize), true,
          Some(textColor), None),
     Text(leftItems, Frame(0.5, 1.8, 7.0, Some(5.2)), None, false, None, Some(st.lineSpacing)),
     Rect(Frame(7.8, 1.4, 5.2, Some(5.7)), "EFF6FF", "DBEafe", 1.0),
     Text([PlainRun("AUTHORITY OPINIONS")], Frame(8.0, 1.6, 4.8, None), Some(16.0), true, Some("1E40AF"), None),
     Text(OpinionRuns(s.authorityOpinions, sizes.bodySize), Frame(8.0, 2.1, 4.8, Some(4.7)), None, false, None,
          Some(1.2))]
  }

  /** The title, the bulleted points (narrowed to leave room for an image)
      and the scenario image when the slide has one. */
  function ContentSlideCommands(s: SlideData, sizes: Sizes): (r: seq<Command>)
    ensures |r| == if NonEmpty(s.imageUrl) then 3 else 2
    ensures r[1].Text? && |r[1].runs| == |s.points|
  {
    var st := s.style;
    var textColor := RemoveFirst(st.textColor, '#');
    var hasImage := NonEmpty(s.imageUrl);
    var textWidth := if hasImage then X(st.imageXPos) - X(st.bodyXPos) - 0.5 else 12.0;
    [Text([PlainRun(s.title)], Frame(X(st.titleXPos), Y(st.titleYPos), 12.0, None), Some(sizes.titleSize), true,
          Some(textColor), None),
     Text(ContentRuns(s.points, sizes.bodySize, textColor, st.lineSpacing),
          Frame(X(st.bodyXPos), Y(st.bodyYPos), textWidth, Some(5.5)), None, false, None, None)]
    + (if hasImage
       then [Image(Data(s.imageUrl.value), Frame(X(st.imageXPos), Y(st.imageYPos), 5.0 * st.imageScale,
                                                  Some(4.0 * st.imageScale)))]
       else [])
  }

  /** Everything drawn on one slide, in the order the exporter draws it. */
  function SlideCommands(s: SlideData, subtitle: string): seq<Command> {
    var sizes := AdjustedSizes(s);
    [Background(RemoveFirst(s.style.backgroundColor, '#'))]
    + (if s.kind == TitleSlide then TitleSlideCommands(s, sizes, subtitle)
       else if s.kind == StrategicSummary
       then SummarySlideCommands(s, sizes, SummaryRuns(s.points, sizes.bodySize, RemoveFirst(s.style.textColor, '#')))
       else ContentSlideCommands(s, sizes))
    + [Footer()]
  }

  /** Every slide starts with its background and ends with the footer. */
  lemma SlideFraming(s: SlideData, subtitle: string)
    ensures |SlideCommands(s, subtitle)| >= 4
    ensures SlideCommands(s, subtitle)[0] == Background(RemoveFirst(s.style.backgroundColor, '#'))
    ensures SlideCommands(s, subtitle)[|SlideCommands(s, subtitle)| - 1] == Footer()
  {
  }

  /** Only URLs that pass the logo filter are ever drawn from a path: no
      vector images and no relative or data references. */
  lemma OnlyValidLogosDrawn(s: SlideData, subtitle: string, c: Command)
    requires c in SlideCommands(s, subtitle)
    requires c.Image? && c.image.Path?
    ensures IsValidImageUrl(Some(c.image.url))
  {
    if s.kind == TitleSlide {
      assert c in TitleSlideCommands(s, AdjustedSizes(s), subtitle);
    }
  }

  /** Outside the title slide, the slide title is drawn bold at the adjusted
      title size; the title slide's headline is ten points larger. */
  lemma TitleDrawnAtAdjustedSize(s: SlideData, subtitle: string)
    ensures var cs := SlideCommands(s, subtitle);
      s.kind != TitleSlide ==>
        cs[1].Text? && cs[1].runs == [PlainRun(s.title)] && cs[1].bold
        && cs[1].fontSize == Some(AdjustedSizes(s).titleSize)
    ensures var cs := SlideCommands(s, subtitle);
      var logos := (if IsValidImageUrl(s.companyLogoUrl) then 1 else 0)
                   + (if IsValidImageUrl(s.authorityLogoUrl) then 1 else 0);
      s.kind == TitleSlide ==>
        cs[1 + logos].Text? && |cs[1 + logos].runs| == 3
        && cs[1 + logos].fontSize == Some(AdjustedSizes(s).titleSize + 10.0)
  {
  }

  /** A content-like slide carries one body run per point, and a point that
      is neither a heading nor sized itself is drawn at the adjusted body size. */
  lemma ContentBodyRuns(s: SlideData, subtitle: string)
    requires s.kind != TitleSlide && s.kind != StrategicSummary
    ensures var cs := SlideCommands(s, subtitle);
      && cs[2].Text? && |cs[2].runs| == |s.points|
      && forall i :: 0 <= i < |s.points| && !IsHeading(s.points[i]) && !NonZero(s.points[i].fontSize) ==>
           cs[2].runs[i].fontSize == Some(AdjustedSizes(s).bodySize)
  {
  }

  /** A content-like slide shows an image exactly when its image URL is
      non-empty, and then it is drawn from the data URL. */
  lemma ContentImageIff(s: SlideData, subtitle: string)
    requires s.kind != TitleSlide && s.kind != StrategicSummary
    ensures var cs := SlideCommands(s, subtitle);
      (exists c :: c in cs && c.Image?) <==> NonEmpty(s.imageUrl)
    ensures var cs := SlideCommands(s, subtitle);
      forall c :: c in cs && c.Image? ==> c.image == Data(s.imageUrl.value)
  {
    var cs := SlideCommands(s, subtitle);
    var body := ContentSlideCommands(s, AdjustedSizes(s));
    assert cs == [cs[0]] + body + [Footer()];
    if NonEmpty(s.imageUrl) {
      assert cs[3] == body[2];
    } else {
      assert |body| == 2;
    }
  }

  // ---------------------------------------------------------------------
  // File name
  // ---------------------------------------------------------------------

  predicate IsAsciiAlnum(c: char) {
    'a' <= c <= 'z' || 'A' <= c <= 'Z' || '0' <= c <= '9'
  }

  /** A character that can appear in a normalised deck title. */
  predicate IsSafeChar(c: char) {
    'a' <= c <= 'z' || '0' <= c <= '9' || c == '_'
  }

  /** `replace(/[^a-z0-9]/gi, '_').toLowerCase()`: every character that is
      not an ASCII letter or digit becomes `_`, then letters are lowered. */
  function SafeTitle(t: string): (r: string)
    ensures |r| == |t|
    ensures forall i :: 0 <= i < |r| ==> IsSafeChar(r[i])
    ensures forall i :: 0 <= i < |r| ==> (r[i] == '_' <==> !IsAsciiAlnum(t[i]))
    ensures forall i :: 0 <= i < |r| && IsAsciiAlnum(t[i]) ==> r[i] == LowerAscii(t[i])
  {
    seq(|t|, i requires 0 <= i < |t| => if IsAsciiAlnum(t[i]) then LowerAscii(t[i]) else '_')
  }

  /** Normalising twice is normalising once, and a title is left alone exactly
      when it is already made of safe characters. */
  lemma SafeTitleFixpoints(t: string)
    ensures SafeTitle(SafeTitle(t)) == SafeTitle(t)
    ensures SafeTitle(t) == t <==> forall i :: 0 <= i < |t| ==> IsSafeChar(t[i])
  {
    var r := SafeTitle(t);
    assert forall i :: 0 <= i < |r| ==> SafeTitle(r)[i] == r[i];
    if forall i :: 0 <= i < |t| ==> IsSafeChar(t[i]) {
      assert forall i :: 0 <= i < |t| ==> r[i] == t[i];
    }
  }

  function DeckFileName(presentationTitle: string): (r: string)
    ensures |r| == |presentationTitle| + 10
    ensures r[..|presentationTitle|] == SafeTitle(presentationTitle)
    ensures r[|presentationTitle|..] == "_deck.pptx"
  {
    SafeTitle(presentationTitle) + "_deck.pptx"
  }

  // ---------------------------------------------------------------------
  // The deck
  // ---------------------------------------------------------------------

  /** The slide library object: its layout, one command list per added slide,
      and the name the file was written under. */
  class Presentation {
    var layout: Option<string>
    var pages: seq<seq<Command>>
    var savedAs: Option<string>

    constructor ()
      ensures layout == None && pages == [] && savedAs == None
    {
      layout := None;
      pages := [];
      savedAs := None;
    }

    method SetLayout(name: string)
      modifies this
      ensures layout == Some(name) && pages == old(pages) && savedAs == old(savedAs)
    {
      layout := Some(name);
    }

    method AddSlide(commands: seq<Command>)
      modifies this
      ensures pages == old(pages) + [commands] && layout == old(layout) && savedAs == old(savedAs)
    {
      pages := pages + [commands];
    }

    method WriteFile(fileName: string)
      modifies this
      ensures savedAs == Some(fileName) && pages == old(pages) && layout == old(layout)
    {
      savedAs := Some(fileName);
    }
  }

  /** The body of the `forEach` over the slides: the commands of one slide,
      built up in drawing order. */
  method RenderSlide(s: SlideData, subtitle: string) returns (items: seq<Command>)
    ensures items == SlideCommands(s, subtitle)
  {
    var sizes := AdjustedSizes(s);
    items := [Background(RemoveFirst(s.style.backgroundColor, '#'))];
    if s.kind == TitleSlide {
      items := items + TitleSlideCommands(s, sizes, subtitle);
    } else if s.kind == StrategicSummary {
      var leftItems := BuildSummaryRuns(s.points, sizes.bodySize, RemoveFirst(s.style.textColor, '#'));
      items := items + SummarySlideCommands(s, sizes, leftItems);
    } else {
      items := items + ContentSlideCommands(s, sizes);
    }
    items := items + [Footer()];
  }

  /** The pages of a deck: one command list per slide, in slide order. */
  function Pages(slides: seq<SlideData>, subtitle: string): (r: seq<seq<Command>>)
    ensures |r| == |slides|
  {
    seq(|slides|, i requires 0 <= i < |slides| => SlideCommands(slides[i], subtitle))
  }

  /** A prefix one longer is the prefix and the next element. */
  lemma TakeSnoc<T>(xs: seq<T>, i: nat)
    requires i < |xs|
    ensures xs[..i + 1] == xs[..i] + [xs[i]]
  {
  }

  /** `generatePPT`: a fresh wide-layout presentation with one page per slide,
      in order, written under the normalised title. */
  method GeneratePPT(data: CaseAnalysis) returns (pptx: Presentation)
    ensures fresh(pptx)
    ensures pptx.layout == Some("LAYOUT_WIDE")
    ensures pptx.pages == Pages(data.slides, data.subtitle)
    ensures pptx.savedAs == Some(DeckFileName(data.presentationTitle))
  {
    pptx := new Presentation();
    pptx.SetLayout("LAYOUT_WIDE");
    for i := 0 to |data.slides|
      invariant pptx.layout == Some("LAYOUT_WIDE")
      invariant pptx.pages == Pages(data.slides, data.subtitle)[..i]
    {
      var items := RenderSlide(data.slides[i], data.subtitle);
      TakeSnoc(Pages(data.slides, data.subtitle), i);
      pptx.AddSlide(items);
    }
    assert Pages(data.slides, data.subtitle)[..|data.slides|] == Pages(data.slides, data.subtitle);
    var safeTitle := SafeTitle(data.presentationTitle);
    pptx.WriteFile(safeTitle + "_deck.pptx");
  }
}
