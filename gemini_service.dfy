/** The deterministic work around the generative-model calls of
    services/geminiService.ts: the source text put into the prompts, the
    post-processing of the returned deck, and the choice of the image part of
    a visual response. The calls themselves are outside the model; their
    results arrive as parameters. */
module GeminiService {
  import opened Types
  import opened JsText

  /** `DEFAULT_STYLE`: the style every generated slide receives. */
  const DefaultStyle: SlideStyle := SlideStyle(
    "#FFFFFF", "#1E293B", "#4F46E5",
    32.0, 18.0,
    10.0, 5.0, 25.0, 5.0,
    65.0, 25.0, 1.0,
    1.5)

  /** At most this many characters of the combined sources reach a prompt. */
  const MaxPromptChars: nat := 30000

  /** The separator between two rendered sources. */
  const SourceSeparator: string := "\n\n"

  // ---------------------------------------------------------------------
  // Sources in the prompt
  // ---------------------------------------------------------------------

  function Label(kind: SourceKind): string {
    if kind == Url then "URL" else "Document"
  }

  /** `${s.type === 'url' ? 'URL' : 'Document'}: ${s.value}`. */
  function RenderSource(s: Source): (r: string)
    ensures |r| == |Label(s.kind)| + 2 + |s.value|
    ensures r[|r| - |s.value|..] == s.value
  {
    Label(s.kind) + ": " + s.value
  }

  /** A rendering names the kind of the source, then carries its value
      verbatim; the kind and the value can be read back. */
  lemma RenderSourceReadBack(s: Source)
    ensures var r := RenderSource(s); var n := |Label(s.kind)|;
      && r[..n] == Label(s.kind)
      && r[n..n + 2] == ": "
      && r[n + 2..] == s.value
      && (s.kind == Url <==> r[0] == 'U')
  {
    var r := RenderSource(s);
    var n := |Label(s.kind)|;
    assert r == Label(s.kind) + (": " + s.value);
    assert r[n..] == ": " + s.value;
  }

  /** Two sources render alike exactly when they have the same kind and the
      same value; the id and the name play no part. */
  lemma RenderSourceInjective(s: Source, t: Source)
    ensures RenderSource(s) == RenderSource(t) <==> s.kind == t.kind && s.value == t.value
  {
    if RenderSource(s) == RenderSource(t) {
      RenderSourceReadBack(s);
      RenderSourceReadBack(t);
    }
  }

  /** The renderings of the sources, in source order. */
  function Renderings(sources: seq<Source>): (r: seq<string>)
    ensures |r| == |sources|
  {
    seq(|sources|, i requires 0 <= i < |sources| => RenderSource(sources[i]))
  }

  /** `combinedContent`: the renderings joined by a blank line. */
  function CombinedContent(sources: seq<Source>): (r: string)
    ensures sources == [] ==> r == ""
    ensures |sources| == 1 ==> r == RenderSource(sources[0])
  {
    Join(Renderings(sources), SourceSeparator)
  }

  /** Adding a source adds a blank line and its rendering at the end; the
      sources before it keep their text and their order. */
  lemma CombinedContentSnoc(sources: seq<Source>, s: Source)
    requires sources != []
    ensures CombinedContent(sources + [s]) == CombinedContent(sources) + SourceSeparator + RenderSource(s)
  {
    assert Renderings(sources + [s]) == Renderings(sources) + [RenderSource(s)];
    JoinSnoc(Renderings(sources), RenderSource(s), SourceSeparator);
  }

  lemma CombinedContentSingle(s: Source)
    ensures CombinedContent([s]) == RenderSource(s)
  {
    assert Renderings([s]) == [RenderSource(s)];
  }

  /** The combined text is as long as the renderings together plus two
      characters between each two of them. */
  lemma CombinedContentLength(sources: seq<Source>)
    requires sources != []
    ensures |CombinedContent(sources)| == SumOfLengths(Renderings(sources)) + 2 * (|sources| - 1)
  {
    JoinLength(Renderings(sources), SourceSeparator);
  }

  /** `substring(0, 30000)`. */
  function PromptExcerpt(content: string): (r: string)
    ensures |r| == if |content| <= MaxPromptChars then |content| else MaxPromptChars
    ensures r == content[..|r|]
  {
    if |content| <= MaxPromptChars then content else content[..MaxPromptChars]
  }

  /** The excerpt is the whole text when it fits, and cutting twice is
      cutting once. */
  lemma PromptExcerptFacts(content: string)
    ensures |content| <= MaxPromptChars ==> PromptExcerpt(content) == content
    ensures PromptExcerpt(PromptExcerpt(content)) == PromptExcerpt(content)
    ensures forall extra: string :: |content| >= MaxPromptChars ==> PromptExcerpt(content + extra) == PromptExcerpt(content)
  {
    forall extra: string | |content| >= MaxPromptChars
      ensures PromptExcerpt(content + extra) == PromptExcerpt(content)
    {
      assert (content + extra)[..MaxPromptChars] == content[..MaxPromptChars];
    }
  }

  // ---------------------------------------------------------------------
  // Post-processing of the generated deck
  // ---------------------------------------------------------------------

  /** `slide-${i}-${Date.now()}`. */
  function SlideId(index: nat, stamp: nat): (r: string)
    ensures StartsWith(r, SlideIdPrefix) && |r| >= |SlideIdPrefix| + 3
    ensures exists k :: |SlideIdPrefix| < k < |r| - 1 && r[k] == '-'
                        && AllDigits(r[|SlideIdPrefix|..k]) && AllDigits(r[k + 1..])
  {
    var a, b := NatToString(index), NatToString(stamp);
    var r := SlideIdPrefix + (a + "-" + b);
    assert r[|SlideIdPrefix|..|SlideIdPrefix| + |a|] == a && r[|SlideIdPrefix| + |a| + 1..] == b;
    r
  }

  const SlideIdPrefix: string := "slide-"

  /** Two ids are equal only for the same index and the same timestamp: the
      index is the digit run between the first two dashes. */
  lemma SlideIdInjective(i: nat, t: nat, j: nat, u: nat)
    requires SlideId(i, t) == SlideId(j, u)
    ensures i == j && t == u
  {
    var a, b := NatToString(i), NatToString(j);
    var x := SlideId(i, t);
    assert x[|SlideIdPrefix|..] == a + "-" + NatToString(t);
    assert x[|SlideIdPrefix|..] == b + "-" + NatToString(u);
    DigitsBeforeDash(a, NatToString(t), b, NatToString(u));
    NatToStringInjective(i, j);
    NatToStringInjective(t, u);
  }

  /** A digit run followed by a dash is read off unambiguously. */
  lemma DigitsBeforeDash(a: string, x: string, b: string, y: string)
    requires AllDigits(a) && AllDigits(b)
    requires a + "-" + x == b + "-" + y
    ensures a == b && x == y
  {
    var s := a + "-" + x;
    FirstDash(a, x);
    FirstDash(b, y);
    assert |a| == |b|;
    assert a == s[..|a|] == b;
    assert x == s[|a| + 1..] == y;
  }

  /** In a digit run followed by a dash, the first dash is the one after the run. */
  lemma FirstDash(a: string, x: string)
    requires AllDigits(a)
    ensures (a + "-" + x)[|a|] == '-'
    ensures forall k :: 0 <= k < |a| ==> (a + "-" + x)[k] != '-'
  {
    forall k | 0 <= k < |a|
      ensures (a + "-" + x)[k] != '-'
    {
      assert (a + "-" + x)[k] == a[k];
      assert IsDigit(a[k]);
    }
  }

  /** The slide at index `i` after `{...s, id, style: {...DEFAULT_STYLE}}`. */
  function PostProcessSlide(s: SlideData, i: nat, stamp: nat): (r: SlideData)
    ensures r.id == SlideId(i, stamp) && r.style == DefaultStyle
    ensures r.(id := s.id, style := s.style) == s
  {
    s.(id := SlideId(i, stamp), style := DefaultStyle)
  }

  /** `data.slides.map((s, i) => ...)`, where `clock(i)` is what `Date.now()`
      returned while slide `i` was mapped. */
  function PostProcessSlides(slides: seq<SlideData>, clock: nat -> nat): (r: seq<SlideData>)
    ensures |r| == |slides|
  {
    seq(|slides|, i requires 0 <= i < |slides| => PostProcessSlide(slides[i], i, clock(i)))
  }

  /** Post-processing keeps the slides, their order and every field but the
      id and the style; every style becomes `DEFAULT_STYLE`; every id names
      its own position. */
  lemma PostProcessKeepsSlides(slides: seq<SlideData>, clock: nat -> nat, i: nat)
    requires i < |slides|
    ensures var r := PostProcessSlides(slides, clock)[i];
      && r.style == DefaultStyle
      && r.id == SlideId(i, clock(i))
      && r.(id := slides[i].id, style := slides[i].style) == slides[i]
      && r.title == slides[i].title && r.points == slides[i].points && r.kind == slides[i].kind
  {
    assert PostProcessSlides(slides, clock)[i] == PostProcessSlide(slides[i], i, clock(i));
  }

  /** The ids of a processed deck are pairwise distinct, whatever the clock
      returned, because each embeds its own index. */
  lemma PostProcessIdsDistinct(slides: seq<SlideData>, clock: nat -> nat, i: nat, j: nat)
    requires i < j < |slides|
    ensures PostProcessSlides(slides, clock)[i].id != PostProcessSlides(slides, clock)[j].id
  {
    if PostProcessSlides(slides, clock)[i].id == PostProcessSlides(slides, clock)[j].id {
      SlideIdInjective(i, clock(i), j, clock(j));
    }
  }

  /** The parsed response of the deck request: `slides` is absent when the
      response carried no deck (`JSON.parse(response.text || '{}')`). */
  datatype ParsedDeck = ParsedDeck(presentationTitle: string, subtitle: string, slides: Option<seq<SlideData>>)

  /** The message of the `TypeError` that `undefined.map(...)` throws. */
  const MissingSlidesMessage: string := "Cannot read properties of undefined (reading 'map')"

  /** `generateSlideContent` after the call: a failed call or a response
      without slides is an error; otherwise the deck with its slides
      post-processed. */
  function GenerateSlideContent(response: Outcome<ParsedDeck>, clock: nat -> nat): (r: Outcome<CaseAnalysis>)
    ensures response.Fail? ==> r == Fail(response.msg)
    ensures response.Ok? && response.value.slides.None? ==> r.Fail?
    ensures r.Ok? <==> response.Ok? && response.value.slides.Some?
  {
    match response
    case Fail(msg) => Fail(msg)
    case Ok(deck) =>
      match deck.slides
      case None => Fail(MissingSlidesMessage)
      case Some(slides) =>
        Ok(CaseAnalysis(deck.presentationTitle, deck.subtitle, PostProcessSlides(slides, clock)))
  }

  /** A successful deck keeps the title, subtitle and slide count of the
      response, and every slide of it has the default style and a distinct id. */
  lemma GeneratedDeckFacts(response: Outcome<ParsedDeck>, clock: nat -> nat)
    requires GenerateSlideContent(response, clock).Ok?
    ensures var d := GenerateSlideContent(response, clock).value;
      && d.presentationTitle == response.value.presentationTitle
      && d.subtitle == response.value.subtitle
      && |d.slides| == |response.value.slides.value|
      && (forall k :: 0 <= k < |d.slides| ==> d.slides[k].style == DefaultStyle)
      && (forall k, m :: 0 <= k < m < |d.slides| ==> d.slides[k].id != d.slides[m].id)
  {
    var d := GenerateSlideContent(response, clock).value;
    var slides := response.value.slides.value;
    forall k | 0 <= k < |d.slides|
      ensures d.slides[k].style == DefaultStyle
    {
      PostProcessKeepsSlides(slides, clock, k);
    }
    forall k, m | 0 <= k < m < |d.slides|
      ensures d.slides[k].id != d.slides[m].id
    {
      PostProcessIdsDistinct(slides, clock, k, m);
    }
  }

  // ---------------------------------------------------------------------
  // The image of a visual response
  // ---------------------------------------------------------------------

  datatype InlineData = InlineData(mimeType: string, data: string)

  /** A response part: text, or inline binary data, or neither. */
  datatype Part = Part(text: Option<string>, inlineData: Option<InlineData>)

  datatype Content = Content(parts: Option<seq<Part>>)

  datatype Candidate = Candidate(content: Option<Content>)

  datatype ImageResponse = ImageResponse(candidates: Option<seq<Candidate>>)

  const DataUrlPrefix: string := "data:image/png;base64,"

  const VisualFailedMessage: string := "Visual generation failed."

  /** `response.candidates?.[0]?.content?.parts || []`. */
  function ResponseParts(response: ImageResponse): (r: seq<Part>)
    ensures r != [] ==>
      && response.candidates.Some? && |response.candidates.value| > 0
      && response.candidates.value[0].content.Some?
      && response.candidates.value[0].content.value.parts == Some(r)
  {
    if response.candidates.Some? && |response.candidates.value| > 0
       && response.candidates.value[0].content.Some?
       && response.candidates.value[0].content.value.parts.Some?
    then response.candidates.value[0].content.value.parts.value
    else []
  }

  /** Part `i` is the first one carrying inline data. */
  predicate FirstImagePart(parts: seq<Part>, i: nat) {
    i < |parts| && parts[i].inlineData.Some?
    && forall k :: 0 <= k < i ==> parts[k].inlineData.None?
  }

  /** The `for ... of` loop with its early return, and the error after it. */
  method FirstInlineImage(parts: seq<Part>) returns (r: Outcome<string>)
    ensures r.Ok? <==> exists i :: 0 <= i < |parts| && parts[i].inlineData.Some?
    ensures r.Ok? ==> exists i: nat :: FirstImagePart(parts, i)
                                && r.value == DataUrlPrefix + parts[i].inlineData.value.data
    ensures r.Fail? ==> r.msg == VisualFailedMessage
  {
    var i := 0;
    while i < |parts|
      invariant 0 <= i <= |parts|
      invariant forall k :: 0 <= k < i ==> parts[k].inlineData.None?
    {
      if parts[i].inlineData.Some? {
        assert FirstImagePart(parts, i);
        return Ok(DataUrlPrefix + parts[i].inlineData.value.data);
      }
      i := i + 1;
    }
    return Fail(VisualFailedMessage);
  }

  /** Only one part can be the first image part, so the data URL is
      determined by the response. */
  lemma FirstImagePartUnique(parts: seq<Part>, i: nat, j: nat)
    requires FirstImagePart(parts, i) && FirstImagePart(parts, j)
    ensures i == j
  {
  }

  /** `generateComplexScenarioVisual` after the call. */
  method ComplexScenarioVisual(response: ImageResponse) returns (r: Outcome<string>)
    ensures r.Ok? <==> exists i :: 0 <= i < |ResponseParts(response)| && ResponseParts(response)[i].inlineData.Some?
    ensures r.Ok? ==> exists i: nat :: FirstImagePart(ResponseParts(response), i)
                                && r.value == DataUrlPrefix + ResponseParts(response)[i].inlineData.value.data
    ensures r.Ok? ==> StartsWith(r.value, DataUrlPrefix)
    ensures r.Fail? ==> r.msg == VisualFailedMessage
  {
    r := FirstInlineImage(ResponseParts(response));
    if r.Ok? {
      var i: nat :| FirstImagePart(ResponseParts(response), i)
               && r.value == DataUrlPrefix + ResponseParts(response)[i].inlineData.value.data;
      assert r.value[..|DataUrlPrefix|] == DataUrlPrefix;
    }
  }
}
