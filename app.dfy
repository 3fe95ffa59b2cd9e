/** The analysis pipeline of App.tsx: the component's state as a class whose
    handlers update it in place. Every awaited gateway call (validating the
    sources, writing the analysis, building the deck) is a parameter carrying
    what the call resolved to or the message it threw; a ghost event list
    records the statuses set and the calls made, in order. */
module App {
  import opened Types
  import opened JsText

  /** One line of the progress log shown while a gateway call is pending. */
  datatype LogEntry = LogEntry(msg: string, done: bool)

  datatype GatewayCall =
    | ValidateSources(sources: seq<Source>)
    | GenerateWordAnalysis(sources: seq<Source>)
    | GeneratePptFromWord(sections: seq<WordSection>)

  /** What an observer of the component sees happen. */
  datatype Event = StatusSet(status: AnalysisStatus) | Called(call: GatewayCall)

  const AuthenticatingMessage: string := "Authenticating input validity..."
  const ReviewingMessage: string := "Privacy Expert reviewing the files..."
  const SynthesizingMessage: string := "Synthesizing strategic deck from analysis..."

  // ---------------------------------------------------------------------
  // The pure parts of the handlers
  // ---------------------------------------------------------------------

  /** `urlInput.trim()` is truthy: the input has a character that is not
      whitespace. */
  predicate AcceptsUrl(input: string)
    ensures AcceptsUrl(input) ==> input != []
  {
    Trim(input) != ""
  }

  lemma AcceptsUrlIff(input: string)
    ensures AcceptsUrl(input) <==> exists k :: 0 <= k < |input| && !IsWhitespace(input[k])
  {
    TrimEmptyIff(input);
  }

  /** The source `addUrlSource` appends: the untrimmed input as both value
      and name. */
  function UrlSource(id: string, input: string): (r: Source)
    ensures r.kind == Url && r.value == input && r.name == input && r.id == id
  {
    Source(id, Url, input, input)
  }

  /** `sources.filter(s => s.id !== id)`. */
  function Without(sources: seq<Source>, id: string): (r: seq<Source>)
    ensures |r| <= |sources|
    ensures forall s :: s in r <==> s in sources && s.id != id
  {
    if sources == [] then []
    else (if sources[0].id == id then [] else [sources[0]]) + Without(sources[1..], id)
  }

  /** Filtering distributes over concatenation, so the kept sources stay in
      their order. */
  lemma {:induction false} WithoutAppend(a: seq<Source>, b: seq<Source>, id: string)
    ensures Without(a + b, id) == Without(a, id) + Without(b, id)
  {
    if a == [] {
      assert a + b == b;
    } else {
      assert (a + b)[1..] == a[1..] + b;
      WithoutAppend(a[1..], b, id);
    }
  }

  /** Removing an id no source has changes nothing. */
  lemma {:induction false} WithoutAbsent(sources: seq<Source>, id: string)
    requires forall k :: 0 <= k < |sources| ==> sources[k].id != id
    ensures Without(sources, id) == sources
  {
    if sources != [] {
      WithoutAbsent(sources[1..], id);
    }
  }

  /** Removing twice is removing once. */
  lemma WithoutIdempotent(sources: seq<Source>, id: string)
    ensures Without(Without(sources, id), id) == Without(sources, id)
  {
    var w := Without(sources, id);
    forall k | 0 <= k < |w|
      ensures w[k].id != id
    {
      assert w[k] in w;
    }
    WithoutAbsent(w, id);
  }

  /** `prev.map(l => ({...l, done: true}))`. */
  function MarkDone(log: seq<LogEntry>): (r: seq<LogEntry>)
    ensures |r| == |log|
    ensures forall k :: 0 <= k < |r| ==> r[k].done && r[k].msg == log[k].msg
  {
    seq(|log|, k requires 0 <= k < |log| => log[k].(done := true))
  }

  /** The log shows every step but the last one as done. */
  predicate Settled(log: seq<LogEntry>) {
    forall k :: 0 <= k < |log| - 1 ==> log[k].done
  }

  /** Marking the log done and adding a pending step keeps it settled, with
      exactly one pending step at the end. */
  lemma MarkDoneThenPending(log: seq<LogEntry>, msg: string)
    ensures var r := MarkDone(log) + [LogEntry(msg, false)];
      Settled(r) && !r[|r| - 1].done && |r| == |log| + 1
  {
  }

  /** `next[idx].content = value` on a copy of the sections. */
  function EditedSections(sections: seq<WordSection>, idx: nat, value: string): (r: seq<WordSection>)
    requires idx < |sections|
    ensures |r| == |sections|
    ensures r[idx].content == value
    ensures forall k :: 0 <= k < |r| ==> r[k].title == sections[k].title
    ensures forall k :: 0 <= k < |r| && k != idx ==> r[k] == sections[k]
  {
    sections[idx := sections[idx].(content := value)]
  }

  /** Editing a section to the text it already has changes nothing. */
  lemma EditSameContent(sections: seq<WordSection>, idx: nat)
    requires idx < |sections|
    ensures EditedSections(sections, idx, sections[idx].content) == sections
  {
  }

  // ---------------------------------------------------------------------
  // The component
  // ---------------------------------------------------------------------

  class CaseLens {
    var status: AnalysisStatus
    var sources: seq<Source>
    var urlInput: string
    var wordContent: seq<WordSection>
    var analysis: Option<CaseAnalysis>
    var activeIndex: nat
    var error: Option<string>
    var statusLog: seq<LogEntry>
    ghost var events: seq<Event>

    /** Between two handlers no call is pending, a finished deck is present
        whenever the status says so, an error status carries its message, and
        the progress log is settled. */
    predicate Valid()
      reads this
      ensures Valid() ==> status != AnalyzingWord && status != GeneratingPpt
      ensures Valid() && status == Ready ==> analysis.Some?
    {
      && status != AnalyzingWord && status != GeneratingPpt
      && (status == Ready ==> analysis.Some?)
      && (status == Error ==> error.Some?)
      && Settled(statusLog)
    }

    /** The initial values of the `useState` hooks. */
    constructor ()
      ensures Valid()
      ensures status == Idle && sources == [] && urlInput == "" && wordContent == []
      ensures analysis == None && activeIndex == 0 && error == None && statusLog == []
      ensures events == []
    {
      status := Idle;
      sources := [];
      urlInput := "";
      wordContent := [];
      analysis := None;
      activeIndex := 0;
      error := None;
      statusLog := [];
      events := [];
    }

    /** `analysis?.slides[activeIndex]`. */
    function CurrentSlide(): (r: Option<SlideData>)
      reads this
      ensures r.Some? <==> analysis.Some? && activeIndex < |analysis.value.slides|
      ensures r.Some? ==> r.value in analysis.value.slides
    {
      if analysis.Some? && activeIndex < |analysis.value.slides|
      then Some(analysis.value.slides[activeIndex])
      else None
    }

    /** The URL field's `onChange`. */
    method SetUrlInput(value: string)
      modifies this
      ensures urlInput == value
      ensures status == old(status) && sources == old(sources) && wordContent == old(wordContent)
      ensures analysis == old(analysis) && activeIndex == old(activeIndex) && error == old(error)
      ensures statusLog == old(statusLog) && events == old(events)
    {
      urlInput := value;
    }

    /** `addUrlSource`; `id` is what `Date.now().toString()` returned. */
    method AddUrlSource(id: string)
      requires Valid()
      modifies this
      ensures Valid()
      ensures !AcceptsUrl(old(urlInput)) ==>
        sources == old(sources) && urlInput == old(urlInput)
      ensures AcceptsUrl(old(urlInput)) ==>
        sources == old(sources) + [UrlSource(id, old(urlInput))] && urlInput == ""
      ensures status == old(status) && wordContent == old(wordContent) && analysis == old(analysis)
      ensures activeIndex == old(activeIndex) && error == old(error) && statusLog == old(statusLog)
      ensures events == old(events)
    {
      if !AcceptsUrl(urlInput) {
        return;
      }
      sources := sources + [UrlSource(id, urlInput)];
      urlInput := "";
    }

    /** `removeSource`. */
    method RemoveSource(id: string)
      requires Valid()
      modifies this
      ensures Valid()
      ensures sources == Without(old(sources), id)
      ensures status == old(status) && urlInput == old(urlInput) && wordContent == old(wordContent)
      ensures analysis == old(analysis) && activeIndex == old(activeIndex) && error == old(error)
      ensures statusLog == old(statusLog) && events == old(events)
    {
      sources := Without(sources, id);
    }

    /** `startAnalysis`, reachable only from the start screen. `validation`
        is what `validateSources` resolved to or threw; `result` is what
        `generateWordAnalysis` resolved to or threw, and is used only when
        validation succeeded. */
    method StartAnalysis(validation: Outcome<bool>, result: Outcome<seq<WordSection>>)
      requires Valid() && status == Idle
      modifies this
      ensures Valid()
      ensures sources == old(sources) && urlInput == old(urlInput)
      ensures analysis == old(analysis) && activeIndex == old(activeIndex)
      // no sources: an immediate return
      ensures old(sources) == [] ==>
        status == Idle && wordContent == old(wordContent) && error == old(error)
        && statusLog == old(statusLog) && events == old(events)
      // a failed or thrown validation: the analysis is never requested
      ensures old(sources) != [] && validation == Ok(false) ==>
        status == ValidationFailed && wordContent == old(wordContent) && error == old(error)
        && statusLog == [LogEntry(AuthenticatingMessage, false)]
        && events == old(events) + [StatusSet(AnalyzingWord), Called(ValidateSources(old(sources)))]
                                 + [StatusSet(ValidationFailed)]
      ensures old(sources) != [] && validation.Fail? ==>
        status == Error && wordContent == old(wordContent) && error == Some(validation.msg)
        && statusLog == [LogEntry(AuthenticatingMessage, false)]
        && events == old(events) + [StatusSet(AnalyzingWord), Called(ValidateSources(old(sources)))]
                                 + [StatusSet(Error)]
      // a successful validation: the analysis is requested, and its outcome decides
      ensures old(sources) != [] && validation == Ok(true) ==>
        statusLog == [LogEntry(AuthenticatingMessage, true), LogEntry(ReviewingMessage, false)]
      ensures old(sources) != [] && validation == Ok(true) && result.Ok? ==>
        status == WordReady && wordContent == result.value && error == old(error)
        && events == old(events) + [StatusSet(AnalyzingWord), Called(ValidateSources(old(sources)))]
                                 + [Called(GenerateWordAnalysis(old(sources)))] + [StatusSet(WordReady)]
      ensures old(sources) != [] && validation == Ok(true) && result.Fail? ==>
        status == Error && wordContent == old(wordContent) && error == Some(result.msg)
        && events == old(events) + [StatusSet(AnalyzingWord), Called(ValidateSources(old(sources)))]
                                 + [Called(GenerateWordAnalysis(old(sources)))] + [StatusSet(Error)]
    {
      if |sources| == 0 {
        return;
      }
      status := AnalyzingWord;
      statusLog := [LogEntry(AuthenticatingMessage, false)];
      events := events + [StatusSet(AnalyzingWord), Called(ValidateSources(sources))];
      match validation {
        case Fail(msg) =>
          error := Some(msg);
          status := Error;
          events := events + [StatusSet(Error)];
          return;
        case Ok(isValid) =>
          if !isValid {
            status := ValidationFailed;
            events := events + [StatusSet(ValidationFailed)];
            return;
          }
      }
      ReviewSources(result);
    }

    /** The rest of `startAnalysis` once the sources passed validation: the
        analysis is requested, then stored or its error reported. */
    method ReviewSources(result: Outcome<seq<WordSection>>)
      requires status == AnalyzingWord && statusLog == [LogEntry(AuthenticatingMessage, false)]
      modifies this
      ensures Valid()
      ensures sources == old(sources) && urlInput == old(urlInput)
      ensures analysis == old(analysis) && activeIndex == old(activeIndex)
      ensures statusLog == [LogEntry(AuthenticatingMessage, true), LogEntry(ReviewingMessage, false)]
      ensures result.Ok? ==>
        status == WordReady && wordContent == result.value && error == old(error)
        && events == old(events) + [Called(GenerateWordAnalysis(old(sources)))] + [StatusSet(WordReady)]
      ensures result.Fail? ==>
        status == Error && wordContent == old(wordContent) && error == Some(result.msg)
        && events == old(events) + [Called(GenerateWordAnalysis(old(sources)))] + [StatusSet(Error)]
    {
      MarkDoneThenPending(statusLog, ReviewingMessage);
      statusLog := MarkDone(statusLog) + [LogEntry(ReviewingMessage, false)];
      assert statusLog == [LogEntry(AuthenticatingMessage, true), LogEntry(ReviewingMessage, false)];
      events := events + [Called(GenerateWordAnalysis(sources))];
      match result {
        case Fail(msg) =>
          error := Some(msg);
          status := Error;
          events := events + [StatusSet(Error)];
        case Ok(sections) =>
          wordContent := sections;
          status := WordReady;
          events := events + [StatusSet(WordReady)];
      }
    }

    /** `generatePPTAction`, offered only once the analysis is ready.
        `result` is what `generatePPTFromWord` resolved to or threw. */
    method GeneratePptAction(result: Outcome<CaseAnalysis>)
      requires Valid() && status == WordReady
      modifies this
      ensures Valid()
      ensures sources == old(sources) && urlInput == old(urlInput) && wordContent == old(wordContent)
      ensures activeIndex == old(activeIndex)
      ensures statusLog == [LogEntry(SynthesizingMessage, false)]
      ensures result.Ok? ==>
        status == Ready && analysis == Some(result.value) && error == old(error)
        && events == old(events) + [StatusSet(GeneratingPpt), Called(GeneratePptFromWord(old(wordContent)))]
                                 + [StatusSet(Ready)]
      ensures result.Fail? ==>
        status == Error && analysis == old(analysis) && error == Some(result.msg)
        && events == old(events) + [StatusSet(GeneratingPpt), Called(GeneratePptFromWord(old(wordContent)))]
                                 + [StatusSet(Error)]
    {
      status := GeneratingPpt;
      statusLog := [LogEntry(SynthesizingMessage, false)];
      events := events + [StatusSet(GeneratingPpt), Called(GeneratePptFromWord(wordContent))];
      match result {
        case Ok(deck) =>
          analysis := Some(deck);
          status := Ready;
          events := events + [StatusSet(Ready)];
        case Fail(msg) =>
          error := Some(msg);
          status := Error;
          events := events + [StatusSet(Error)];
      }
    }

    /** `reset`: back to the start screen; the last error message stays. */
    method Reset()
      requires Valid()
      modifies this
      ensures Valid()
      ensures status == Idle && analysis == None && wordContent == [] && sources == []
      ensures statusLog == [] && activeIndex == 0
      ensures error == old(error) && urlInput == old(urlInput)
      ensures events == old(events) + [StatusSet(Idle)]
    {
      status := Idle;
      analysis := None;
      wordContent := [];
      sources := [];
      statusLog := [];
      activeIndex := 0;
      events := events + [StatusSet(Idle)];
    }

    /** The `onChange` of the editor for section `idx`. */
    method EditSection(idx: nat, value: string)
      requires Valid() && idx < |wordContent|
      modifies this
      ensures Valid()
      ensures wordContent == EditedSections(old(wordContent), idx, value)
      ensures status == old(status) && sources == old(sources) && urlInput == old(urlInput)
      ensures analysis == old(analysis) && activeIndex == old(activeIndex) && error == old(error)
      ensures statusLog == old(statusLog) && events == old(events)
    {
      wordContent := EditedSections(wordContent, idx, value);
    }
  }

  /** The statuses a session passes through: from the start screen, a run of
      the analysis that validates and succeeds, then a deck that succeeds,
      ends ready with the deck and the edited sections it was built from. */
  method HappyPath(id: string, url: string, sections: seq<WordSection>, deck: CaseAnalysis)
    returns (app: CaseLens)
    requires AcceptsUrl(url)
    ensures app.status == Ready && app.analysis == Some(deck) && app.wordContent == sections
    ensures app.sources == [UrlSource(id, url)]
    ensures app.events == [StatusSet(AnalyzingWord), Called(ValidateSources([UrlSource(id, url)])),
                           Called(GenerateWordAnalysis([UrlSource(id, url)])), StatusSet(WordReady),
                           StatusSet(GeneratingPpt), Called(GeneratePptFromWord(sections)), StatusSet(Ready)]
  {
    app := new CaseLens();
    app.SetUrlInput(url);
    app.AddUrlSource(id);
    app.StartAnalysis(Ok(true), Ok(sections));
    app.GeneratePptAction(Ok(deck));
  }
}
