/** Record shapes shared by the services and the application state (types.ts).
    Optional TypeScript properties become `Option`, numbers become `real`. */
module Types {

  datatype Option<+T> = None | Some(value: T)

  /** The result of an awaited call into code outside the model: the value it
      resolved to, or the message of the error it threw. */
  datatype Outcome<+T> = Ok(value: T) | Fail(msg: string)

  /** One bullet or paragraph of slide content. */
  datatype StyledPoint = StyledPoint(
    text: string,
    bold: Option<bool>,
    color: Option<string>,
    fontSize: Option<real>,
    isHeading: Option<bool>)

  datatype SlideStyle = SlideStyle(
    backgroundColor: string,
    textColor: string,
    accentColor: string,
    titleFontSize: real,
    bodyFontSize: real,
    titleYPos: real,
    titleXPos: real,
    bodyYPos: real,
    bodyXPos: real,
    imageXPos: real,
    imageYPos: real,
    imageScale: real,
    lineSpacing: real)

  datatype SlideKind = TitleSlide | Toc | StrategicSummary | Content | DpoTechnical | PmTakeaway

  datatype SlideData = SlideData(
    id: string,
    title: string,
    points: seq<StyledPoint>,
    kind: SlideKind,
    imageUrl: Option<string>,
    imageLoading: Option<bool>,
    style: SlideStyle,
    authorityOpinions: Option<seq<string>>,
    companyName: Option<string>,
    authorityName: Option<string>,
    companyLogoUrl: Option<string>,
    authorityLogoUrl: Option<string>)

  datatype CaseAnalysis = CaseAnalysis(presentationTitle: string, subtitle: string, slides: seq<SlideData>)

  /** The pipeline stages, in the order the handlers set them. */
  datatype AnalysisStatus = Idle | AnalyzingWord | ValidationFailed | WordReady | GeneratingPpt | Ready | Error

  datatype SourceKind = Url | File

  datatype Source = Source(id: string, kind: SourceKind, value: string, name: string)

  datatype WordSection = WordSection(title: string, content: string)

  /** JavaScript truthiness of the optional fields: `undefined`, `false`,
      `""` and `0` are falsy. */
  predicate IsTrue(b: Option<bool>) {
    b == Some(true)
  }

  predicate NonEmpty(s: Option<string>) {
    s.Some? && s.value != ""
  }

  predicate NonZero(x: Option<real>) {
    x.Some? && x.value != 0.0
  }
}
