# CaseLens Pro — a verified model of its deterministic core

CaseLens Pro turns case sources (URLs and documents) into a written GDPR
analysis, and that analysis into a slide deck. A generative model does the
writing. This project models the deterministic code around it:

- the pipeline state machine of the main component (`App.tsx`), as the class
  `App.CaseLens`;
- the Word exporter (`services/wordService.ts`): sections and lines become
  `<h1>`, `<ul><li>` and `<p>` blocks, and the file gets its download name;
- the PowerPoint exporter (`services/pptService.ts`): the font-size rule, the
  logo filter, the text runs and drawing commands of each slide, and the deck
  file name. The slide library is a sink, `PptService.Presentation`, that
  records one list of commands per slide;
- the pre- and post-processing in `services/geminiService.ts`: the source
  text put into a prompt and its 30000-character cut, the ids and default
  style given to generated slides, and the choice of the image part of a
  visual response;
- the record shapes of `types.ts`.

The module `JsText` spells out the JavaScript string operations the code
relies on: `trim`, `split`, `join`, `startsWith`, `includes`,
`toLowerCase`, the first-match `replace`, and number-to-string.

Every awaited call to the generative model is a parameter carrying what it
resolved to (`Ok(value)`) or the message it threw (`Fail(msg)`).
`Date.now()` is a parameter too.

Files:

| file | module | source |
|---|---|---|
| types.dfy | `Types` | types.ts |
| js_text.dfy | `JsText` | JavaScript built-ins used by the services |
| ppt_service.dfy | `PptService` | services/pptService.ts |
| word_service.dfy | `WordService` | services/wordService.ts |
| gemini_service.dfy | `GeminiService` | services/geminiService.ts |
| app.dfy | `App` | App.tsx |
| app_export.dfy | `AppExport` | App.tsx with services/wordService.ts |

## Model

| member | source | states |
|---|---|---|
| `JsText.Trim` | services/wordService.ts:24 | `trim()` gives a string with no whitespace at either end, never longer than its input |
| `JsText.TrimCutsOnlyEdges` | services/wordService.ts:24 | the trim is a slice `s[i..j]` of the input with only whitespace before `i` and after `j`: nothing inside is touched |
| `JsText.TrimEmptyIff` | services/wordService.ts:22 | `l.trim() !== ''` holds exactly when the line has a non-whitespace character |
| `JsText.TrimIdempotent` | services/wordService.ts:26 | trimming an already trimmed text changes nothing |
| `JsText.TrimOfTrimmed` | services/wordService.ts:26 | a string with no whitespace at its ends is its own trim |
| `JsText.IndexOf` | services/pptService.ts:62 | the position of the first occurrence of a character, or the length when there is none |
| `JsText.RemoveFirst` | services/pptService.ts:62 | `replace('#', '')` removes only the first `#`; it removes nothing when there is none, and exactly the leading one when the string starts with `#` |
| `JsText.RemoveFirstKeepsTheRest` | services/pptService.ts:66-67 | the result is the text before the first `#` followed by the text after it |
| `JsText.ToLowerAscii` | services/pptService.ts:9 | lower-casing keeps the length |
| `JsText.LowerAscii` | services/pptService.ts:9 | upper-case ASCII letters move to lower case and every other character stays |
| `JsText.Split` | services/wordService.ts:22 | `split('\n')` always yields at least one piece |
| `JsText.SplitJoin` | services/wordService.ts:22 | joining the pieces of `split` with the separator gives the text back, and no piece contains the separator |
| `JsText.SplitFromJoin` | services/wordService.ts:22 | the same round trip for the pieces after any start position |
| `JsText.SplitFromPiecesLackSeparator` | services/wordService.ts:22 | no piece of a split contains the separator |
| `JsText.SplitWithoutSeparator` | services/wordService.ts:22 | a text without the separator splits into itself alone |
| `JsText.JoinSnoc` | services/geminiService.ts:41 | `join` of a longer list adds the separator and the new last part |
| `JsText.JoinLength` | services/geminiService.ts:41 | a joined text is as long as its parts plus one separator between each two |
| `JsText.NatToString` | services/geminiService.ts:110 | the decimal rendering of a number is a non-empty run of digits |
| `JsText.ParseNatToString` | services/geminiService.ts:110 | reading the decimal rendering back gives the number |
| `JsText.NatToStringInjective` | services/geminiService.ts:110 | different numbers render differently |
| `PptService.IsValidImageUrl` | services/pptService.ts:7-12 | an accepted logo URL is present and starts with `http` |
| `PptService.ValidImageUrlIff` | services/pptService.ts:7-12 | a URL is accepted exactly when it is present, starts with `http`, and has no `.svg` in any letter case |
| `PptService.LowerContainsSvg` | services/pptService.ts:9-10 | the lower-cased URL contains `.svg` exactly when the URL has `.svg` in some mix of cases |
| `PptService.TotalChars` | services/pptService.ts:21 | the count is 0 without points and at least the untrimmed length of every point |
| `PptService.TotalCharsAppend` | services/pptService.ts:21 | the character count of two runs of points is the sum of their counts |
| `PptService.AdjustedSizes` | services/pptService.ts:14-38 | the title size is never above 32 and the body size never above 20 |
| `PptService.SummarySizes` | services/pptService.ts:24-28 | strategic-summary slides get `min(t, 28)` / `min(b, 18)` of the clamped sizes, whatever their points |
| `PptService.LightContentKeepsSizes` | services/pptService.ts:18-37 | a slide with at most 400 characters and at most 5 points keeps its clamped style sizes |
| `PptService.HeavyContentFloors` | services/pptService.ts:30-32 | over 600 characters or over 7 points gives body `max(14, 0.85·b)` and title `max(24, 0.9·t)`, so at least 14 and 24 |
| `PptService.MediumContentFloors` | services/pptService.ts:33-34 | medium content gives body `max(16, 0.9·b)`, at least 16, and keeps the clamped title |
| `PptService.EightPointsAt32And20` | services/pptService.ts:30-32 | a 32/20 slide with eight points is drawn at 28.8/17 |
| `PptService.ExampleSummaryAt32And18` | services/pptService.ts:24-28 | a strategic summary styled 32/18 is drawn at 28/18 |
| `PptService.LightSlideMayStaySmall` | services/pptService.ts:18-22 | a light slide styled 12/10 stays at 12/10; there is no lower bound |
| `PptService.PaddingCountsAsContent` | services/pptService.ts:21 | a single point of 401 spaces trims to nothing yet makes the slide medium (body 16) |
| `PptService.FindPrefix` | services/pptService.ts:122 | `keywords.find(k => text.startsWith(k))` returns a listed keyword that starts the text, and finds one exactly when some keyword does |
| `PptService.KeywordsExclusive` | services/pptService.ts:121-122 | at most one of the three keywords starts any text |
| `PptService.WithBreak` | services/pptService.ts:123-124 | every point but the last gets a trailing line break |
| `PptService.SummaryBodyText` | services/pptService.ts:128-130 | after a keyword the run is a line break and the trimmed rest; otherwise it is the trimmed point |
| `PptService.SummaryPointRuns` | services/pptService.ts:126-131 | a point that opens with a keyword gives two runs, any other point gives one |
| `PptService.SummaryPointShape` | services/pptService.ts:127-130 | the keyword run is bold, blue and at body size + 4; the last run has the text colour and the body size |
| `PptService.SummaryLineBreaks` | services/pptService.ts:123-130 | only the last point's run lacks the closing `"\n"`, and that run is trimmed text |
| `PptService.SummaryRunsUpTo` | services/pptService.ts:119-132 | the runs of the first k points number k plus the keyword points among them |
| `PptService.SummaryRunsStep` | services/pptService.ts:120-132 | one more point appends exactly its own runs |
| `PptService.PushPointRuns` | services/pptService.ts:120-132 | the `forEach` callback appends exactly the point's runs to `leftItems` |
| `PptService.BuildSummaryRuns` | services/pptService.ts:119-132 | the loop leaves `leftItems` equal to the runs of all points in order |
| `PptService.ContentRun` | services/pptService.ts:171-181 | a point's run holds exactly the point's trimmed text, has the point's colour or else the slide's text colour with the first `#` removed, is bulleted exactly when the point is no heading, is bold for a heading, and uses the point's own size when it is non-zero |
| `PptService.ContentRuns` | services/pptService.ts:171-181 | a content slide has exactly one run per point |
| `PptService.ContentRunsShape` | services/pptService.ts:171-181 | the runs follow the points in order with trimmed text and the colour `(p.color \|\| textColor)` without its first `#`; headings are bold, unbulleted and at `p.fontSize` or body + 4; other points are bulleted at `p.fontSize` or the body size |
| `PptService.OpinionRuns` | services/pptService.ts:152-154 | one run per authority opinion, in order, none when the list is absent; run `i` is opinion `i` trimmed, bulleted, neither bold nor italic, colour `1E3A8A`, margin 5, at the body size minus 4 |
| `PptService.TitleSlideCommands` | services/pptService.ts:69-111 | a title slide draws one image per logo that passes the filter, then the headline, then the subtitle as the last text |
| `PptService.SummarySlideCommands` | services/pptService.ts:113-160 | a summary slide draws five things: the title, the narrative runs given, the panel, its heading, and the opinion runs |
| `PptService.ContentSlideCommands` | services/pptService.ts:162-201 | a content slide draws the title, a body with one run per point, and a third command exactly when it has an image |
| `PptService.SlideFraming` | services/pptService.ts:62-207 | every slide starts with its background and ends with the footer |
| `PptService.OnlyValidLogosDrawn` | services/pptService.ts:73-95 | every image drawn from a path has a URL that passes the logo filter |
| `PptService.TitleDrawnAtAdjustedSize` | services/pptService.ts:97-166 | titles are drawn bold at the adjusted size; the title slide's headline is ten points larger |
| `PptService.ContentBodyRuns` | services/pptService.ts:171-189 | the body text of a content slide has one run per point, at the adjusted body size unless the point is a heading or sets its own size |
| `PptService.ContentImageIff` | services/pptService.ts:168-201 | a content slide shows an image exactly when its image URL is non-empty, and draws it from that data URL |
| `PptService.SafeTitle` | services/pptService.ts:210 | same length; only `a-z`, `0-9` and `_`; `_` exactly where the title had no ASCII letter or digit, and every ASCII letter or digit replaced by its lower-case form |
| `PptService.SafeTitleFixpoints` | services/pptService.ts:210 | normalising twice is normalising once, and a title is unchanged exactly when it is already safe |
| `PptService.DeckFileName` | services/pptService.ts:210-211 | the file name is the safe title followed by `_deck.pptx` |
| `PptService.Pages` | services/pptService.ts:50-208 | one page per slide |
| `PptService.Presentation.constructor` | services/pptService.ts:47 | a new presentation has no layout, no pages and no file |
| `PptService.Presentation.SetLayout` | services/pptService.ts:48 | sets the layout and nothing else |
| `PptService.Presentation.AddSlide` | services/pptService.ts:51 | appends one page and nothing else |
| `PptService.Presentation.WriteFile` | services/pptService.ts:211 | records the file name and nothing else |
| `PptService.RenderSlide` | services/pptService.ts:51-207 | one slide's commands, built in drawing order, equal its specification |
| `PptService.GeneratePPT` | services/pptService.ts:40-211 | a fresh wide-layout presentation with one page per slide, in order, written as `<safe title>_deck.pptx` |
| `WordService.DigitRunEnd` | services/wordService.ts:25 | the end of the digit run that starts at a position |
| `WordService.DigitRunIsDigits` | services/wordService.ts:25 | every character of that run is a digit |
| `WordService.DigitRunEndUnique` | services/wordService.ts:25 | the run ends exactly at the first non-digit |
| `WordService.StartsWithNumberDotIff` | services/wordService.ts:25 | `/^\d+\./` matches exactly when the text is one or more digits and then a `.` |
| `WordService.IsListLine` | services/wordService.ts:25 | a list line starts with `-`, `*` or a digit |
| `WordService.NumberedMarkerEnd` | services/wordService.ts:26 | a `digits '.' whitespace+` match ends after at least three characters and before a non-whitespace one |
| `WordService.FindNumberedMarker` | services/wordService.ts:26 | finds the leftmost `digits '.' whitespace+` match, or reports that there is none |
| `WordService.RemoveMarkerAsWritten` | services/wordService.ts:26 | the replace as written never lengthens the line and drops exactly the first character of a line that starts with `-` or `*` |
| `WordService.RemoveMarkerAsWrittenShorter` | services/wordService.ts:26 | the replace never lengthens the line, and it removes what an anchored pattern removes whenever the line opens with its marker |
| `WordService.RemoveMarkerAsWrittenCases` | services/wordService.ts:26 | the replace removes a leading `-`/`*`, or else the leftmost numbered marker anywhere, or nothing |
| `WordService.UnanchoredMarkerCutsMidLine` | services/wordService.ts:26 | as written, `1.a 2. b` is a list line and loses its inner `2. `, which the anchored removal keeps |
| `WordService.RemoveLeadingMarker` | services/wordService.ts:26 | the intended removal leaves a suffix of the line |
| `WordService.RemoveLeadingMarkerDropsOnlyTheMarker` | services/wordService.ts:26 | the intended removal drops exactly one leading `-`/`*`, or one leading `digits '.' whitespace+`, or nothing |
| `WordService.MarkerRemovalsAgreeOnLeadingMarkers` | services/wordService.ts:26 | for lines that start with a marker, the code as written and the intended removal agree |
| `WordService.ListItemText` | services/wordService.ts:26 | the list-item text is the line after the replace as written, trimmed; never longer than the line; on a line that opens with its marker it is what the anchored removal leaves |
| `WordService.DoubledStarKeepsOne` | services/wordService.ts:26 | `**x**` becomes the list item `*x**` |
| `WordService.NumberedMarkers` | services/wordService.ts:25-26 | `1. Item` becomes `Item` |
| `WordService.NumberWithoutSpaceStays` | services/wordService.ts:25-26 | `1.Item` is a list line whose text stays `1.Item` |
| `WordService.LineBlock` | services/wordService.ts:24-29 | a line never becomes a heading |
| `WordService.ExportCutsMidLine` | services/wordService.ts:24-26 | the exporter writes the line `1.a 2. b` as the list item `1.a b` |
| `WordService.LineBlockClassification` | services/wordService.ts:24-29 | a line is a list item exactly when its trim starts with `-`, `*` or digits and `.`, and a paragraph of its trimmed text otherwise |
| `WordService.NonBlankPrefix` | services/wordService.ts:22 | filtering a prefix keeps at most its lines |
| `WordService.NonBlankPrefixKeepsNonBlank` | services/wordService.ts:22 | every line with a visible character survives the filter |
| `WordService.NonBlankPrefixKeepsOnly` | services/wordService.ts:22 | every survivor is an input line with a visible character |
| `WordService.NonBlankPrefixAll` | services/wordService.ts:22 | with no blank line the filter keeps everything |
| `WordService.NonBlank` | services/wordService.ts:22 | the filter never adds lines |
| `WordService.NonBlankKeeps` | services/wordService.ts:22 | exactly the lines whose trim is non-empty are kept, and a text without blank lines is kept whole; no lines give none, and the last line is kept after the filtered others exactly when its trim is non-empty, so order and repetitions are the input's |
| `WordService.NonBlankAppend` | services/wordService.ts:22 | filtering a concatenation is filtering each part, in order |
| `WordService.LinesBlocks` | services/wordService.ts:23-30 | one block per non-blank line |
| `WordService.SectionBlocks` | services/wordService.ts:21-30 | a section gives its title heading first, then one non-heading block per non-blank line |
| `WordService.DocumentBlocks` | services/wordService.ts:20-31 | at least one block per section, and none exactly when there are no sections |
| `WordService.SectionHeadings` | services/wordService.ts:21-30 | a section contributes exactly one heading, its own title |
| `WordService.HeadingTitlesAppend` | services/wordService.ts:20-31 | the headings of two block lists are the headings of each, in order |
| `WordService.NoHeadingsAmongLines` | services/wordService.ts:23-30 | lines never produce a heading |
| `WordService.Titles` | services/wordService.ts:21 | one title per section |
| `WordService.TitlesSnoc` | services/wordService.ts:20-21 | a further section adds its title at the end |
| `WordService.HeadingTitlesStep` | services/wordService.ts:20-21 | a further section adds exactly its heading at the end |
| `WordService.HeadingsFollowSections` | services/wordService.ts:20-21 | the document's headings are the section titles, one each, in section order |
| `WordService.RenderBlocksAppend` | services/wordService.ts:19-31 | the HTML of two block lists is the concatenation of their HTML |
| `WordService.OpeningTagAndText` | services/wordService.ts:21-28 | when the text has no `<`, the first `<` after a block's opening tag starts its closing tag |
| `WordService.RenderBlockParts` | services/wordService.ts:21-28 | a block renders as opening tag, verbatim text, closing tag |
| `WordService.IndexFromReaches` | services/wordService.ts:21-28 | a search stops at the first occurrence |
| `WordService.RenderBlockPrefixFree` | services/wordService.ts:21-28 | without markup in the texts, a block's HTML cannot be confused with another block's |
| `WordService.SameOpeningTag` | services/wordService.ts:21-28 | two documents with the same HTML start with the same tag |
| `WordService.SameKindAndText` | services/wordService.ts:21-28 | the tag and the text determine the block |
| `WordService.RenderBlocksCons` | services/wordService.ts:19-31 | the HTML of a block list is its first block's HTML, then the rest |
| `WordService.RenderBlocksNonEmpty` | services/wordService.ts:19-31 | a non-empty block list gives non-empty HTML |
| `WordService.RenderBlocksInjective` | services/wordService.ts:19-31 | without markup in the texts, the HTML determines the blocks |
| `WordService.WordBody` | services/wordService.ts:19-31 | the body is empty exactly when there are no sections |
| `WordService.MarkupInTitleIsNotEscaped` | services/wordService.ts:21 | titles are inserted verbatim, so a title holding `</h1><h1>` renders exactly like two sections |
| `WordService.BuildContent` | services/wordService.ts:19-31 | the outer loop builds the HTML of all sections in order |
| `WordService.AppendSection` | services/wordService.ts:20-30 | one section appends its heading and one block per non-blank line |
| `WordService.AppendLine` | services/wordService.ts:24-29 | one line appends exactly its list item (marker removed by the replace as written) or paragraph |
| `WordService.SectionRendering` | services/wordService.ts:21-30 | the heading followed by the line blocks is the section's HTML |
| `WordService.LinesBlocksStep` | services/wordService.ts:23-30 | one more line appends exactly its block |
| `WordService.DocumentBlocksStep` | services/wordService.ts:20-31 | one more section appends exactly its blocks |
| `WordService.UnderscoreWhitespace` | services/wordService.ts:39 | `replace(/\s+/g, '_')` leaves no whitespace and never lengthens |
| `WordService.UnderscoreWhitespaceAppend` | services/wordService.ts:39 | the replacement can be split after any non-whitespace character |
| `WordService.UnderscoreWhitespaceRun` | services/wordService.ts:39 | a non-empty whitespace run before a non-whitespace character becomes one `_` |
| `WordService.UnderscoreWhitespaceOnePerRun` | services/wordService.ts:39 | each maximal whitespace run `w` in `u + w + v` becomes exactly one `_`, with `u` and `v` replaced on their own |
| `WordService.VisibleOfWhitespaceRun` | services/wordService.ts:39 | skipping part of a whitespace run keeps the visible characters |
| `WordService.UnderscoreWhitespaceKeepsVisible` | services/wordService.ts:39 | the visible characters stay the same and in order, and a name without whitespace is unchanged |
| `WordService.UnderscoreWhitespaceIdempotent` | services/wordService.ts:39 | replacing twice is replacing once |
| `WordService.DownloadName` | services/wordService.ts:39 | the download name is the given name with each whitespace run replaced by `_`, then `.doc`; without a name it is `Case_Analysis.doc`; no whitespace before `.doc` |
| `WordService.DefaultNameHasNoWhitespace` | services/wordService.ts:4 | the default name has no whitespace |
| `WordService.DefaultDownloadName` | services/wordService.ts:4 | the replacement leaves the default name `Case_Analysis` as it is |
| `WordService.ExportToWord` | services/wordService.ts:4-39 | the file is a byte-order mark and the header of lines 5-16 + body + footer, typed `application/msword`, under the download name |
| `GeminiService.RenderSource` | services/geminiService.ts:41 | a rendering is the label, `: ` and the value, and ends with the value verbatim |
| `GeminiService.RenderSourceReadBack` | services/geminiService.ts:41 | a source renders as `URL: ` or `Document: ` followed by its value verbatim |
| `GeminiService.RenderSourceInjective` | services/geminiService.ts:41 | two sources render alike exactly when they have the same kind and value |
| `GeminiService.Renderings` | services/geminiService.ts:41 | one rendering per source |
| `GeminiService.CombinedContent` | services/geminiService.ts:41 | no sources give the empty text, and one source gives its own rendering |
| `GeminiService.CombinedContentSnoc` | services/geminiService.ts:41 | a further source adds `"\n\n"` and its rendering at the end, in source order |
| `GeminiService.CombinedContentSingle` | services/geminiService.ts:41 | one source alone is its rendering |
| `GeminiService.CombinedContentLength` | services/geminiService.ts:41 | the combined text is as long as the renderings plus two characters between each two |
| `GeminiService.PromptExcerpt` | services/geminiService.ts:44 | the prompt carries a prefix of length `min(len, 30000)` |
| `GeminiService.PromptExcerptFacts` | services/geminiService.ts:44 | a short text is kept whole, the cut is idempotent, and text beyond 30000 characters never reaches the prompt |
| `GeminiService.SlideId` | services/geminiService.ts:110 | an id is `slide-`, a non-empty digit run, a dash and a non-empty digit run (a dash position `k` with all digits between `slide-` and `k` and after `k`); distinctness is `GeminiService.SlideIdInjective` |
| `GeminiService.SlideIdInjective` | services/geminiService.ts:110 | two ids `slide-<i>-<t>` are equal only for the same index and timestamp |
| `GeminiService.DigitsBeforeDash` | services/geminiService.ts:110 | a digit run followed by `-` is read off unambiguously |
| `GeminiService.FirstDash` | services/geminiService.ts:110 | the first dash follows the digit run |
| `GeminiService.PostProcessSlide` | services/geminiService.ts:108-112 | a slide gets the id of its position and `DEFAULT_STYLE` (lines 24-38); every other field is kept |
| `GeminiService.PostProcessSlides` | services/geminiService.ts:108-112 | post-processing keeps the number of slides |
| `GeminiService.PostProcessKeepsSlides` | services/geminiService.ts:108-112 | each slide keeps its position and every field but `id` and `style`; `style` becomes `DEFAULT_STYLE` and `id` names the position |
| `GeminiService.PostProcessIdsDistinct` | services/geminiService.ts:110 | ids are pairwise distinct whatever the clock returns |
| `GeminiService.GenerateSlideContent` | services/geminiService.ts:107-113 | a thrown call is passed on, a response without slides fails, and otherwise a deck is returned |
| `GeminiService.GeneratedDeckFacts` | services/geminiService.ts:107-113 | a returned deck keeps title, subtitle and slide count, and every slide has `DEFAULT_STYLE` and a distinct id |
| `GeminiService.ResponseParts` | services/geminiService.ts:127 | parts are only ever those of the first candidate's content; a missing link gives no parts |
| `GeminiService.FirstInlineImage` | services/geminiService.ts:127-130 | succeeds exactly when some part has inline data; returns the data URL of the first such part; otherwise fails with `Visual generation failed.` |
| `GeminiService.FirstImagePartUnique` | services/geminiService.ts:127-128 | only one part is the first image part |
| `GeminiService.ComplexScenarioVisual` | services/geminiService.ts:127-130 | over `candidates?.[0]?.content?.parts \|\| []`: a URL exactly when a part has inline data, and then `data:image/png;base64,` followed by the data of the first such part; else the error |
| `App.AcceptsUrl` | App.tsx:42 | only a non-empty input is accepted |
| `App.AcceptsUrlIff` | App.tsx:42 | a URL is added exactly when the input has a non-whitespace character |
| `App.UrlSource` | App.tsx:43 | the new source is a `url` whose value and name are the untrimmed input |
| `App.Without` | App.tsx:62 | the filter keeps exactly the sources with another id and never adds any |
| `App.WithoutAppend` | App.tsx:62 | the filter distributes over concatenation, so the kept sources stay in order |
| `App.WithoutAbsent` | App.tsx:62 | removing an id no source has changes nothing |
| `App.WithoutIdempotent` | App.tsx:62 | removing twice is removing once |
| `App.MarkDone` | App.tsx:76 | marking the log keeps its messages and marks every entry done |
| `App.MarkDoneThenPending` | App.tsx:76 | after marking and adding a step, only the last entry is pending |
| `App.EditedSections` | App.tsx:295-296 | an edit changes only that section's content; count, order and titles stay |
| `App.EditSameContent` | App.tsx:295-296 | an edit to the same text changes nothing |
| `App.CaseLens.Valid` | App.tsx:64-106 | between handlers no call is pending (neither ANALYZING_WORD nor GENERATING_PPT) and READY has a deck |
| `App.CaseLens.constructor` | App.tsx:14-23 | the initial state: IDLE, nothing loaded, index 0, no error |
| `App.CaseLens.CurrentSlide` | App.tsx:108 | there is a current slide exactly when a deck exists and the index is inside it |
| `App.CaseLens.SetUrlInput` | App.tsx:158 | typing changes only the URL field |
| `App.CaseLens.AddUrlSource` | App.tsx:41-45 | whitespace-only input changes nothing; otherwise exactly one `url` source is appended and the input is cleared |
| `App.CaseLens.RemoveSource` | App.tsx:62 | the sources become the filtered list; nothing else changes |
| `App.CaseLens.StartAnalysis` | App.tsx:64-84 | no sources: no change. Otherwise ANALYZING_WORD, then validation. A negative result gives VALIDATION_FAILED with no analysis call. A throw gives ERROR with its message. Success stores the sections and gives WORD_READY |
| `App.CaseLens.ReviewSources` | App.tsx:76-83 | after validation the log shows the first step done; the analysis is requested, then stored (WORD_READY) or its error reported (ERROR) |
| `App.CaseLens.GeneratePptAction` | App.tsx:86-97 | GENERATING_PPT and a deck request; then the deck and READY, or the error message and ERROR |
| `App.CaseLens.Reset` | App.tsx:99-106 | IDLE with no deck, no sections, no sources, an empty log and index 0; the error message is kept |
| `App.CaseLens.EditSection` | App.tsx:294-297 | the sections become the edited copy; nothing else changes |
| `App.HappyPath` | App.tsx:41-97 | adding a URL, a valid analysis and a deck pass through every stage in order and end READY with that deck |
| `AppExport.EditKeepsExportHeadings` | App.tsx:294-297 | an edit never changes the headings of the Word export |

Every `App.CaseLens` handler keeps `Valid()`. Between handlers no call is
pending, READY implies a deck, ERROR implies a message, and only the last
log entry may be pending. The message part holds because every failure
carries a message (see "## Left out").

## Left out

- Network and I/O are not modelled. This covers the generative-model calls, their prompt strings and response schemas, and `JSON.parse`. It also covers `FileReader`, Blob, object URLs, the anchor-click download, `alert` and `console`. The PptxGenJS calls become commands recorded by `PptService.Presentation`.
- `validateSources`, `generateWordAnalysis` and `generatePPTFromWord` are imported from services/geminiService.ts (App.tsx:9), which does not define them: it exports only `generateOutline`, `generateSlideContent` and `generateComplexScenarioVisual` (geminiService.ts:40, :54, :116). Their results are parameters.
- `generateOutline` is a foreign call; only its source concatenation and cut are modelled.
- `addFileSource` (App.tsx:47-60) is not modelled. It depends on a `FileReader` callback that captures `sources` from an earlier render.
- `Date.now()` is not modelled. A source id is a parameter, and the model does not claim ids are unique. A slide timestamp is a `clock` parameter, read once per slide.
- Asynchronous interleaving is not modelled. Each handler runs to completion with its awaited results given. A reset clicked while a call is pending is not covered.
- `App.CaseLens.EditSection`: sections are values, so the model does not capture one effect of the handler. The handler writes `next[idx].content` through a shallow copy, so the same section object in the previous state changes too.
- `GeminiService.GenerateSlideContent`: a response is a deck with optional slides. A response that lacks `presentationTitle` or `subtitle`, or has slides of the wrong shape, is not modelled. The `TypeError` message for absent slides is the V8 wording.
- `PptService.AdjustedSizes`: font arithmetic uses exact reals, not IEEE doubles.
- The zoom handler, the JSX markup, the slide preview and `components/AnalysisView.tsx` are not modelled.
- Slide-library exceptions caught around `addImage` (`try`/`catch` with `console.warn`) are not modelled. An image command is always recorded.
- `JsText.ToLowerAscii` lowers ASCII letters only. It is used on URLs, where `.svg` is ASCII.
- `PptService.TotalChars`: lengths count characters, where JavaScript's `length` counts UTF-16 code units. A character outside the Basic Multilingual Plane, such as an emoji, counts 1 here and 2 in the code, so the size branch of a slide of such characters can differ.
- `PptService.SafeTitle`: the pattern `/[^a-z0-9]/gi` has no `u` flag, so the code replaces each half of a surrogate pair, giving two `_` for one emoji. The model gives one `_` per character: the title `Q😀` gives `q___deck.pptx` in the code and `q__deck.pptx` here.
- `GeminiService.PromptExcerpt`: `substring(0, 30000)` counts UTF-16 code units; the model cuts after 30000 characters, so text with characters outside the Basic Multilingual Plane is cut at a later point than in the code.
- `GeminiService.ComplexScenarioVisual`: `InlineData.data` is always a string. In the code a part whose `inlineData` lacks `data` still counts as the image, and the template literal gives `data:image/png;base64,undefined` (geminiService.ts:127-130); the model has no such part.
- `App.CaseLens.Valid`: a failed call is `Fail(msg)` with a string message, so ERROR always has a message. The code stores `err.message` (App.tsx:81 and App.tsx:94), which is `undefined` when the rejection is not an `Error`; the screen then falls back to a generic text (App.tsx:414). The model does not represent a rejection without a message.

Facts about the code a reader might not expect:

- `totalChars` adds untrimmed text lengths (pptService.ts:21). `PptService.PaddingCountsAsContent` shows the effect.
- Only the heavy branch has lower bounds (24 for the title, 14 for the body). Light slides keep their clamped style sizes, however small; see `PptService.LightSlideMayStaySmall`.
- The pipeline has seven statuses; reading the sources is part of ANALYZING_WORD, not a status of its own.
- `reset` does not clear `error`.
- Whitespace-only points are not filtered out of slides.
- The on-screen preview does not call `getAdjustedSizes`, so it may show other font sizes than the exported deck.

## Findings

| source | as written | input that shows it | evidently intended | confidence | as-written member | corrected member |
|---|---|---|---|---|---|---|
| services/wordService.ts:26 | `/^[-*]\|\d+\.\s+/` anchors only its first alternative, so the numbered-marker alternative removes the leftmost `digits '.' whitespace+` anywhere in the line | `1.a 2. b` is a list line (it starts with `1.`) and becomes `<li>1.a b</li>` | remove a marker only at the start of the line: `1.a 2. b` stays `1.a 2. b` | not executed | `WordService.UnanchoredMarkerCutsMidLine` | `WordService.RemoveLeadingMarkerDropsOnlyTheMarker` |

`WordService.RemoveMarkerAsWritten` is the replace as written, and the
exporter (`WordService.ListItemText`, `WordService.AppendLine`, and through
them `WordService.WordBody` and `WordService.ExportToWord`) uses it, so the
exported HTML is that of the code: `WordService.ExportCutsMidLine` shows
`1.a 2. b` written as `<ul><li>1.a b</li></ul>`.
`WordService.RemoveLeadingMarker` is the corrected removal, with its property
proved in `WordService.RemoveLeadingMarkerDropsOnlyTheMarker`. The two agree
on every line that opens with its marker
(`WordService.MarkerRemovalsAgreeOnLeadingMarkers`), which is every line
written as `- x`, `* x` or `1. x`.
