/** What the section editor of App.tsx means for the Word export of
    services/wordService.ts. */
module AppExport {
  import opened Types
  import App
  import WordService

  /** An edit never changes the headings of the Word export: they are the
      section titles, in order, before and after. */
  lemma EditKeepsExportHeadings(sections: seq<WordSection>, idx: nat, value: string)
    requires idx < |sections|
    ensures WordService.HeadingTitles(WordService.DocumentBlocks(App.EditedSections(sections, idx, value)))
         == WordService.HeadingTitles(WordService.DocumentBlocks(sections))
  {
    var edited := App.EditedSections(sections, idx, value);
    WordService.HeadingsFollowSections(edited);
    WordService.HeadingsFollowSections(sections);
    assert WordService.Titles(edited) == WordService.Titles(sections);
  }
}
