/**
 * The chapter page (src/components/ChapterDetails.js, and its earlier copy
 * src/components/example.js, which shares this model): moving to the previous
 * or next chapter by number, the tab switch, loading the chapter text, the
 * metadata merge, the header and what the page shows.
 */
module ChapterDetails {
  import opened JsValues
  import BookDetails

  datatype Tab = MetadataTab | ContentTab | CommentsTab

  /** The page's own record of the chapter on screen. */
  datatype CurrentChapter = CurrentChapter(id: string, title: string, number: int, metadata: Json)

  /** Everything the page keeps in state. */
  datatype PageState = PageState(
    loading: bool,
    error: Option<string>,
    metadata: Json,
    activeTab: Tab,
    chapterContent: string,
    currentChapter: CurrentChapter)

  // ---------------------------------------------------------------- moving between chapters

  /** The chapter number `fetchChapter` asks for: one on for "next", one back for any other direction. */
  function Target(number: int, direction: string): (t: int)
    ensures direction == "next" ==> t == number + 1
    ensures direction != "next" ==> t == number - 1
  {
    if direction == "next" then number + 1 else number - 1
  }

  predicate PreviousDisabled(number: int, loading: bool) {
    number <= 1 || loading
  }

  predicate NextDisabled(number: int, totalChapters: int, loading: bool) {
    number >= totalChapters || loading
  }

  /**
   * A button that is enabled asks for a chapter number inside the book, and only
   * while nothing is loading.
   */
  lemma EnabledTargetsInBook(number: int, totalChapters: int, loading: bool)
    ensures !PreviousDisabled(number, loading) ==> !loading && Target(number, "prev") >= 1
    ensures !NextDisabled(number, totalChapters, loading) ==> !loading && Target(number, "next") <= totalChapters
    ensures 1 <= number <= totalChapters ==>
      (!PreviousDisabled(number, loading) ==> 1 <= Target(number, "prev") <= totalChapters)
      && (!NextDisabled(number, totalChapters, loading) ==> 1 <= Target(number, "next") <= totalChapters)
  {
  }

  function NoChapterMessage(direction: string): string {
    "No " + direction + " chapter available."
  }

  function FailedChapterMessage(direction: string): string {
    "Failed to load " + direction + " chapter. Please try again later."
  }

  /** The location the page replaces the current one with after moving. */
  function ChapterPath(bookId: string, chapterId: string): string {
    "/books/" + bookId + "/chapters/" + chapterId
  }

  /**
   * `fetchChapter`, given the store's answer for the target row (`Data(None)` for
   * an empty answer): a row replaces the chapter, its metadata and the text; any
   * other answer records an error naming the direction. Loading ends false.
   */
  function AfterFetchChapter(s: PageState, direction: string, answer: Answer<Option<BookDetails.Chapter>>): PageState {
    var cleared := s.(loading := false, error := None);
    match answer
    case Failed => cleared.(error := Some(FailedChapterMessage(direction)))
    case Data(None) => cleared.(error := Some(NoChapterMessage(direction)))
    case Data(Some(row)) =>
      cleared.(currentChapter := CurrentChapter(row.id, row.title, row.number, row.metadata),
               metadata := row.metadata, chapterContent := "")
  }

  /** The two outcomes of a move, and what each leaves alone. */
  lemma FetchChapterOutcomes(s: PageState, direction: string, answer: Answer<Option<BookDetails.Chapter>>)
    ensures var t := AfterFetchChapter(s, direction, answer);
      !t.loading && t.activeTab == s.activeTab
    ensures answer.Data? && answer.data.Some? ==>
      var t := AfterFetchChapter(s, direction, answer);
      var row := answer.data.value;
      t.currentChapter.id == row.id && t.currentChapter.title == row.title
      && t.currentChapter.number == row.number && t.currentChapter.metadata == row.metadata
      && t.metadata == row.metadata && t.chapterContent == "" && t.error == None
    ensures !(answer.Data? && answer.data.Some?) ==>
      var t := AfterFetchChapter(s, direction, answer);
      t.currentChapter == s.currentChapter && t.metadata == s.metadata && t.chapterContent == s.chapterContent
      && t.error == Some(if answer.Failed? then FailedChapterMessage(direction) else NoChapterMessage(direction))
  {
  }

  // ---------------------------------------------------------------- chapter text

  /**
   * The key `fetchChapterContent` queries by, and the chapter id the summary
   * panel is given, as written: the `chapterId` prop the page was opened with,
   * whatever chapter is on screen now.
   */
  function ContentKeyAsWritten(chapterIdProp: string, current: CurrentChapter): string {
    chapterIdProp
  }

  /** The key the content query evidently means: the chapter on screen, whose id re-runs the effect. */
  function ContentKey(current: CurrentChapter): string {
    current.id
  }

  /**
   * After any successful move to a row whose id is not the prop's, the
   * as-written query (and the summary panel) still name the chapter the page
   * was opened with, not the one on screen. For example, opened on "c1" and
   * moved to "c2", the text asked for is c1's.
   */
  lemma ContentKeyAsWrittenIsStale(chapterIdProp: string, s: PageState, direction: string, row: BookDetails.Chapter)
    requires row.id != chapterIdProp
    ensures var t := AfterFetchChapter(s, direction, Data(Some(row)));
      t.currentChapter.id == row.id
      && ContentKeyAsWritten(chapterIdProp, t.currentChapter) == chapterIdProp
      && ContentKeyAsWritten(chapterIdProp, t.currentChapter) != t.currentChapter.id
      && SummaryPanelAsWritten(t, chapterIdProp).chapterId != t.currentChapter.id
  {
  }

  /**
   * With the corrected key, the text asked for after any run of moves and
   * content loads is that of the chapter on screen, and after a successful
   * move it is that of the row moved to.
   */
  lemma ContentKeyFollowsMoves(s: PageState, direction: string, row: BookDetails.Chapter, text: Answer<Option<string>>)
    ensures var t := AfterFetchChapter(s, direction, Data(Some(row)));
      ContentKey(t.currentChapter) == row.id
      && ContentKey(AfterFetchContent(t, text).currentChapter) == row.id
      && SummaryPanelCorrected(t).chapterId == row.id
  {
  }

  /**
   * `fetchChapterContent`, given the store's answer (`Data(None)` for an empty
   * one): a row sets the text, an error sets the content error, and loading ends
   * false. A success does not clear an earlier error.
   */
  function AfterFetchContent(s: PageState, answer: Answer<Option<string>>): (t: PageState)
    ensures !t.loading && t.currentChapter == s.currentChapter && t.activeTab == s.activeTab
    ensures answer.Failed? ==> t == s.(loading := false, error := Some("Failed to load chapter content"))
    ensures answer.Data? && answer.data.Some? ==> t == s.(loading := false, chapterContent := answer.data.value)
    ensures answer.Data? && answer.data.None? ==> t == s.(loading := false)
  {
    match answer
    case Failed => s.(loading := false, error := Some("Failed to load chapter content"))
    case Data(Some(text)) => s.(loading := false, chapterContent := text)
    case Data(None) => s.(loading := false)
  }

  /** `handleMetadataUpdate`: the new metadata, on the page and on the chapter record. */
  function MetadataUpdated(s: PageState, m: Json): (t: PageState)
    ensures t.metadata == m && t.currentChapter.metadata == m
    ensures t.currentChapter.id == s.currentChapter.id && t.currentChapter.title == s.currentChapter.title
    ensures t.currentChapter.number == s.currentChapter.number
    ensures t.loading == s.loading && t.error == s.error && t.activeTab == s.activeTab
    ensures t.chapterContent == s.chapterContent
  {
    s.(metadata := m, currentChapter := s.currentChapter.(metadata := m))
  }

  // ---------------------------------------------------------------- header and screens

  const TitleLimit: nat := 28

  /** The book title in the header: cut to 28 characters plus "..." when longer, `-` when absent or empty. */
  function HeaderTitle(bookTitle: Option<string>): (r: string)
    ensures bookTitle.None? || bookTitle.value == "" ==> r == "-"
    ensures bookTitle.Some? && 0 < |bookTitle.value| <= TitleLimit ==> r == bookTitle.value
    ensures bookTitle.Some? && |bookTitle.value| > TitleLimit ==>
      r == bookTitle.value[..TitleLimit] + "..." && |r| == TitleLimit + 3
    ensures |r| <= TitleLimit + 3
  {
    match bookTitle
    case None => "-"
    case Some(t) =>
      if t == "" then "-"
      else if |t| > TitleLimit then t[..TitleLimit] + "..."
      else t
  }

  /** Shortening a title that is already shortened changes nothing. */
  lemma {:induction false} HeaderTitleIdempotent(bookTitle: Option<string>)
    ensures HeaderTitle(Some(HeaderTitle(bookTitle))) == HeaderTitle(bookTitle)
  {
    var r := HeaderTitle(bookTitle);
    if bookTitle.Some? && |bookTitle.value| > TitleLimit {
      assert r[..TitleLimit] == bookTitle.value[..TitleLimit];
    }
  }

  /** The heading "Chapter <number> - <title>": `-` for a zero number, "Untitled Chapter" for an empty title. */
  datatype Heading = Heading(number: Option<int>, title: string)

  function HeadingOf(c: CurrentChapter): (h: Heading)
    ensures h.number == (if c.number == 0 then None else Some(c.number))
    ensures h.title == (if c.title == "" then "Untitled Chapter" else c.title)
  {
    Heading(if c.number == 0 then None else Some(c.number), if c.title == "" then "Untitled Chapter" else c.title)
  }

  /** The header: the shortened book title and the two buttons' disabled flags. */
  datatype Header = Header(bookTitle: string, previousDisabled: bool, nextDisabled: bool, heading: Heading)

  function HeaderOf(s: PageState, totalChapters: int, bookTitle: Option<string>): Header {
    Header(HeaderTitle(bookTitle),
           PreviousDisabled(s.currentChapter.number, s.loading),
           NextDisabled(s.currentChapter.number, totalChapters, s.loading),
           HeadingOf(s.currentChapter))
  }

  /** The panel of a tab. */
  datatype Panel =
    | MetadataPanel(metadata: Json, chapterId: string)
    | ContentPanel(text: string)
    | CommentsPanel
    | NoPanel

  /**
   * The summary panel as written: the page's metadata, or the chapter record's
   * when that is falsy, and the `chapterId` prop, not the chapter on screen.
   */
  function SummaryPanelAsWritten(s: PageState, chapterIdProp: string): (p: Panel)
    ensures p.MetadataPanel? && p.chapterId == ContentKeyAsWritten(chapterIdProp, s.currentChapter)
    ensures p.metadata == (if Truthy(s.metadata) then s.metadata else s.currentChapter.metadata)
  {
    MetadataPanel(if Truthy(s.metadata) then s.metadata else s.currentChapter.metadata,
                  ContentKeyAsWritten(chapterIdProp, s.currentChapter))
  }

  /** The summary panel with the corrected key: the chapter on screen. */
  function SummaryPanelCorrected(s: PageState): (p: Panel)
    ensures p.MetadataPanel? && p.chapterId == s.currentChapter.id
    ensures p.metadata == SummaryPanelAsWritten(s, s.currentChapter.id).metadata
  {
    MetadataPanel(if Truthy(s.metadata) then s.metadata else s.currentChapter.metadata, ContentKey(s.currentChapter))
  }

  predicate HasError(s: PageState) {
    s.error.Some? && s.error.value != ""
  }

  /** What src/components/ChapterDetails.js shows. */
  datatype DetailsScreen = LoadingScreen | ErrorScreen(message: string) | ChapterScreen(header: Header, panel: Panel)

  /**
   * The loading screen comes first, then the error screen, then the page with
   * the panel of the active tab (this page has no comments tab).
   */
  function DetailsView(s: PageState, chapterIdProp: string, totalChapters: int, bookTitle: Option<string>): (v: DetailsScreen)
    ensures v.LoadingScreen? <==> s.loading
    ensures v.ErrorScreen? <==> !s.loading && HasError(s)
    ensures v.ErrorScreen? ==> v.message == s.error.value
    ensures v.ChapterScreen? ==>
      v.header == HeaderOf(s, totalChapters, bookTitle)
      && (s.activeTab == MetadataTab ==> v.panel == SummaryPanelAsWritten(s, chapterIdProp))
      && (s.activeTab == ContentTab ==> v.panel == ContentPanel(s.chapterContent))
      && (s.activeTab == CommentsTab ==> v.panel == NoPanel)
  {
    if s.loading then LoadingScreen
    else if HasError(s) then ErrorScreen(s.error.value)
    else
      var panel := match s.activeTab
        case MetadataTab => SummaryPanelAsWritten(s, chapterIdProp)
        case ContentTab => ContentPanel(s.chapterContent)
        case CommentsTab => NoPanel;
      ChapterScreen(HeaderOf(s, totalChapters, bookTitle), panel)
  }

  /** The panel area of src/components/example.js: a spinner, an error, or the active tab's panel. */
  datatype PanelArea = Spinner | Failure(message: string) | TabPanel(panel: Panel)

  /** What src/components/example.js shows: always the header, then the panel area. */
  datatype ExampleScreen = ExampleScreen(header: Header, area: PanelArea)

  /**
   * Loading comes before the error, which comes before the panels; of the three
   * panels exactly the active tab's is shown.
   */
  function ExampleView(s: PageState, chapterIdProp: string, totalChapters: int, bookTitle: Option<string>): (v: ExampleScreen)
    ensures v.header == HeaderOf(s, totalChapters, bookTitle)
    ensures v.area.Spinner? <==> s.loading
    ensures v.area.Failure? <==> !s.loading && HasError(s)
    ensures v.area.TabPanel? ==>
      (v.area.panel.MetadataPanel? <==> s.activeTab == MetadataTab)
      && (v.area.panel.ContentPanel? <==> s.activeTab == ContentTab)
      && (v.area.panel.CommentsPanel? <==> s.activeTab == CommentsTab)
      && (s.activeTab == MetadataTab ==> v.area.panel == SummaryPanelAsWritten(s, chapterIdProp))
      && (s.activeTab == ContentTab ==> v.area.panel == ContentPanel(s.chapterContent))
  {
    var area :=
      if s.loading then Spinner
      else if HasError(s) then Failure(s.error.value)
      else TabPanel(match s.activeTab
        case MetadataTab => SummaryPanelAsWritten(s, chapterIdProp)
        case ContentTab => ContentPanel(s.chapterContent)
        case CommentsTab => CommentsPanel);
    ExampleScreen(HeaderOf(s, totalChapters, bookTitle), area)
  }

  // ---------------------------------------------------------------- the page's state

  class ChapterPage {
    const bookId: string
    const chapterId: string
    const totalChapters: int
    const bookTitle: Option<string>
    var loading: bool
    var error: Option<string>
    var metadata: Json
    var activeTab: Tab
    var chapterContent: string
    var currentChapter: CurrentChapter

    function State(): PageState
      reads this
    {
      PageState(loading, error, metadata, activeTab, chapterContent, currentChapter)
    }

    constructor (bookId: string, chapterId: string, chapterTitle: string, chapterNumber: int,
                 totalChapters: int, bookTitle: Option<string>, initialMetadata: Json)
      ensures this.bookId == bookId && this.chapterId == chapterId
      ensures this.totalChapters == totalChapters && this.bookTitle == bookTitle
      ensures State() == PageState(false, None, initialMetadata, MetadataTab, "",
        CurrentChapter(chapterId, chapterTitle, chapterNumber, initialMetadata))
    {
      this.bookId := bookId;
      this.chapterId := chapterId;
      this.totalChapters := totalChapters;
      this.bookTitle := bookTitle;
      loading := false;
      error := None;
      metadata := initialMetadata;
      activeTab := MetadataTab;
      chapterContent := "";
      currentChapter := CurrentChapter(chapterId, chapterTitle, chapterNumber, initialMetadata);
    }

    /**
     * `fetchChapter`: the number and book it asks the store for, the new state,
     * and the location it moves to on success.
     */
    method FetchChapter(direction: string, answer: Answer<Option<BookDetails.Chapter>>)
      returns (target: int, nav: Option<string>)
      modifies this`loading, this`error, this`metadata, this`chapterContent, this`currentChapter
      ensures target == Target(old(currentChapter.number), direction)
      ensures State() == AfterFetchChapter(old(State()), direction, answer)
      ensures nav == if answer.Data? && answer.data.Some? then Some(ChapterPath(bookId, answer.data.value.id)) else None
    {
      loading := true;
      error := None;
      target := if direction == "next" then currentChapter.number + 1 else currentChapter.number - 1;
      nav := None;
      match answer {
        case Failed =>
          error := Some(FailedChapterMessage(direction));
        case Data(None) =>
          error := Some(NoChapterMessage(direction));
        case Data(Some(row)) =>
          currentChapter := CurrentChapter(row.id, row.title, row.number, row.metadata);
          metadata := row.metadata;
          chapterContent := "";
          nav := Some(ChapterPath(bookId, row.id));
      }
      loading := false;
    }

    /** `fetchChapterContent`, keyed by the `chapterId` prop as written. */
    method FetchChapterContent(answer: Answer<Option<string>>) returns (key: string)
      modifies this`loading, this`error, this`chapterContent
      ensures key == ContentKeyAsWritten(chapterId, old(currentChapter)) && key == chapterId
      ensures State() == AfterFetchContent(old(State()), answer)
    {
      loading := true;
      key := chapterId;
      match answer {
        case Failed =>
          error := Some("Failed to load chapter content");
        case Data(Some(text)) =>
          chapterContent := text;
        case Data(None) =>
      }
      loading := false;
    }

    /** The effect on the tab and the chapter id: the text is fetched only on the content tab. */
    method ContentEffect(answer: Answer<Option<string>>) returns (key: Option<string>)
      modifies this`loading, this`error, this`chapterContent
      ensures key.Some? <==> old(activeTab) == ContentTab
      ensures key.Some? ==>
        key.value == ContentKeyAsWritten(chapterId, old(currentChapter)) && State() == AfterFetchContent(old(State()), answer)
      ensures key.None? ==> State() == old(State())
    {
      key := None;
      if activeTab == ContentTab {
        var k := FetchChapterContent(answer);
        key := Some(k);
      }
    }

    method HandleTabChange(tab: Tab)
      modifies this`activeTab
      ensures State() == old(State()).(activeTab := tab)
    {
      activeTab := tab;
    }

    /** The page as src/components/ChapterDetails.js renders it. */
    function Details(): DetailsScreen
      reads this
    {
      DetailsView(State(), chapterId, totalChapters, bookTitle)
    }

    /** The page as src/components/example.js renders it. */
    function Example(): ExampleScreen
      reads this
    {
      ExampleView(State(), chapterId, totalChapters, bookTitle)
    }

    method HandleMetadataUpdate(m: Json)
      modifies this`metadata, this`currentChapter
      ensures State() == MetadataUpdated(old(State()), m)
    {
      metadata := m;
      currentChapter := currentChapter.(metadata := m);
    }
  }
}
