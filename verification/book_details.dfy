/**
 * The book page (src/components/BookDetails.js): the table of contents, the
 * chapter cursor its buttons move, and which chapter is open.
 */
module BookDetails {
  import opened JsValues
  import opened Cursor

  /** A row of the `chapter_contents` table, as far as the pages read it. */
  datatype Chapter = Chapter(id: string, bookId: string, title: string, number: int, metadata: Json)

  /** The header fields of a `books` row. */
  datatype BookInfo = BookInfo(title: string, author: string)

  /** `chapters[i]` in JavaScript: `undefined` (here `None`) for an index outside the list. */
  function At(chapters: seq<Chapter>, i: int): (c: Option<Chapter>)
    ensures c.Some? <==> 0 <= i < |chapters|
    ensures c.Some? ==> c.value == chapters[i]
  {
    if 0 <= i < |chapters| then Some(chapters[i]) else None
  }

  /** `getChapterClassName` and the two spans: the entry of the chapter the cursor is on is highlighted. */
  predicate IsHighlighted(c: Chapter, index: int) {
    c.number == index + 1
  }

  /** The disabled flag of "Previous Chapter". */
  predicate PreviousDisabled(index: int) {
    AtFirst(index)
  }

  /** The disabled flag of "Next Chapter". */
  predicate NextDisabled(index: int, count: int) {
    AtLast(index, count)
  }

  /** The chapters are numbered 1, 2, 3, ... in list order. */
  predicate WellNumbered(chapters: seq<Chapter>) {
    forall i :: 0 <= i < |chapters| ==> chapters[i].number == i + 1
  }

  /** In a well-numbered list, the highlighted entry is the one at the cursor, and only that one. */
  lemma HighlightIsCursor(chapters: seq<Chapter>, index: int)
    requires WellNumbered(chapters)
    ensures forall i :: 0 <= i < |chapters| ==> (IsHighlighted(chapters[i], index) <==> i == index)
  {
  }

  /** One entry of the table of contents. */
  datatype ContentsEntry = ContentsEntry(title: string, highlighted: bool)

  /** What the book page shows. */
  datatype BookScreen =
    | LoadingBook
    | ReadingChapter(chapter: Chapter)
    | Contents(book: BookInfo, entries: seq<ContentsEntry>, previousDisabled: bool, nextDisabled: bool)

  function Entries(chapters: seq<Chapter>, index: int): (es: seq<ContentsEntry>)
    ensures |es| == |chapters|
    ensures forall i :: 0 <= i < |chapters| ==>
      es[i].title == chapters[i].title && (es[i].highlighted <==> IsHighlighted(chapters[i], index))
  {
    seq(|chapters|, i requires 0 <= i < |chapters| => ContentsEntry(chapters[i].title, IsHighlighted(chapters[i], index)))
  }

  /**
   * The page: "Loading..." until the book row arrived, then the open chapter if
   * there is one, else the table of contents with its two buttons.
   */
  function Screen(book: Option<BookInfo>, chapters: seq<Chapter>, selected: Option<Chapter>, index: int): (s: BookScreen)
    ensures s.LoadingBook? <==> book.None?
    ensures s.ReadingChapter? <==> book.Some? && selected.Some?
    ensures s.ReadingChapter? ==> s.chapter == selected.value
    ensures s.Contents? ==>
      s.book == book.value && s.entries == Entries(chapters, index)
      && (s.previousDisabled <==> index == 0) && (s.nextDisabled <==> index == |chapters| - 1)
  {
    match book
    case None => LoadingBook
    case Some(b) =>
      match selected
      case Some(c) => ReadingChapter(c)
      case None => Contents(b, Entries(chapters, index), PreviousDisabled(index), NextDisabled(index, |chapters|))
  }

  /** The book page's state. */
  class ChapterList {
    var book: Option<BookInfo>
    var chapters: seq<Chapter>
    var selectedChapter: Option<Chapter>
    var currentChapterIndex: int

    constructor ()
      ensures book == None && chapters == [] && selectedChapter == None && currentChapterIndex == 0
    {
      book := None;
      chapters := [];
      selectedChapter := None;
      currentChapterIndex := 0;
    }

    function View(): BookScreen
      reads this
    {
      Screen(book, chapters, selectedChapter, currentChapterIndex)
    }

    /** `fetchBookDetails`, given the store's answer; an error keeps what was there. */
    method LoadBook(answer: Answer<BookInfo>)
      modifies this`book
      ensures book == if answer.Data? then Some(answer.data) else old(book)
    {
      if answer.Data? {
        book := Some(answer.data);
      }
    }

    /** `fetchChapters`, given the store's rows in creation order; an error keeps what was there. */
    method LoadChapters(answer: Answer<seq<Chapter>>)
      modifies this`chapters
      ensures chapters == if answer.Data? then answer.data else old(chapters)
    {
      if answer.Data? {
        chapters := answer.data;
      }
    }

    /** `handleChapterClick`: open the chapter and put the cursor on its number. */
    method HandleChapterClick(chapter: Chapter)
      modifies this`selectedChapter, this`currentChapterIndex
      ensures selectedChapter == Some(chapter)
      ensures currentChapterIndex == chapter.number - 1
      ensures IsHighlighted(chapter, currentChapterIndex)
    {
      selectedChapter := Some(chapter);
      currentChapterIndex := chapter.number - 1;
    }

    /** `handleBackToBook`: close the chapter; the cursor and the list stay. */
    method HandleBackToBook()
      modifies this`selectedChapter
      ensures selectedChapter == None
    {
      selectedChapter := None;
    }

    /** `handleNextChapter`: one step on, opening the chapter there, only before the last entry. */
    method HandleNextChapter()
      modifies this`selectedChapter, this`currentChapterIndex
      ensures currentChapterIndex == Forward(old(currentChapterIndex), |chapters|)
      ensures old(currentChapterIndex) < |chapters| - 1 ==>
        currentChapterIndex == old(currentChapterIndex) + 1 && selectedChapter == At(chapters, currentChapterIndex)
      ensures old(currentChapterIndex) >= |chapters| - 1 ==>
        currentChapterIndex == old(currentChapterIndex) && selectedChapter == old(selectedChapter)
    {
      if currentChapterIndex < |chapters| - 1 {
        var nextIndex := currentChapterIndex + 1;
        currentChapterIndex := nextIndex;
        selectedChapter := At(chapters, nextIndex);
      }
    }

    /** `handlePreviousChapter`: one step back, opening the chapter there, only after the first entry. */
    method HandlePreviousChapter()
      modifies this`selectedChapter, this`currentChapterIndex
      ensures currentChapterIndex == Backward(old(currentChapterIndex))
      ensures old(currentChapterIndex) > 0 ==>
        currentChapterIndex == old(currentChapterIndex) - 1 && selectedChapter == At(chapters, currentChapterIndex)
      ensures old(currentChapterIndex) <= 0 ==>
        currentChapterIndex == old(currentChapterIndex) && selectedChapter == old(selectedChapter)
    {
      if currentChapterIndex > 0 {
        var prevIndex := currentChapterIndex - 1;
        currentChapterIndex := prevIndex;
        selectedChapter := At(chapters, prevIndex);
      }
    }
  }

  /**
   * From a cursor on an entry, a move lands on an entry and opens the chapter
   * there (a blocked move keeps both); on an empty list, from the starting
   * cursor, neither button moves.
   */
  lemma MovesOpenAnEntry(chapters: seq<Chapter>, index: int)
    ensures InRange(index, |chapters|) ==>
      InRange(Forward(index, |chapters|), |chapters|) && InRange(Backward(index), |chapters|)
      && At(chapters, Forward(index, |chapters|)).Some? && At(chapters, Backward(index)).Some?
    ensures chapters == [] && index == 0 ==> Forward(index, 0) == 0 && Backward(index) == 0
  {
    if InRange(index, |chapters|) {
      MovesStayInRange(index, |chapters|);
    }
  }

  /** A button is disabled exactly when pressing it would not move the cursor. */
  lemma DisabledMeansBlocked(chapters: seq<Chapter>, index: int)
    requires InRange(index, |chapters|)
    ensures PreviousDisabled(index) <==> Backward(index) == index
    ensures NextDisabled(index, |chapters|) <==> Forward(index, |chapters|) == index
  {
    DisabledExactlyWhenStuck(index, |chapters|);
  }

  /**
   * In a well-numbered list, clicking the entry at position `k` and then "next"
   * opens the entry right after it, when there is one.
   */
  lemma ClickThenNext(chapters: seq<Chapter>, k: int)
    requires WellNumbered(chapters) && 0 <= k < |chapters| - 1
    ensures var index := chapters[k].number - 1;
      Forward(index, |chapters|) == k + 1 && At(chapters, Forward(index, |chapters|)) == Some(chapters[k + 1])
  {
  }
}
