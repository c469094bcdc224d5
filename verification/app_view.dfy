/**
 * The view-navigation state machine of the top-level screen (src/App.js):
 * which of the home view, a book list or a book is on screen, how a location
 * sets those flags, how the back button unwinds them, and what the list,
 * search and book handlers change.
 */
module AppView {
  import opened JsValues
  import opened Strings
  import opened AppLists

  /** The view flags of the top-level screen and the book list it shows. */
  datatype ViewState = ViewState(
    showCategories: bool,
    showBooks: bool,
    selectedBookId: Option<string>,
    selectedCategoryId: Option<string>,
    selectedChapter: bool,
    selectedChapterId: Option<string>,
    showBackButton: bool,
    books: seq<Book>)

  /** The state the screen starts in, which is also the home view with an empty book list. */
  const Initial := ViewState(true, false, None, None, false, None, false, [])

  /** `selectedBookId` is truthy: present and not the empty string. */
  predicate BookSelected(v: ViewState) {
    v.selectedBookId.Some? && v.selectedBookId.value != ""
  }

  /**
   * What a template literal prints for an id that may be missing. The id is
   * kept as `null` by the handlers here, which prints "null"; an `undefined`
   * id restored from a history entry would print "undefined" instead, which
   * the model does not tell apart from "null".
   */
  function Shown(id: Option<string>): string {
    match id
    case Some(s) => s
    case None => "null"
  }

  // ---------------------------------------------------------------- locations

  /** The four ways `handleLocationChange` reads a path. */
  datatype Route = HomeRoute | BookRoute(bookId: string) | ListRoute | OtherRoute

  lemma BooksPathFields(path: string)
    requires StartsWith(path, "/books/")
    ensures Split(path, '/') == ["", "books"] + Split(path[7..], '/')
  {
    var rest := path[7..];
    assert path == "" + ['/'] + ("books" + ['/'] + rest);
    SplitAfterField("", '/', "books" + ['/'] + rest);
    SplitAfterField("books", '/', rest);
  }

  /** `path.split('/')[2]` on a path under `/books/`: the text after `/books/` up to the next slash. */
  function BookIdOf(path: string): (id: string)
    requires StartsWith(path, "/books/")
    ensures id == TakeUntil(path[7..], '/')
  {
    BooksPathFields(path);
    Split(path, '/')[2]
  }

  /**
   * The route of a path. The three tests of the source are tried in order, but
   * they never overlap, so each route is characterised on its own.
   */
  function RouteOf(path: string): (r: Route)
    ensures r == HomeRoute <==> path == "/"
    ensures r.BookRoute? <==> StartsWith(path, "/books/")
    ensures r.BookRoute? ==> r.bookId == TakeUntil(path[7..], '/')
    ensures r == ListRoute <==>
      StartsWith(path, "/recommender/") || StartsWith(path, "/profession/") || IsSlashDigits(path)
  {
    assert StartsWith(path, "/books/") ==> path[1] == 'b';
    assert StartsWith(path, "/recommender/") ==> path[1] == 'r';
    assert StartsWith(path, "/profession/") ==> path[1] == 'p';
    if path == "/" then HomeRoute
    else if StartsWith(path, "/books/") then BookRoute(BookIdOf(path))
    else if StartsWith(path, "/recommender/") || StartsWith(path, "/profession/") || IsSlashDigits(path) then ListRoute
    else OtherRoute
  }

  /** `handleLocationChange`: the flags a location sets; an unknown path changes nothing. */
  function LocationChange(v: ViewState, path: string): ViewState {
    match RouteOf(path)
    case HomeRoute =>
      v.(showCategories := true, showBooks := false, selectedBookId := None,
         selectedCategoryId := None, selectedChapter := false, showBackButton := false)
    case BookRoute(id) =>
      v.(showCategories := false, showBooks := false, selectedBookId := Some(id), showBackButton := true)
    case ListRoute =>
      v.(showCategories := false, showBooks := true, selectedBookId := None, showBackButton := true)
    case OtherRoute => v
  }

  /** The effect of each kind of location on the view, and what it leaves alone. */
  lemma LocationChangeEffects(v: ViewState, path: string)
    ensures path == "/" ==>
      var w := LocationChange(v, path);
      w.showCategories && !w.showBooks && w.selectedBookId == None && w.selectedCategoryId == None
      && !w.selectedChapter && !w.showBackButton
      && w.books == v.books && w.selectedChapterId == v.selectedChapterId
    ensures StartsWith(path, "/books/") ==>
      LocationChange(v, path) == v.(showCategories := false, showBooks := false,
        selectedBookId := Some(TakeUntil(path[7..], '/')), showBackButton := true)
    ensures StartsWith(path, "/recommender/") || StartsWith(path, "/profession/") || IsSlashDigits(path) ==>
      LocationChange(v, path) == v.(showCategories := false, showBooks := true,
        selectedBookId := None, showBackButton := true)
    ensures RouteOf(path) == OtherRoute ==> LocationChange(v, path) == v
  {
  }

  /** The location effect runs on every render; running it again on the same path changes nothing more. */
  lemma LocationChangeIdempotent(v: ViewState, path: string)
    ensures LocationChange(LocationChange(v, path), path) == LocationChange(v, path)
  {
  }

  /** A book id without a slash survives the trip through its `/books/<id>` path. */
  lemma {:induction false} BookPathRoundTrip(id: string)
    requires '/' !in id
    ensures RouteOf("/books/" + id) == BookRoute(id)
  {
    var path := "/books/" + id;
    assert StartsWith(path, "/books/");
    assert path[7..] == id;
    TakeUntilAbsent(id, '/');
  }

  // ---------------------------------------------------------------- history

  /**
   * A `history.state` object as `handlePopState` reads it; an absent property
   * reads as `undefined`, so a flag is false and an id is `None`.
   */
  datatype HistoryState = HistoryState(
    showCategories: bool,
    showBooks: bool,
    selectedCategoryId: Option<string>,
    selectedBookId: Option<string>,
    selectedChapter: bool,
    showBackButton: bool,
    books: Option<seq<Book>>)

  /** `handlePopState`: restore the flags a state carries, or reset to the home view with no books. */
  function PopState(v: ViewState, state: Option<HistoryState>): ViewState {
    match state
    case Some(s) =>
      v.(showCategories := s.showCategories, showBooks := s.showBooks,
         selectedCategoryId := s.selectedCategoryId, selectedBookId := s.selectedBookId,
         selectedChapter := s.selectedChapter, showBackButton := s.showBackButton,
         books := if s.books.Some? then s.books.value else v.books)
    case None =>
      v.(showCategories := true, showBooks := false, selectedBookId := None, selectedCategoryId := None,
         selectedChapter := false, selectedChapterId := None, showBackButton := false, books := [])
  }

  /**
   * Going back to an entry without state restores exactly the starting view, and the
   * home location then agrees with it.
   */
  lemma PopWithoutStateRestoresInitial(v: ViewState)
    ensures PopState(v, None) == Initial
    ensures LocationChange(Initial, "/") == Initial
  {
  }

  /** A state restores all six flags and keeps the book list when it carries none. */
  lemma PopWithState(v: ViewState, s: HistoryState)
    ensures var w := PopState(v, Some(s));
      w.showCategories == s.showCategories && w.showBooks == s.showBooks
      && w.selectedCategoryId == s.selectedCategoryId && w.selectedBookId == s.selectedBookId
      && w.selectedChapter == s.selectedChapter && w.showBackButton == s.showBackButton
      && w.selectedChapterId == v.selectedChapterId
      && w.books == (if s.books.Some? then s.books.value else v.books)
  {
  }

  // ---------------------------------------------------------------- back button

  /** `handleBackClick`: close the chapter, else leave the book, else leave the list, else nothing. */
  function Back(v: ViewState): ViewState {
    if v.selectedChapter then v.(selectedChapter := false, selectedChapterId := None)
    else if BookSelected(v) then v.(selectedBookId := None, showBooks := true, showCategories := false)
    else if v.showBooks then v.(showBooks := false, showCategories := true, showBackButton := false)
    else v
  }

  /** The path `handleBackClick` navigates to, if it navigates. */
  function BackNavigation(v: ViewState): Option<string> {
    if v.selectedChapter then Some("/books/" + Shown(v.selectedBookId))
    else if BookSelected(v) then Some("/" + Shown(v.selectedCategoryId))
    else if v.showBooks then Some("/")
    else None
  }

  /** The priority of the back button: each press undoes only the innermost open level. */
  lemma BackPriority(v: ViewState)
    ensures v.selectedChapter ==>
      Back(v) == v.(selectedChapter := false, selectedChapterId := None)
    ensures !v.selectedChapter && BookSelected(v) ==>
      var w := Back(v);
      w.selectedBookId == None && w.showBooks && !w.showCategories
      && w.showBackButton == v.showBackButton && w.selectedCategoryId == v.selectedCategoryId
    ensures !v.selectedChapter && !BookSelected(v) && v.showBooks ==>
      var w := Back(v);
      !w.showBooks && w.showCategories && !w.showBackButton && w.selectedBookId == v.selectedBookId
    ensures !v.selectedChapter && !BookSelected(v) && !v.showBooks ==>
      Back(v) == v && BackNavigation(v) == None
  {
  }

  /** At most three presses unwind chapter, book and list; after that the button does nothing. */
  lemma BackSettles(v: ViewState)
    ensures var w := Back(Back(Back(v)));
      !w.selectedChapter && !BookSelected(w) && !w.showBooks
      && Back(w) == w && BackNavigation(w) == None
  {
  }

  /** Closing a chapter navigates to its book's path, and that path selects the same book again. */
  lemma {:induction false} BackFromChapterKeepsBook(v: ViewState, id: string)
    requires v.selectedChapter && v.selectedBookId == Some(id) && '/' !in id
    ensures BackNavigation(v) == Some("/books/" + id)
    ensures LocationChange(Back(v), "/books/" + id)
      == Back(v).(showCategories := false, showBooks := false, showBackButton := true)
  {
    BookPathRoundTrip(id);
  }

  /** Leaving a book opened from a category navigates to `/<category>`, which shows the book list. */
  lemma {:induction false} BackFromBookShowsList(v: ViewState, category: string)
    requires !v.selectedChapter && BookSelected(v) && v.selectedCategoryId == Some(category)
    requires category != [] && forall i :: 0 <= i < |category| ==> IsDigit(category[i])
    ensures BackNavigation(v) == Some("/" + category)
    ensures LocationChange(Back(v), "/" + category) == Back(v).(showBackButton := true)
  {
    var path := "/" + category;
    assert forall i :: 1 <= i < |path| ==> path[i] == category[i - 1];
    assert IsSlashDigits(path);
  }

  /**
   * Leaving a book reached without a category navigates to `/null`, a path the
   * location handler ignores, so the flags stay as the back button left them.
   */
  lemma BackFromBookWithoutCategory(v: ViewState)
    requires !v.selectedChapter && BookSelected(v) && v.selectedCategoryId == None
    ensures BackNavigation(v) == Some("/null")
    ensures LocationChange(Back(v), "/null") == Back(v)
  {
    assert "/" + Shown(v.selectedCategoryId) == "/null";
    assert !StartsWith("/null", "/books/");
    assert !StartsWith("/null", "/recommender/") && !StartsWith("/null", "/profession/");
    assert !IsDigit("/null"[1]);
  }

  // ---------------------------------------------------------------- book lists

  /** Where a book list comes from: a category, a recommender or a profession. */
  datatype ListSource = ByCategory(id: string) | ByRecommender(id: string) | ByProfession(id: string)

  /** The path each list handler navigates to after loading its books. */
  function ListPath(source: ListSource): string {
    match source
    case ByCategory(id) => "/" + id
    case ByRecommender(id) => "/recommender/" + id
    case ByProfession(id) => "/profession/" + id
  }

  /** The location a loaded list navigates to is read back as a book-list route (for a numeric category id). */
  lemma ListPathIsListRoute(source: ListSource)
    requires source.ByCategory? ==> source.id != [] && forall i :: 0 <= i < |source.id| ==> IsDigit(source.id[i])
    ensures RouteOf(ListPath(source)) == ListRoute
  {
    var path := ListPath(source);
    match source
    case ByCategory(id) =>
      assert forall i :: 1 <= i < |path| ==> path[i] == id[i - 1];
      assert IsSlashDigits(path);
    case ByRecommender(id) =>
      assert path[..13] == "/recommender/";
    case ByProfession(id) =>
      assert path[..12] == "/profession/";
  }

  /** The answer of the search endpoint: a failure (network, HTTP status, body), or a body whose `docs` may be missing. */
  datatype SearchResponse = SearchFailed | SearchBody(docs: Option<seq<Book>>)

  const EmptyTermAlert := "Please enter a search term"
  const NoResultsAlert := "No results found or unexpected data structure"
  const SearchErrorAlert := "An error occurred while searching. Please try again."

  /** `handleSearch`: the view after a search and the alert it raises, if any. */
  function Search(v: ViewState, term: string, response: SearchResponse): (ViewState, Option<string>) {
    if !SearchTermAccepted(term) then (v, Some(EmptyTermAlert))
    else match response
      case SearchFailed => (v, Some(SearchErrorAlert))
      case SearchBody(None) => (v, Some(NoResultsAlert))
      case SearchBody(Some(docs)) =>
        (v.(books := CapResults(docs), showCategories := false, showBooks := true, showBackButton := true), None)
  }

  /**
   * A blank term raises the empty-term alert and changes nothing; a response with
   * hits shows the first ten of them as the book list; a failed request or one
   * without `docs` raises its alert and keeps the view.
   */
  lemma SearchOutcomes(v: ViewState, term: string, response: SearchResponse)
    ensures IsBlank(term) ==> Search(v, term, response) == (v, Some(EmptyTermAlert))
    ensures !IsBlank(term) && response.SearchBody? && response.docs.Some? ==>
      var (w, alert) := Search(v, term, response);
      alert == None && w.showBooks && !w.showCategories && w.showBackButton
      && |w.books| == (if |response.docs.value| <= SearchLimit then |response.docs.value| else SearchLimit)
      && w.books == response.docs.value[..|w.books|]
      && w.selectedBookId == v.selectedBookId && w.selectedCategoryId == v.selectedCategoryId
    ensures !IsBlank(term) && response.SearchBody? && response.docs.None? ==>
      Search(v, term, response) == (v, Some(NoResultsAlert))
    ensures !IsBlank(term) && response.SearchFailed? ==>
      Search(v, term, response) == (v, Some(SearchErrorAlert))
  {
  }

  /** The top-level screen's state, updated in place by its handlers. */
  class AppState {
    var isLoading: bool
    var books: seq<Book>
    var showCategories: bool
    var showBooks: bool
    var selectedChapter: bool
    var selectedChapterId: Option<string>
    var showPopup: bool
    var selectedBookId: Option<string>
    var selectedCategoryId: Option<string>
    var user: Option<string>
    var showBackButton: bool
    var recentlyReadBooks: seq<Book>
    var myBooks: seq<Book>

    /** The view flags and book list, as one value. */
    function View(): ViewState
      reads this
    {
      ViewState(showCategories, showBooks, selectedBookId, selectedCategoryId,
                selectedChapter, selectedChapterId, showBackButton, books)
    }

    constructor ()
      ensures View() == Initial
      ensures !isLoading && !showPopup && user == None
      ensures recentlyReadBooks == [] && myBooks == []
    {
      isLoading := false;
      books := [];
      showCategories := true;
      showBooks := false;
      selectedChapter := false;
      selectedChapterId := None;
      showPopup := false;
      selectedBookId := None;
      selectedCategoryId := None;
      user := None;
      showBackButton := false;
      recentlyReadBooks := [];
      myBooks := [];
    }

    method HandleLocationChange(path: string)
      modifies this`showCategories, this`showBooks, this`selectedBookId,
               this`selectedCategoryId, this`selectedChapter, this`showBackButton
      ensures View() == LocationChange(old(View()), path)
    {
      if path == "/" {
        showCategories := true;
        showBooks := false;
        selectedBookId := None;
        selectedCategoryId := None;
        selectedChapter := false;
        showBackButton := false;
      } else if StartsWith(path, "/books/") {
        var bookId := BookIdOf(path);
        showCategories := false;
        showBooks := false;
        selectedBookId := Some(bookId);
        showBackButton := true;
      } else if StartsWith(path, "/recommender/") || StartsWith(path, "/profession/") || IsSlashDigits(path) {
        showCategories := false;
        showBooks := true;
        selectedBookId := None;
        showBackButton := true;
      }
    }

    method HandlePopState(state: Option<HistoryState>)
      modifies this`showCategories, this`showBooks, this`selectedBookId, this`selectedCategoryId,
               this`selectedChapter, this`selectedChapterId, this`showBackButton, this`books
      ensures View() == PopState(old(View()), state)
    {
      match state
      case Some(s) =>
        showCategories := s.showCategories;
        showBooks := s.showBooks;
        selectedCategoryId := s.selectedCategoryId;
        selectedBookId := s.selectedBookId;
        selectedChapter := s.selectedChapter;
        showBackButton := s.showBackButton;
        if s.books.Some? {
          books := s.books.value;
        }
      case None =>
        showCategories := true;
        showBooks := false;
        selectedBookId := None;
        selectedCategoryId := None;
        selectedChapter := false;
        selectedChapterId := None;
        showBackButton := false;
        books := [];
    }

    method HandleBackClick() returns (nav: Option<string>)
      modifies this`showCategories, this`showBooks, this`selectedBookId,
               this`selectedChapter, this`selectedChapterId, this`showBackButton
      ensures View() == Back(old(View()))
      ensures nav == BackNavigation(old(View()))
    {
      if selectedChapter {
        selectedChapter := false;
        selectedChapterId := None;
        nav := Some("/books/" + Shown(selectedBookId));
      } else if selectedBookId.Some? && selectedBookId.value != "" {
        selectedBookId := None;
        showBooks := true;
        showCategories := false;
        nav := Some("/" + Shown(selectedCategoryId));
      } else if showBooks {
        showBooks := false;
        showCategories := true;
        showBackButton := false;
        nav := Some("/");
      } else {
        nav := None;
      }
    }

    /** The click on the app title. */
    method HandleTitleClick() returns (nav: string)
      modifies this`showCategories, this`showBooks, this`showBackButton
      ensures showCategories && !showBooks && !showBackButton
      ensures nav == "/"
    {
      showCategories := true;
      showBooks := false;
      showBackButton := false;
      nav := "/";
    }

    /** `fetchBooksByCategory`, `fetchBooksByRecommender`, `fetchBooksByProfession`, given the store's answer. */
    method ShowBookList(source: ListSource, answer: Answer<seq<Book>>) returns (nav: Option<string>)
      modifies this`books, this`showCategories, this`showBooks, this`selectedCategoryId, this`showBackButton
      ensures answer.Failed? ==> View() == old(View()) && nav == None
      ensures answer.Data? ==>
        View() == old(View()).(books := answer.data, showCategories := false, showBooks := true,
          showBackButton := true,
          selectedCategoryId := if source.ByCategory? then Some(source.id) else old(selectedCategoryId))
        && nav == Some(ListPath(source))
    {
      nav := None;
      if answer.Data? {
        books := answer.data;
        showCategories := false;
        showBooks := true;
        if source.ByCategory? {
          selectedCategoryId := Some(source.id);
        }
        showBackButton := true;
        nav := Some(ListPath(source));
      }
    }

    /**
     * `fetchMyBooks`, given the answers to its two queries (the second is sent only
     * when the first returned some rows). Without a user, or when a query fails,
     * nothing changes.
     */
    method FetchMyBooks(progress: Answer<seq<string>>, found: Answer<seq<Book>>) returns (requested: Option<seq<string>>)
      modifies this`myBooks, this`books, this`showCategories, this`showBooks, this`showBackButton
      ensures user.None? || progress.Failed? || (progress.data != [] && found.Failed?) ==>
        View() == old(View()) && myBooks == old(myBooks)
      ensures user.Some? && progress.Data? && progress.data == [] ==>
        View() == old(View()).(books := [], showCategories := false, showBooks := true, showBackButton := true)
        && myBooks == []
      ensures user.Some? && progress.Data? && progress.data != [] && found.Data? ==>
        View() == old(View()).(books := found.data, showCategories := false, showBooks := true, showBackButton := true)
        && myBooks == found.data
      ensures requested == if user.Some? && progress.Data? && progress.data != [] then Some(progress.data) else None
    {
      requested := None;
      if user.None? {
        return;
      }
      if progress.Failed? {
        return;
      }
      if progress.data == [] {
        myBooks := [];
        books := [];
        showCategories := false;
        showBooks := true;
        showBackButton := true;
        return;
      }
      requested := Some(progress.data);
      if found.Failed? {
        return;
      }
      myBooks := found.data;
      books := found.data;
      showCategories := false;
      showBooks := true;
      showBackButton := true;
    }

    /**
     * `fetchRecentlyReadBooks`, given the progress rows (newest first) and the
     * books the store returned; `requested` is the id list sent to the second query.
     */
    method FetchRecentlyReadBooks(progress: Answer<seq<string>>, found: Answer<seq<Book>>)
      returns (requested: Option<seq<string>>)
      modifies this`recentlyReadBooks
      ensures requested == if progress.Data? then Some(RecentIds(progress.data)) else None
      ensures progress.Data? && found.Data? ==> recentlyReadBooks == RecentlyRead(progress.data, found.data)
      ensures progress.Failed? || found.Failed? ==> recentlyReadBooks == old(recentlyReadBooks)
    {
      requested := None;
      if progress.Data? {
        var limited := RecentIds(progress.data);
        requested := Some(limited);
        if found.Data? {
          recentlyReadBooks := RecentlyRead(progress.data, found.data);
        }
      }
    }

    /**
     * `handleSearch` for the term in the search box, given the search endpoint's
     * response: the view and alert
     * `Search` describes; the loading flag ends false once a search went out.
     */
    method HandleSearch(term: string, response: SearchResponse) returns (alert: Option<string>)
      modifies this`isLoading, this`books, this`showCategories, this`showBooks, this`showBackButton
      ensures (View(), alert) == Search(old(View()), term, response)
      ensures isLoading == (old(isLoading) && !SearchTermAccepted(term))
    {
      if Trim(term) == "" {
        alert := Some(EmptyTermAlert);
        return;
      }
      isLoading := true;
      if response.SearchFailed? {
        alert := Some(SearchErrorAlert);
      } else if response.docs.Some? {
        books := CapResults(response.docs.value);
        showCategories := false;
        showBooks := true;
        showBackButton := true;
        alert := None;
      } else {
        alert := Some(NoResultsAlert);
      }
      isLoading := false;
    }

    /**
     * `handleBookClick`, given the store's answer for the book and whether the
     * ingestion request went out without a network error. A book the store lacks
     * gets one ingestion request (and the popup once it is sent); a known book is
     * opened by its id.
     */
    method HandleBookClick(book: Book, lookup: Answer<Book>, ingestionSent: bool)
      returns (request: Option<IngestionRequest>, nav: Option<string>)
      modifies this`showPopup, this`showBooks, this`showBackButton, this`selectedBookId
      ensures lookup.Failed? ==>
        request == Some(IngestionFor(book)) && nav == None && View() == old(View())
        && showPopup == (old(showPopup) || ingestionSent)
      ensures lookup.Data? ==>
        request == None && nav == Some("/books/" + book.id) && showPopup == old(showPopup)
        && View() == old(View()).(showBooks := false, showBackButton := true, selectedBookId := Some(book.id))
    {
      if lookup.Failed? {
        request := Some(IngestionFor(book));
        nav := None;
        if ingestionSent {
          showPopup := true;
        }
        return;
      }
      request := None;
      showBooks := false;
      showBackButton := true;
      selectedBookId := Some(book.id);
      nav := Some("/books/" + book.id);
    }
  }
}
