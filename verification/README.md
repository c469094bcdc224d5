# The Book App — a verified model of its view logic

The Book App is a React reading app. It shows a home view with categories, book lists (by
category, recommender, profession, search or the reader's own books), a book page with a
table of contents, and a chapter page with an AI-generated summary (key themes, case
studies, question-answer sections), the chapter text and a card deck. Almost everything
else in the repository is rendering plus calls to a hosted database and to HTTP endpoints.

This project models the logic inside the component handlers as Dafny. It covers the
state machines that decide which view is on screen, the bounded cursors that the chapter
and card buttons move, and the list and string helpers the handlers apply. It proves what
the code promises about each of them.

Each file is one module:

| file | module | models |
|---|---|---|
| js_values.dfy | `JsValues` | optional values, database answers, parsed JSON, JavaScript truthiness |
| lists.dfy | `Lists` | `slice(0, n)`, `[...new Set(xs)]`, first-occurrence order |
| strings.dfy | `Strings` | `startsWith`, `split`, `trim`, the `^\/\d+$` path test |
| cursor.dfy | `Cursor` | the bounded +1/−1 cursor rule shared by the chapter list and the card deck |
| app_lists.dfy | `AppLists` | src/App.js list and string helpers: recently-read shelf, category icons, search cap, ingestion request |
| app_view.dfy | `AppView` | src/App.js view navigation: locations, history, the back button, and the list, search and book handlers |
| metadata.dfy | `Metadata` | src/components/Metadata.js: question-answer pairing, the generation status flow, the rendered panel |
| book_details.dfy | `BookDetails` | src/components/BookDetails.js: the chapter cursor and the table of contents |
| cards.dfy | `Cards` | src/components/Cards.js: the card cursor, slide direction and controls |
| chapter_details.dfy | `ChapterDetails` | src/components/ChapterDetails.js and its earlier copy src/components/example.js |
| popular_topics.dfy | `PopularTopics` | src/components/PopularTopics.js: the collapse/expand grid and its icons |

Modelling conventions:
- A component's state becomes a `class` whose fields are the `useState` variables.
- Each handler becomes a method. Its `modifies` clause names exactly the fields whose setters it calls.
- Each method's `ensures` gives the new state, usually by equating it with a pure function of the old state (`View() == Back(old(View()))`). The lemmas about those functions carry the properties.
- Database and HTTP results are not fetched. They are parameters of the handlers, as `Answer<T>` (`Failed` for a thrown or returned error, `Data` for the rows).
- The keys a handler queries by, and the paths it navigates to, come back as out-parameters.
- Ids are strings.
- A JSON object is its entries in `Object.keys` order.

Three facts about the ingestion path that the model keeps as the code has them:
- The code has no polling loop that waits for a book's status to become `done`. A book that is not in the store gets one request and a popup, nothing more.
- The ingestion request carries the source url, the title and the author, and no `id` parameter.
- The popup appears only when the request did not throw.

## Model

| member | source | states |
|---|---|---|
| Lists.Take | src/App.js:292 | `slice(0, n)` is the first `min(n, length)` elements, in order |
| Lists.Dedupe | src/App.js:289 | `[...new Set(xs)]` has no duplicates, contains exactly the elements of `xs` |
| Lists.DedupeFirstSeen | src/App.js:289 | the de-duplicated list keeps first-occurrence order: each id was first seen after the ones before it |
| Lists.TakeFirstSeen | src/App.js:292 | capping a first-seen-ordered list keeps it first-seen ordered |
| Lists.FirstSeenNoDuplicates | src/App.js:302-305 | a first-seen-ordered list has no duplicates |
| Strings.Split | src/App.js:102 | `split('/')` gives at least one field, the first is the text before the first separator, no field contains the separator |
| Strings.JoinSplit | src/App.js:102 | splitting loses nothing: joining the fields with the separator gives back the path |
| Strings.SplitAfterField | src/App.js:102 | a leading field without the separator comes out as the first field |
| Strings.TakeUntil | src/components/Metadata.js:118 | the text before the first separator is a prefix with no separator, followed by the separator when shorter |
| Strings.Trim | src/App.js:494 | `trim()` is empty exactly when the term is all ECMAScript white space, and a non-empty result starts and ends with a non-space |
| Strings.TrimStart | src/App.js:494 | leading white space is stripped and nothing else |
| Strings.TrimEnd | src/App.js:494 | trailing white space is stripped and nothing else |
| Cursor.Forward | src/components/BookDetails.js:61-67 | "next" moves by exactly +1, and exactly when the cursor is before the last item |
| Cursor.Backward | src/components/BookDetails.js:69-75 | "previous" moves by exactly −1, and exactly when the cursor is after the first item |
| Cursor.MovesStayInRange | src/components/BookDetails.js:61-75 | from an index in [0, length), both moves stay in [0, length) |
| Cursor.DisabledExactlyWhenStuck | src/components/BookDetails.js:154-161 | on an item, "first" / "last" hold exactly when the move would not move |
| Cursor.ForwardThenBackward | src/components/Cards.js:20-28 | an unblocked step on followed by a step back returns to the same item |
| Cursor.BackwardThenForward | src/components/Cards.js:20-28 | an unblocked step back followed by a step on returns to the same item |
| Cursor.ForwardTimesClamps | src/components/BookDetails.js:61-67 | `k` presses of "next" land on `i + k` or stop at the last item, never beyond |
| Cursor.BackwardTimesClamps | src/components/BookDetails.js:69-75 | `k` presses of "previous" land on `i − k` or stop at the first item, never below |
| AppLists.Ids | src/App.js:304 | the ids of a book list, position by position |
| AppLists.FindBook | src/App.js:304 | `find` returns the first book of the list with that id, and nothing exactly when no book has it |
| AppLists.MatchInOrder | src/App.js:303-305 | `map(find).filter(Boolean)` keeps only books of the store whose ids were asked for, at most one per id position, in the ids' order |
| AppLists.MatchInOrderFirstSeen | src/App.js:302-305 | matching books against first-seen-ordered ids keeps the ids' order |
| AppLists.MatchInOrderComplete | src/App.js:303-305 | every asked-for id that has a book gets that book in the result |
| AppLists.RecentlyRead | src/App.js:288-307 | the shelf holds at most 5 books, no book twice, each among the 5 most recent distinct ids, newest first |
| AppLists.RecentlyReadComplete | src/App.js:303-305 | each of the 5 most recent distinct ids that has a book is on the shelf |
| AppLists.CategoryIcon | src/App.js:436-444 | the three known names get their icons, every other name gets `Folder` |
| AppLists.CapResults | src/App.js:507-508 | a search keeps the first min(10, n) hits in the service's order |
| AppLists.IngestionFor | src/App.js:387 | the ingestion request carries the book's source url and title, and its author or `Unknown Author`, never an empty author |
| AppView.BookIdOf | src/App.js:102 | `path.split('/')[2]` under `/books/` is the text after `/books/` up to the next slash |
| AppView.RouteOf | src/App.js:92-124 | `/` is home; a `/books/` prefix is a book route with that id; `/recommender/`, `/profession/` or slash-digits is a list route; each exactly, and nothing else is |
| AppView.LocationChangeEffects | src/App.js:93-124 | home sets categories on and clears book, category, chapter and back button; a book path selects the id and hides both lists; a list path shows the book list with no book; any other path changes nothing |
| AppView.LocationChangeIdempotent | src/App.js:91-128 | handling the same location twice changes nothing more |
| AppView.BookPathRoundTrip | src/App.js:395 | a slash-free book id comes back out of its `/books/<id>` location |
| AppView.PopWithoutStateRestoresInitial | src/App.js:191-201 | popstate without state resets to exactly the starting home view with an empty book list |
| AppView.PopWithState | src/App.js:181-190 | popstate with state restores the six flags and keeps the book list when the state carries none |
| AppView.BackPriority | src/App.js:471-491 | back closes only the chapter if one is open, else leaves the book for the list, else leaves the list for home with the back button off, else does nothing |
| AppView.BackSettles | src/App.js:471-491 | three presses reach a view where back does nothing and navigates nowhere |
| AppView.BackFromChapterKeepsBook | src/App.js:472-477 | closing a chapter navigates to its book's path, which selects the same book again |
| AppView.BackFromBookShowsList | src/App.js:478-483 | leaving a book of a numeric category navigates to `/<category>`, which shows the book list |
| AppView.BackFromBookWithoutCategory | src/App.js:478-483 | leaving a book reached without a category navigates to `/null`, which the location handler ignores |
| AppView.ListPathIsListRoute | src/App.js:338-376 | the location each list loader navigates to is read back as a book-list route |
| AppView.SearchOutcomes | src/App.js:493-522 | a blank term alerts and changes nothing; hits show the first ten as the book list; a failure or missing `docs` alerts and keeps the view |
| AppView.AppState.constructor | src/App.js:69-85 | the initial state: home view, nothing selected, no user, empty lists |
| AppView.AppState.HandleLocationChange | src/App.js:91-125 | the view after a location change is `LocationChange` of the old one; only the six view flags change |
| AppView.AppState.HandlePopState | src/App.js:179-202 | the view after popstate is `PopState` of the old one |
| AppView.AppState.HandleBackClick | src/App.js:471-491 | the view after back is `Back` of the old one, and it navigates to `BackNavigation` |
| AppView.AppState.HandleTitleClick | src/App.js:529-534 | the title click shows categories, hides the list and the back button, and navigates home |
| AppView.AppState.ShowBookList | src/App.js:446-464 | a loaded list is shown with the back button (recording the category for a category list) and navigated to; a failed query changes nothing |
| AppView.AppState.FetchMyBooks | src/App.js:217-260 | no user or a failed query changes nothing; no progress rows show an empty list; otherwise the store's books are shown and kept |
| AppView.AppState.FetchRecentlyReadBooks | src/App.js:277-311 | the ids queried are the 5 most recent distinct ones and the shelf becomes `RecentlyRead`; a failed query keeps the shelf |
| AppView.AppState.HandleSearch | src/App.js:493-522 | the view and alert are `Search` of the old view; `isLoading` is untouched for a blank term and false after any search |
| AppView.AppState.HandleBookClick | src/App.js:377-400 | an unknown book sends one ingestion request and shows the popup only if it went out; a known book is selected and navigated to |
| Metadata.QuestionNumber | src/components/Metadata.js:117-118 | the pair index is the text between the first and second `_` of the question key |
| Metadata.PairFor | src/components/Metadata.js:117-127 | a key gives a pair exactly when it starts with `Question_` and its `Answer_<n>` is truthy; the pair holds that question, that answer and `n` |
| Metadata.Pairs | src/components/Metadata.js:116-129 | at most one pair per `Question_` key, so never more pairs than keys |
| Metadata.PairsAppend | src/components/Metadata.js:116-129 | the reduce is a fold over key order: the pairs of two runs of keys are each run's pairs, in order |
| Metadata.PairsSound | src/components/Metadata.js:116-129 | every pair comes from a `Question_` key with a truthy answer |
| Metadata.PairsComplete | src/components/Metadata.js:116-129 | every `Question_` key with a truthy answer contributes its pair |
| Metadata.CollectPairs | src/components/Metadata.js:116-129 | the key-by-key accumulation yields exactly `Pairs` of the object's keys |
| Metadata.RenderQuads | src/components/Metadata.js:106-154 | falsy or non-object quads give "Invalid Section Data"; no pairs give "No Questions Available"; otherwise the pairs |
| Metadata.NoQuestionsExactly | src/components/Metadata.js:131-137 | "No Questions Available" appears exactly when no `Question_` key has a truthy answer |
| Metadata.OrElse | src/components/Metadata.js:170 | `value || fallback` keeps a truthy value and otherwise shows the fallback text |
| Metadata.Section | src/components/Metadata.js:190-211 | an optional section appears exactly when its value is truthy, rendered by `renderQUADs` |
| Metadata.Render | src/components/Metadata.js:86-213 | processing (with retry exactly after an error) while there is no metadata or generation runs; otherwise key themes and case studies with their fallback texts and the two optional sections |
| Metadata.AutoGenerateShowsProcessing | src/components/Metadata.js:80-90 | while auto-generation is due, the panel shows the animation without a retry button |
| Metadata.AfterLookup | src/components/Metadata.js:49-53 | a lookup forwards the metadata exactly when a truthy value came back |
| Metadata.StatusTrace | src/components/Metadata.js:60-78 | a run sets requested, then success or error, then success |
| Metadata.GenerationRunsOnce | src/components/Metadata.js:80-84 | no status a run sets makes auto-generation due again |
| Metadata.MetadataDisplay.constructor | src/components/Metadata.js:35-37 | the panel starts idle and not generating |
| Metadata.MetadataDisplay.FetchUpdatedMetadata | src/components/Metadata.js:39-58 | queries by the chapter id; returns true exactly when a truthy metadata value came back, which is then forwarded |
| Metadata.MetadataDisplay.GenerateMetadata | src/components/Metadata.js:60-78 | calls the summary endpoint for the chapter, logs the status trace, forwards what the lookups found, and ends with success and generation off, even after an error |
| Metadata.MetadataDisplay.OnMount | src/components/Metadata.js:80-84 | generation starts exactly when metadata is falsy and the status is idle, and then ends as `GenerateMetadata` does (the lookups' metadata, success, not generating); otherwise nothing changes |
| BookDetails.At | src/components/BookDetails.js:65 | `chapters[i]` is the chapter at `i` inside the list and `undefined` outside it |
| BookDetails.HighlightIsCursor | src/components/BookDetails.js:77-81 | in a list numbered 1, 2, 3, … the highlighted entry is exactly the one at the cursor |
| BookDetails.Entries | src/components/BookDetails.js:130-147 | one entry per chapter, with its title, highlighted exactly when `chapter_number` is index + 1 |
| BookDetails.Screen | src/components/BookDetails.js:83-167 | loading until the book arrived, then the open chapter if any, else the contents with previous disabled exactly at 0 and next exactly at length − 1 |
| BookDetails.ChapterList.constructor | src/components/BookDetails.js:12-15 | no book, no chapters, nothing open, cursor 0 |
| BookDetails.ChapterList.LoadBook | src/components/BookDetails.js:22-35 | the book row is stored; an error keeps what was there |
| BookDetails.ChapterList.LoadChapters | src/components/BookDetails.js:37-50 | the chapter rows are stored; an error keeps what was there |
| BookDetails.ChapterList.HandleChapterClick | src/components/BookDetails.js:52-55 | the chapter is opened and the cursor set to its number − 1, so it is highlighted |
| BookDetails.ChapterList.HandleBackToBook | src/components/BookDetails.js:57-59 | only the open chapter is cleared; cursor and list stay |
| BookDetails.ChapterList.HandleNextChapter | src/components/BookDetails.js:61-67 | before the last entry, +1 and the chapter there is opened; otherwise nothing changes |
| BookDetails.ChapterList.HandlePreviousChapter | src/components/BookDetails.js:69-75 | after the first entry, −1 and the chapter there is opened; otherwise nothing changes |
| BookDetails.MovesOpenAnEntry | src/components/BookDetails.js:61-75 | from an entry, both moves stay on entries, so a move always opens a chapter; on an empty list from the start, neither moves |
| BookDetails.DisabledMeansBlocked | src/components/BookDetails.js:150-165 | previous is disabled exactly at index 0 and next exactly at length − 1, i.e. exactly when the move would not move |
| BookDetails.ClickThenNext | src/components/BookDetails.js:52-67 | in a well-numbered list, clicking an entry and then next opens the entry right after it |
| Cards.Controls | src/components/Cards.js:37-83 | "Card i+1 of n"; prev disabled and labelled "First" exactly on the first card; "Next Chapter" replaces "Next" exactly on the last card and is disabled exactly in the last chapter |
| Cards.ControlsMatchMoves | src/components/Cards.js:20-83 | on a card, prev is enabled and the plain "Next" shown exactly when the corresponding move moves; the position is in [1, n] |
| Cards.ContentSection.constructor | src/components/Cards.js:13-18 | the deck starts on the initial card with no slide |
| Cards.ContentSection.NavigateCards | src/components/Cards.js:20-28 | "next" steps on with `slide-left` only before the last card, "prev" back with `slide-right` only after the first; anything else changes neither card nor slide |
| Cards.NavigationStaysInDeck | src/components/Cards.js:20-35 | any run of swipes and presses keeps the card index in [0, n) |
| ChapterDetails.Target | src/components/ChapterDetails.js:39 | the target number is current + 1 for `next` and current − 1 for any other direction; likewise src/components/example.js:36 in the earlier copy |
| ChapterDetails.EnabledTargetsInBook | src/components/ChapterDetails.js:128-143 | previous is disabled when number ≤ 1 or loading, next when number ≥ total or loading; an enabled button targets a number in [1, total]; likewise src/components/example.js:117-132 in the earlier copy |
| ChapterDetails.FetchChapterOutcomes | src/components/ChapterDetails.js:35-70 | a row replaces id, title, number and metadata, sets metadata, clears the text and the error; otherwise the chapter is kept and the error names the direction; loading ends false; likewise src/components/example.js:32-67 in the earlier copy |
| ChapterDetails.ContentKeyAsWrittenIsStale | src/components/ChapterDetails.js:72-97 | after any successful move to a row whose id differs from the `chapterId` prop, the content query and the summary panel as written still name the prop's chapter, not the one on screen |
| ChapterDetails.ContentKeyFollowsMoves | src/components/ChapterDetails.js:93-97 | with the corrected key, the text asked for, before or after loading it, and the summary panel's chapter are those of the row moved to |
| ChapterDetails.AfterFetchContent | src/components/ChapterDetails.js:72-91 | a row sets the text, an error sets "Failed to load chapter content", loading ends false, the chapter is untouched |
| ChapterDetails.MetadataUpdated | src/components/ChapterDetails.js:103-109 | a metadata update replaces only the metadata, keeping id, title and number; likewise src/components/example.js:100-106 in the earlier copy |
| ChapterDetails.HeaderTitle | src/components/ChapterDetails.js:124 | a title over 28 characters shows its first 28 plus "...", a shorter one as is, an absent or empty one as `-`; never over 31 characters; likewise src/components/example.js:113 in the earlier copy |
| ChapterDetails.HeaderTitleIdempotent | src/components/ChapterDetails.js:124 | truncating a truncated title changes nothing |
| ChapterDetails.HeadingOf | src/components/ChapterDetails.js:147 | the heading shows `-` for a missing number and "Untitled Chapter" for a missing title |
| ChapterDetails.SummaryPanelAsWritten | src/components/ChapterDetails.js:202-209 | the summary panel gets the page's metadata, or the chapter record's when that is falsy, and the `chapterId` prop as its chapter; likewise src/components/example.js:183-190 |
| ChapterDetails.SummaryPanelCorrected | src/components/ChapterDetails.js:202-209 | the corrected panel gets the same metadata, and the id of the chapter on screen |
| ChapterDetails.DetailsView | src/components/ChapterDetails.js:111-221 | loading comes before the error screen, which comes before the page with the active tab's panel; the summary panel is the as-written one |
| ChapterDetails.ExampleView | src/components/example.js:108-207 | the header is always shown; loading comes before the error, which comes before the panels; exactly the active tab's panel of the three is shown, the summary panel as written |
| ChapterDetails.ChapterPage.constructor | src/components/ChapterDetails.js:21-33 | the page starts on the metadata tab with the chapter from its props |
| ChapterDetails.ChapterPage.FetchChapter | src/components/ChapterDetails.js:35-70 | queries the target number; the new state is `AfterFetchChapter`; a row navigates to `/books/<bookId>/chapters/<id>` |
| ChapterDetails.ChapterPage.FetchChapterContent | src/components/ChapterDetails.js:72-91 | queries by the `chapterId` prop, as written, whatever chapter is on screen; the new state is `AfterFetchContent` |
| ChapterDetails.ChapterPage.ContentEffect | src/components/example.js:90-94 | the text is fetched, by the `chapterId` prop, exactly when the active tab is `content`; otherwise nothing changes |
| ChapterDetails.ChapterPage.HandleTabChange | src/components/ChapterDetails.js:99-101 | only the active tab changes |
| ChapterDetails.ChapterPage.HandleMetadataUpdate | src/components/ChapterDetails.js:103-109 | the new state is `MetadataUpdated` of the old one |
| PopularTopics.TopicIcon | src/components/PopularTopics.js:66 | a mapped name gets its icon; any other name falls back to `Book` |
| PopularTopics.TopicIconExamples | src/components/PopularTopics.js:32-55 | sample entries of the 22-entry icon table, and the fallback |
| PopularTopics.Displayed | src/components/PopularTopics.js:58 | the grid shows a prefix of the categories: all of them expanded, the first min(5, n) collapsed |
| PopularTopics.ViewMoreExactlyWhenHidden | src/components/PopularTopics.js:90-102 | "View More" appears exactly when some category is hidden; with five or fewer, expanding shows nothing new |
| PopularTopics.Tiles | src/components/PopularTopics.js:65-88 | one tile per shown category, with its name, its icon and the id a click selects |
| PopularTopics.TopicGrid.constructor | src/components/PopularTopics.js:29 | the grid starts collapsed |
| PopularTopics.TopicGrid.ViewMore | src/components/PopularTopics.js:93 | expanding shows every category |
| PopularTopics.TopicGrid.ShowLess | src/components/PopularTopics.js:107 | collapsing restores the collapsed grid of the first five, whatever was shown before |

## Left out

- The hosted-database queries, sign-in, profile upserts and progress saving are foreign calls. Their results are inputs of the handlers (`Answer<T>`); the queries themselves are not modelled.
- The HTTP calls to the search, ingestion and summary endpoints are I/O, and so is percent-encoding of their query strings. A response is an input; the URL is shown unencoded.
- Timers are timing, not logic: the toast's 3-second timer, and the 300 ms reset of the card slide direction.
- React effect scheduling and the interleaving of asynchronous setters are left out. Each handler is one atomic transition. So the intermediate `isLoading` / `loading` value is not observable, except in the status log of `Metadata.MetadataDisplay.GenerateMetadata`.
- Metadata.Render, Metadata.RenderQuads and Metadata.NoQuestionsExactly: the model says which element the component returns. The `Alert` component of src/components/Metadata.js:9-11 has an empty body and returns `undefined`. So "Error Generating Summary" with its retry button (lines 92-100), "Invalid Section Data" (line 110) and "No Questions Available" (line 133) render as empty elements. The model does not capture that they are blank on screen.
- Cards.ContentSection.NavigateCards: the card shown is the `initialCard` prop, and moves go through the parent's `setCurrentCard` (src/components/Cards.js:13-28). The model merges the two into one `currentCard` field, assuming the parent passes its state back as `initialCard`, as the effect at lines 16-18 expects.
- AppView.AppState.HandleSearch: takes the search term as a parameter rather than reading a `searchTerm` field, because the field version of its proof ran out of resources. The term is the search box's current value.
- AppView.AppState.ShowBookList: the mount effect calls `fetchBooksByCategory()` with no id, which the store rejects. That rejection is the `Failed` case; a mount-time `/undefined` path is not modelled separately.
- AppLists.CategoryIcon and PopularTopics.TopicIcon: a name inherited from `Object.prototype` (such as `toString`) would find an inherited member instead of falling back. Category names are plain names, so the model treats the tables as plain maps.
- JsValues.Get: reads the first entry with a key. A parsed JSON object never holds a key twice, so this matches `obj[key]`.
- Metadata.Render: `JSON.parse` of string metadata is an input (`parsedText`). A parse that throws is the `Broken` panel, like a `null` parse result.
- Metadata.RenderQuads: an array's keys are its indices, which never start with `Question_`, so an array gives "No Questions Available" without enumerating its indices.
- JSON numbers are integers in the model; floating point is not modelled.
- ChapterDetails.ChapterPage.constructor: src/components/BookDetails.js:90-96 passes no `chapterNumber`, `totalChapters` or `bookTitle`, so in the app those are `undefined` and arithmetic on them gives `NaN`. The model takes them as integers and an optional string.
- Lengths are counted in characters, not UTF-16 code units. This matters only for the 28-character title cut.
- ChapterDetails.AfterFetchChapter: with `.single()`, an empty answer comes back as an error. So the "No … chapter available." branch (`Data(None)`) is modelled but is not reached through the store.
- Rendering, CSS classes, the router table and purely presentational components are left out (src/index.js, Categories.js, ProfessionBooks.js, RecommendedBooks.js, RecentlyReadBooks.js, Profession.js, FallbackComponents.js, search.js, BookCover.js). So is src/PdfViewer.js, a wrapper over a PDF library.

## Findings

| source | as written | input that shows it | evidently intended | confidence | as-written member | corrected member |
|---|---|---|---|---|---|---|
| src/components/ChapterDetails.js:78 | `fetchChapterContent` queries by the `chapterId` prop, and the summary panel gets the same prop (line 205), although the effect re-runs on `currentChapter.id` (line 97) | open chapter `c1` on the content tab, press Next to row `c2`: the text asked for is `c1`'s | query, and generate the summary for, the chapter on screen, `currentChapter.id` | not executed; high, from reading the effect's dependency list | ChapterDetails.ContentKeyAsWrittenIsStale | ChapterDetails.ContentKeyFollowsMoves |
| src/components/example.js:75 | the earlier copy queries by the `chapterId` prop too (summary panel at line 186), with the effect on `currentChapter.id` (line 94) | the same move from `c1` to `c2` | the same | not executed; high, from reading the effect's dependency list | ChapterDetails.ContentKeyAsWrittenIsStale | ChapterDetails.ContentKeyFollowsMoves |

The page class `ChapterDetails.ChapterPage` and the views `DetailsView` and `ExampleView` model the code as written: they key the text and the summary panel by the `chapterId` prop. The corrected key is `ContentKey`, and the corrected panel is `SummaryPanelCorrected`. Both are proved about in `ContentKeyFollowsMoves`. In the app as shipped, src/components/BookDetails.js:90-96 passes no `chapterNumber`, so a move needs a caller that passes the chapter's number.
