/**
 * The list and string helpers of the top-level screen (src/App.js): the
 * recently-read shelf, the category icons, the search guard and cap, and the
 * ingestion request sent for a book that is not in the store yet.
 */
module AppLists {
  import opened JsValues
  import opened Lists
  import opened Strings

  /** A row of the `books` table, or a search hit, as far as the screen reads it. */
  datatype Book = Book(id: string, title: string, author: Option<string>, mirror: string)

  /** The recently-read shelf holds at most this many books. */
  const RecentLimit: nat := 5

  /** A search keeps at most this many hits. */
  const SearchLimit: nat := 10

  function Ids(books: seq<Book>): (ids: seq<string>)
    ensures |ids| == |books|
    ensures forall i :: 0 <= i < |books| ==> ids[i] == books[i].id
  {
    seq(|books|, i requires 0 <= i < |books| => books[i].id)
  }

  /** `books.find(book => book.Id === id)`: the first book with that id, if any. */
  function FindBook(books: seq<Book>, id: string): (r: Option<Book>)
    ensures r.Some? ==> r.value in books && r.value.id == id
    ensures r.Some? ==> exists k :: 0 <= k < |books| && books[k] == r.value && forall j :: 0 <= j < k ==> books[j].id != id
    ensures r.None? <==> forall i :: 0 <= i < |books| ==> books[i].id != id
  {
    if books == [] then None
    else if books[0].id == id then Some(books[0])
    else
      var r := FindBook(books[1..], id);
      assert forall i :: 1 <= i < |books| ==> books[i] == books[1..][i - 1];
      if r.Some? then
        var k :| 0 <= k < |books[1..]| && books[1..][k] == r.value && forall j :: 0 <= j < k ==> books[1..][j].id != id;
        assert books[k + 1] == r.value && forall j :: 0 <= j < k + 1 ==> books[j].id != id;
        r
      else r
  }

  /** `ids.map(id => books.find(...)).filter(Boolean)`: the matching books, in the order of `ids`. */
  function MatchInOrder(ids: seq<string>, books: seq<Book>): (r: seq<Book>)
    ensures |r| <= |ids|
    ensures forall i :: 0 <= i < |r| ==> r[i] in books && r[i].id in ids
  {
    if ids == [] then []
    else
      var rest := MatchInOrder(ids[1..], books);
      assert forall x :: x in ids[1..] ==> x in ids;
      match FindBook(books, ids[0])
      case Some(b) => [b] + rest
      case None => rest
  }

  /** The distinct book ids of the progress rows in the order read, capped at `RecentLimit`. */
  function RecentIds(progress: seq<string>): seq<string> {
    Take(Dedupe(progress), RecentLimit)
  }

  /**
   * The recently-read shelf built from the progress rows (newest first) and the
   * books the store returned for them: at most five books, no book twice, every
   * one among the five most recent distinct ids, newest first.
   */
  function RecentlyRead(progress: seq<string>, books: seq<Book>): (r: seq<Book>)
    ensures |r| <= RecentLimit
    ensures forall i :: 0 <= i < |r| ==> r[i] in books && r[i].id in RecentIds(progress)
    ensures NoDuplicates(Ids(r))
    ensures FirstSeenOrder(Ids(r), progress)
  {
    var ids := RecentIds(progress);
    DedupeFirstSeen(progress);
    TakeFirstSeen(Dedupe(progress), progress, RecentLimit);
    var r := MatchInOrder(ids, books);
    MatchInOrderFirstSeen(ids, books, progress);
    FirstSeenNoDuplicates(Ids(r), progress);
    r
  }

  /** Matching books against ids keeps the ids' first-seen order. */
  lemma {:induction false} MatchInOrderFirstSeen(ids: seq<string>, books: seq<Book>, progress: seq<string>)
    requires FirstSeenOrder(ids, progress)
    ensures FirstSeenOrder(Ids(MatchInOrder(ids, books)), progress)
  {
    if ids != [] {
      var tail := ids[1..];
      FirstSeenTail(ids, progress);
      MatchInOrderFirstSeen(tail, books, progress);
      var rest := MatchInOrder(tail, books);
      match FindBook(books, ids[0])
      case None =>
      case Some(b) =>
        assert Ids([b] + rest) == [ids[0]] + Ids(rest);
        forall k | 0 <= k < |rest|
          ensures FirstIndex(progress, ids[0]) < FirstIndex(progress, Ids(rest)[k])
        {
          var m :| 0 <= m < |tail| && tail[m] == rest[k].id;
          assert ids[m + 1] == tail[m];
        }
        FirstSeenCons(ids[0], Ids(rest), progress);
    }
  }

  lemma FirstSeenTail(ys: seq<string>, xs: seq<string>)
    requires ys != [] && FirstSeenOrder(ys, xs)
    ensures FirstSeenOrder(ys[1..], xs)
  {
    assert forall i :: 0 <= i < |ys| - 1 ==> ys[1..][i] == ys[i + 1];
  }

  lemma FirstSeenCons(y: string, ys: seq<string>, xs: seq<string>)
    requires y in xs && FirstSeenOrder(ys, xs)
    requires forall k :: 0 <= k < |ys| ==> FirstIndex(xs, y) < FirstIndex(xs, ys[k])
    ensures FirstSeenOrder([y] + ys, xs)
  {
    var r := [y] + ys;
    assert forall i :: 1 <= i < |r| ==> r[i] == ys[i - 1];
  }

  /** Every id that has a book gets that book in the matched list. */
  lemma {:induction false} MatchInOrderComplete(ids: seq<string>, books: seq<Book>, id: string)
    requires id in ids && FindBook(books, id).Some?
    ensures FindBook(books, id).value in MatchInOrder(ids, books)
  {
    if ids[0] != id {
      assert id in ids[1..];
      MatchInOrderComplete(ids[1..], books, id);
    }
  }

  /** Nothing is lost either: each of the five most recent ids that has a book is on the shelf. */
  lemma RecentlyReadComplete(progress: seq<string>, books: seq<Book>, id: string)
    requires id in RecentIds(progress) && FindBook(books, id).Some?
    ensures FindBook(books, id).value in RecentlyRead(progress, books)
  {
    MatchInOrderComplete(RecentIds(progress), books, id);
  }

  /** The category icon table of `getCategoryIcon`. */
  const CategoryIcons: map<string, string> := map[
    "Finance" := "DollarSign",
    "Product management" := "Briefcase",
    "Personal development" := "User"
  ]

  /** `getCategoryIcon`: the mapped icon for a known category name, `Folder` for any other. */
  function CategoryIcon(name: string): (icon: string)
    ensures name == "Finance" ==> icon == "DollarSign"
    ensures name == "Product management" ==> icon == "Briefcase"
    ensures name == "Personal development" ==> icon == "User"
    ensures name != "Finance" && name != "Product management" && name != "Personal development" ==> icon == "Folder"
  {
    if name in CategoryIcons && CategoryIcons[name] != "" then CategoryIcons[name] else "Folder"
  }

  /** `handleSearch` goes ahead only for a term that is not blank once trimmed. */
  predicate SearchTermAccepted(term: string) {
    Trim(term) != ""
  }

  /** `data.docs.slice(0, 10)`: the first hits, at most ten, in the order the service sent them. */
  function CapResults(docs: seq<Book>): (r: seq<Book>)
    ensures |r| == if |docs| <= SearchLimit then |docs| else SearchLimit
    ensures r == docs[..|r|]
  {
    Take(docs, SearchLimit)
  }

  /** The query of the ingestion request: source url, title and author, and no book id. */
  datatype IngestionRequest = IngestionRequest(url: string, title: string, author: string)

  /**
   * The request `handleBookClick` sends for a book the store does not have:
   * `book.author || 'Unknown Author'`, so the author is never empty.
   */
  function IngestionFor(book: Book): (req: IngestionRequest)
    ensures req.url == book.mirror && req.title == book.title
    ensures req.author != ""
    ensures book.author.Some? && book.author.value != "" ==> req.author == book.author.value
    ensures book.author.None? || book.author.value == "" ==> req.author == "Unknown Author"
  {
    var author := if book.author.Some? && book.author.value != "" then book.author.value else "Unknown Author";
    IngestionRequest(book.mirror, book.title, author)
  }
}
