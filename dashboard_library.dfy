/** The student library (app/dashboard/library/page.tsx): the search and
    category filter followed by the sort the reader picks, the rule that
    disables Read and Download, the name of a downloaded file and the five
    recent activities. */
module DashboardLibrary {
  import opened Wrappers
  import opened Text
  import opened Collections
  import opened Search

  datatype Book = Book(
    id: int, title: string, author: string, description: string, category: string,
    publish_year: int, pdf_file: Option<string>, download_count: int, read_count: int)

  /** The sort select; every value but the three counts sorts by title. */
  datatype SortKey = ByTitle | ByReadCount | ByDownloadCount | ByPublishYear

  /** The category value that turns the category filter off. */
  const AllCategories := "all"

  // ---------------------------------------------------------------------
  // Filter
  // ---------------------------------------------------------------------

  predicate Listed(b: Book, term: string, category: string) {
    Matches(term, [b.title, b.author, b.description]) && Selected(category, b.category, AllCategories)
  }

  // ---------------------------------------------------------------------
  // Sort
  // ---------------------------------------------------------------------

  /** The comparator of the sort, read as "`a` may stay ahead of `b`" (it
      returns at most 0): larger counts and later years first, titles in
      ascending order. */
  function Before(key: SortKey): (Book, Book) -> bool {
    match key
    case ByReadCount => (a: Book, b: Book) => b.read_count - a.read_count <= 0
    case ByDownloadCount => (a: Book, b: Book) => b.download_count - a.download_count <= 0
    case ByPublishYear => (a: Book, b: Book) => b.publish_year - a.publish_year <= 0
    case ByTitle => (a: Book, b: Book) => LexLe(a.title, b.title)
  }

  /** Every comparator orders any two books one way or the other. */
  lemma BeforeTotal(key: SortKey)
    ensures Total(Before(key))
  {
    if key == ByTitle {
      forall a: Book, b: Book ensures Before(key)(a, b) || Before(key)(b, a) {
        LexLeTotal(a.title, b.title);
      }
    }
  }

  /** Every comparator is transitive. */
  lemma BeforeTransitive(key: SortKey)
    ensures forall a, b, c :: Before(key)(a, b) && Before(key)(b, c) ==> Before(key)(a, c)
  {
    if key == ByTitle {
      forall a: Book, b: Book, c: Book | Before(key)(a, b) && Before(key)(b, c)
        ensures Before(key)(a, c)
      {
        LexLeTrans(a.title, b.title, c.title);
      }
    }
  }

  /** `filteredBooks`: the listed books, sorted by the chosen key. */
  function FilteredBooks(books: seq<Book>, term: string, category: string, key: SortKey): seq<Book> {
    SortBy(Filter(books, (b: Book) => Listed(b, term, category)), Before(key))
  }

  /** The shown list is a rearrangement of the listed books: the same books,
      each as many times as in the catalogue's filtered list. */
  lemma FilteredBooksPermutation(books: seq<Book>, term: string, category: string, key: SortKey)
    ensures multiset(FilteredBooks(books, term, category, key)) ==
      multiset(Filter(books, (b: Book) => Listed(b, term, category)))
    ensures forall b :: b in FilteredBooks(books, term, category, key) <==>
      b in books && Listed(b, term, category)
  {
    var listed := Filter(books, (b: Book) => Listed(b, term, category));
    var r := FilteredBooks(books, term, category, key);
    forall b ensures b in r <==> b in books && Listed(b, term, category) {
      assert b in r <==> b in multiset(r);
      assert b in listed <==> b in multiset(listed);
      if b in listed {
        var i :| 0 <= i < |listed| && listed[i] == b;
      }
      if b in books && Listed(b, term, category) {
        var i :| 0 <= i < |books| && books[i] == b;
      }
    }
  }

  /** Sorted by any of the counts, the list never increases: a book is
      ahead of every book with a larger count. */
  lemma CountSortNonIncreasing(books: seq<Book>, term: string, category: string, key: SortKey, i: nat, j: nat)
    requires key != ByTitle
    requires i < j < |FilteredBooks(books, term, category, key)|
    ensures var r := FilteredBooks(books, term, category, key);
      match key
      case ByReadCount => r[i].read_count >= r[j].read_count
      case ByDownloadCount => r[i].download_count >= r[j].download_count
      case ByPublishYear => r[i].publish_year >= r[j].publish_year
      case ByTitle => true
  {
    var r := FilteredBooks(books, term, category, key);
    BeforeTotal(key);
    BeforeTransitive(key);
    SortedPairwise(r, Before(key), i, j);
  }

  /** The default sort puts titles in ascending order. */
  lemma TitleSortAscending(books: seq<Book>, term: string, category: string, i: nat, j: nat)
    requires i < j < |FilteredBooks(books, term, category, ByTitle)|
    ensures var r := FilteredBooks(books, term, category, ByTitle);
      LexLe(r[i].title, r[j].title)
  {
    var r := FilteredBooks(books, term, category, ByTitle);
    BeforeTotal(ByTitle);
    BeforeTransitive(ByTitle);
    SortedPairwise(r, Before(ByTitle), i, j);
  }

  /** With no term and every category, every book is shown. */
  lemma EmptySearchShowsAll(books: seq<Book>, key: SortKey)
    ensures multiset(FilteredBooks(books, "", AllCategories, key)) == multiset(books)
  {
    forall i | 0 <= i < |books| ensures Listed(books[i], "", AllCategories) {
      EmptyTermMatches([books[i].title, books[i].author, books[i].description]);
    }
    FilterAll(books, (b: Book) => Listed(b, "", AllCategories));
  }

  // ---------------------------------------------------------------------
  // Buttons, downloads and activities
  // ---------------------------------------------------------------------

  /** Read and Download are disabled while loading and for a book with no
      PDF (`null` or empty). */
  function ActionsDisabled(loading: bool, b: Book): (r: bool)
    ensures !r <==> !loading && b.pdf_file.Some? && b.pdf_file.value != ""
  {
    loading || !(b.pdf_file.Some? && Truthy(b.pdf_file.value))
  }

  /** The name given to a downloaded file. */
  function DownloadName(title: string): (r: string)
    ensures |r| == |title| + 4
    ensures r[..|title|] == title && r[|title|..] == ".pdf"
  {
    title + ".pdf"
  }

  /** Titles can be read back from download names: two books with different
      titles never download under the same name. */
  lemma DownloadNameInjective(t1: string, t2: string)
    requires DownloadName(t1) == DownloadName(t2)
    ensures t1 == t2
  {
    assert t1 == DownloadName(t1)[..|t1|];
  }

  datatype Activity = Activity(id: int, book_title: string, activity_type: string, timestamp: string)

  /** `activities.slice(0, 5)`: the five most recent, in server order. */
  function RecentActivities(activities: seq<Activity>): (r: seq<Activity>)
    ensures |r| == if |activities| < 5 then |activities| else 5
    ensures forall i :: 0 <= i < |r| ==> r[i] == activities[i]
  {
    Take(activities, 5)
  }
}
