/** The admin book catalogue (app/admin/library/page.tsx): search and category
    filter, the category options, and the add, edit, update, delete, file and
    reset handlers over the in-memory book list. Alerts are not modelled. */
module AdminLibrary {
  import opened Wrappers
  import opened Text
  import opened Collections
  import opened Search
  import opened Multipart
  import opened Palette

  datatype Book = Book(
    id: int, title: string, author: string, description: string, category: string,
    pages: int, publish_year: int, isbn: string, language: string, status: string)

  datatype Category = Category(value: string, label_text: string, count: int)

  /** The add/edit form: text fields and the two chosen files. */
  datatype Form = Form(
    title: string, author: string, description: string, category: string,
    pages: string, publish_year: string, language: string, status: string, isbn: string,
    cover_image: Option<File>, pdf_file: Option<File>)

  const DefaultForm := Form("", "", "", "", "", "", "English", "available", "", None, None)

  datatype FileField = CoverImage | PdfFile

  // ---------------------------------------------------------------------
  // Filtering and options
  // ---------------------------------------------------------------------

  /** A book is listed when the term is in its title, author or description,
      and the category filter is "All" or the book's category. */
  predicate Listed(b: Book, term: string, category: string) {
    Matches(term, [b.title, b.author, b.description]) && Selected(category, b.category, "All")
  }

  function FilteredBooks(books: seq<Book>, term: string, category: string): seq<Book> {
    Filter(books, (b: Book) => Listed(b, term, category))
  }

  /** The list shown keeps the catalogue's order and holds exactly the listed
      books; with no term and "All" it is the whole catalogue. */
  lemma FilteredBooksSpec(books: seq<Book>, term: string, category: string)
    ensures var r := FilteredBooks(books, term, category);
      IsSubsequence(r, books) &&
      (forall i :: 0 <= i < |r| ==> Listed(r[i], term, category)) &&
      (forall i :: 0 <= i < |books| && Listed(books[i], term, category) ==> books[i] in r)
    ensures FilteredBooks(books, "", "All") == books
  {
    FilterIsSubsequence(books, (b: Book) => Listed(b, term, category));
    forall i | 0 <= i < |books| ensures Listed(books[i], "", "All") {
      var b := books[i];
      EmptyTermMatches([b.title, b.author, b.description]);
    }
    FilterAll(books, (b: Book) => Listed(b, "", "All"));
  }

  function Labels(categories: seq<Category>): (r: seq<string>)
    ensures |r| == |categories|
    ensures forall i :: 0 <= i < |categories| ==> r[i] == categories[i].label_text
  {
    if categories == [] then [] else [categories[0].label_text] + Labels(categories[1..])
  }

  /** The category select: "All" followed by the labels in server order. */
  function CategoryOptions(categories: seq<Category>): (r: seq<string>)
    ensures |r| == |categories| + 1 && r[0] == "All"
    ensures forall i :: 0 <= i < |categories| ==> r[i + 1] == categories[i].label_text
  {
    ["All"] + Labels(categories)
  }

  function StatusTone(status: string): (r: Tone)
    ensures r == Green <==> status == "available"
    ensures r == Yellow <==> status == "maintenance"
    ensures r == Gray <==> status != "available" && status != "maintenance"
  {
    match status
    case "available" => Green
    case "maintenance" => Yellow
    case "archived" => Gray
    case _ => Gray
  }

  // ---------------------------------------------------------------------
  // Request bodies and the edit form
  // ---------------------------------------------------------------------

  function TextParts(f: Form): seq<Part> {
    [Field("title", f.title), Field("author", f.author), Field("description", f.description),
     Field("category", f.category), Field("pages", f.pages), Field("publish_year", f.publish_year),
     Field("language", f.language), Field("status", f.status), Field("isbn", f.isbn)]
  }

  /** The multipart body of an add or update: nine text fields, then each
      file only when one is chosen. */
  function BookParts(f: Form): seq<Part> {
    TextParts(f)
    + (if f.cover_image.Some? then [Upload("cover_image", f.cover_image.value)] else [])
    + (if f.pdf_file.Some? then [Upload("pdf_file", f.pdf_file.value)] else [])
  }

  /** The form `handleEditBook` fills: numbers as text and no files chosen. */
  function FormOf(b: Book): (r: Form)
    ensures r.cover_image.None? && r.pdf_file.None?
  {
    Form(b.title, b.author, b.description, b.category, IntToString(b.pages),
         IntToString(b.publish_year), b.language, b.status, b.isbn, None, None)
  }

  /** Opening a book for editing and saving it unchanged sends nine text
      fields, the numeric ones as text that parses back to the stored numbers. */
  lemma EditThenSaveSendsSameBook(b: Book)
    ensures var parts := BookParts(FormOf(b));
      Keys(parts) == BookKeys &&
      ParseInt(parts[4].value) == Some(b.pages) &&
      ParseInt(parts[5].value) == Some(b.publish_year)
  {
    var f := FormOf(b);
    assert BookParts(f) == TextParts(f) + [] + [];
    assert BookParts(f) == TextParts(f);
    TextKeys(f);
    ParseIntToString(b.pages);
    ParseIntToString(b.publish_year);
  }

  /** The nine text fields' keys, in the order they are appended. */
  const BookKeys: seq<string> :=
    ["title", "author", "description", "category", "pages", "publish_year", "language", "status", "isbn"]

  lemma TextKeys(f: Form)
    ensures Keys(TextParts(f)) == BookKeys
  {
    var keys := Keys(TextParts(f));
    assert forall i :: 0 <= i < 9 ==> keys[i] == BookKeys[i];
  }

  /** `handleFileChange`: a chosen file goes into the named field; when none
      is chosen the form stays as it is. */
  function WithFile(f: Form, field: FileField, file: Option<File>): (r: Form)
    ensures file.None? ==> r == f
    ensures file.Some? && field == CoverImage ==> r == f.(cover_image := file)
    ensures file.Some? && field == PdfFile ==> r == f.(pdf_file := file)
  {
    if file.None? then f
    else match field
      case CoverImage => f.(cover_image := file)
      case PdfFile => f.(pdf_file := file)
  }

  // ---------------------------------------------------------------------
  // Identity of list entries
  // ---------------------------------------------------------------------

  predicate UniqueIds(books: seq<Book>) {
    forall i, j :: 0 <= i < |books| && 0 <= j < |books| && books[i].id == books[j].id ==> i == j
  }

  function HasId(id: int): Book -> bool {
    (b: Book) => b.id == id
  }

  /** `book.id === editingBook`, with `null` matching nothing. */
  function IsEditing(editing: Option<int>): Book -> bool {
    (b: Book) => editing == Some(b.id)
  }

  function Other(id: int): Book -> bool {
    (b: Book) => b.id != id
  }

  /** `!editingBook`: no book is being edited, or its id is 0, which
      JavaScript treats as false. */
  predicate NotEditing(editing: Option<int>) {
    editing.None? || editing.value == 0
  }

  /** With distinct ids, an update replaces exactly the edited book. */
  lemma UpdateReplacesOnlyEdited(books: seq<Book>, k: nat, updated: Book)
    requires UniqueIds(books) && k < |books|
    ensures ReplaceWhere(books, IsEditing(Some(books[k].id)), updated) == books[k := updated]
  {
    ReplaceOnlyOne(books, IsEditing(Some(books[k].id)), updated, k);
  }

  /** With distinct ids, deleting removes exactly that book. */
  lemma DeleteRemovesOnlyThat(books: seq<Book>, k: nat)
    requires UniqueIds(books) && k < |books|
    ensures Filter(books, Other(books[k].id)) == books[..k] + books[k + 1..]
  {
    RemoveOnlyOne(books, Other(books[k].id), k);
  }

  // ---------------------------------------------------------------------
  // The page
  // ---------------------------------------------------------------------

  class Page {
    var books: seq<Book>
    var categories: seq<Category>
    var isAdding: bool
    var editing: Option<int>
    var searchTerm: string
    var selectedCategory: string
    var form: Form

    constructor()
      ensures books == [] && categories == [] && searchTerm == "" && selectedCategory == "All"
      ensures IsReset()
    {
      books, categories, isAdding, editing := [], [], false, None;
      searchTerm, selectedCategory, form := "", "All", DefaultForm;
    }

    /** The form state `resetForm` leaves. */
    predicate IsReset()
      reads this
    {
      form == DefaultForm && !isAdding && editing.None?
    }

    function Filtered(): seq<Book>
      reads this
    {
      FilteredBooks(books, searchTerm, selectedCategory)
    }

    method ResetForm()
      modifies this`form, this`isAdding, this`editing
      ensures IsReset()
      ensures form.language == "English" && form.status == "available"
      ensures form.cover_image.None? && form.pdf_file.None?
    {
      form, isAdding, editing := DefaultForm, false, None;
    }

    /** `handleAddBook`, given the reply to the POST. Returns the body sent,
        `None` when the title or author is missing and nothing is sent. */
    method HandleAddBook(reply: Reply<Book>) returns (sent: Option<seq<Part>>)
      modifies this`books, this`form, this`isAdding, this`editing
      ensures old(form.title) == "" || old(form.author) == "" ==> sent.None? && unchanged(this)
      ensures old(form.title) != "" && old(form.author) != "" ==> sent == Some(BookParts(old(form)))
      ensures sent.Some? && reply.Ok? ==> books == old(books) + [reply.data] && IsReset()
      ensures reply.Err? ==> unchanged(this)
    {
      if form.title == "" || form.author == "" {
        return None;
      }
      sent := Some(BookParts(form));
      if reply.Ok? {
        books := books + [reply.data];
        ResetForm();
      }
    }

    /** `handleEditBook(id)`: fills the form from the first book with that id;
        does nothing when there is none. */
    method HandleEditBook(id: int)
      modifies this`form, this`editing
      ensures Find(books, HasId(id)).None? ==> unchanged(this)
      ensures Find(books, HasId(id)).Some? ==>
        form == FormOf(Find(books, HasId(id)).value) && editing == Some(id)
    {
      var book := Find(books, HasId(id));
      if book.Some? {
        form := FormOf(book.value);
        editing := Some(id);
      }
    }

    /** `handleUpdateBook`, given the reply to the PATCH. */
    method HandleUpdateBook(reply: Reply<Book>) returns (sent: Option<seq<Part>>)
      modifies this`books, this`form, this`isAdding, this`editing
      ensures old(form.title) == "" || old(form.author) == "" || NotEditing(old(editing)) ==>
        sent.None? && unchanged(this)
      ensures sent.Some? ==> sent.value == BookParts(old(form))
      ensures sent.Some? <==> old(form.title) != "" && old(form.author) != "" && !NotEditing(old(editing))
      ensures sent.Some? && reply.Ok? ==>
        books == ReplaceWhere(old(books), IsEditing(old(editing)), reply.data) && IsReset()
      ensures reply.Err? ==> unchanged(this)
    {
      if form.title == "" || form.author == "" || NotEditing(editing) {
        return None;
      }
      sent := Some(BookParts(form));
      if reply.Ok? {
        books := ReplaceWhere(books, IsEditing(editing), reply.data);
        ResetForm();
      }
    }

    /** `handleDeleteBook(id)`: `confirmed` is the answer to the dialog. */
    method HandleDeleteBook(id: int, confirmed: bool, reply: Reply<()>)
      modifies this`books
      ensures confirmed && reply.Ok? ==> books == Filter(old(books), Other(id))
      ensures !confirmed || reply.Err? ==> books == old(books)
    {
      if confirmed && reply.Ok? {
        books := Filter(books, Other(id));
      }
    }

    method HandleFileChange(field: FileField, file: Option<File>)
      modifies this`form
      ensures form == WithFile(old(form), field, file)
    {
      form := WithFile(form, field, file);
    }
  }
}
