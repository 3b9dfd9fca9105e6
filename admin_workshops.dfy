/** The admin workshop manager (app/admin/workshops/page.tsx): the search,
    the multipart body built from the form's entries, the 24-hour to 12-hour
    time display, the input handler, and the add, edit, update, delete and
    reset handlers, which re-fetch the list instead of editing it. */
module AdminWorkshops {
  import opened Wrappers
  import opened Text
  import opened Collections
  import opened Search
  import opened Multipart
  import opened Palette

  datatype Workshop = Workshop(
    id: int, title: string, description: string, instructor: string, date: string,
    time: string, duration: string, capacity: int, level: string, category: string,
    location: string, price: string, status: string)

  /** The add/edit form: twelve text fields and two optional files. */
  datatype Form = Form(
    title: string, description: string, instructor: string, date: string, time: string,
    duration: string, capacity: string, level: string, category: string, location: string,
    price: string, status: string, main_image: Option<File>, video: Option<File>)

  const DefaultForm := Form("", "", "", "", "", "", "", "beginner", "", "online", "", "upcoming", None, None)

  datatype TextField =
    Title | Description | Instructor | Date | Time | Duration | Capacity | Level |
    CategoryField | Location | Price | Status

  datatype FileField = MainImage | VideoFile

  // ---------------------------------------------------------------------
  // Search and status colour
  // ---------------------------------------------------------------------

  /** A workshop is listed when the term is in its title, instructor or
      category; the page has no status filter. */
  predicate Listed(w: Workshop, term: string) {
    Matches(term, [w.title, w.instructor, w.category])
  }

  function FilteredWorkshops(workshops: seq<Workshop>, term: string): seq<Workshop> {
    Filter(workshops, (w: Workshop) => Listed(w, term))
  }

  /** The workshops shown keep the list's order, each matches the term,
      and every workshop that matches is shown. */
  lemma FilteredWorkshopsSpec(workshops: seq<Workshop>, term: string)
    ensures var r := FilteredWorkshops(workshops, term);
      IsSubsequence(r, workshops) &&
      (forall i :: 0 <= i < |r| ==> Listed(r[i], term)) &&
      (forall i :: 0 <= i < |workshops| && Listed(workshops[i], term) ==> workshops[i] in r)
  {
    FilterIsSubsequence(workshops, (w: Workshop) => Listed(w, term));
  }

  lemma EmptySearchListsAll(workshops: seq<Workshop>)
    ensures FilteredWorkshops(workshops, "") == workshops
  {
    forall i | 0 <= i < |workshops| ensures Listed(workshops[i], "") {
      var w := workshops[i];
      EmptyTermMatches([w.title, w.instructor, w.category]);
    }
    FilterAll(workshops, (w: Workshop) => Listed(w, ""));
  }

  function StatusTone(status: string): (r: Tone)
    ensures r == Blue <==> status == "upcoming"
    ensures r == Green <==> status == "ongoing"
    ensures r == Red <==> status == "cancelled"
    ensures r == Gray <==> status !in {"upcoming", "ongoing", "cancelled"}
  {
    match status
    case "upcoming" => Blue
    case "ongoing" => Green
    case "completed" => Gray
    case "cancelled" => Red
    case _ => Gray
  }

  // ---------------------------------------------------------------------
  // The multipart body
  // ---------------------------------------------------------------------

  /** `Object.entries(formData)`, in the order the form object lists its keys. */
  function Entries(f: Form): seq<Entry> {
    [Entry("title", Str(f.title)), Entry("description", Str(f.description)),
     Entry("instructor", Str(f.instructor)), Entry("date", Str(f.date)),
     Entry("time", Str(f.time)), Entry("duration", Str(f.duration)),
     Entry("capacity", Str(f.capacity)), Entry("level", Str(f.level)),
     Entry("category", Str(f.category)), Entry("location", Str(f.location)),
     Entry("price", Str(f.price)), Entry("status", Str(f.status)),
     Entry("main_image", FileValue(f.main_image)), Entry("video", FileValue(f.video))]
  }

  function FileValue(file: Option<File>): Value {
    match file
    case Some(x) => Attached(x)
    case None => Null
  }

  /** The first pass over the entries appends an entry as text unless it is
      one of the two file keys or holds `null`. */
  predicate SentAsText(e: Entry) {
    e.key != "main_image" && e.key != "video" && !e.value.Null?
  }

  /** The text parts the first pass appends, in entry order. */
  function TextParts(entries: seq<Entry>): (r: seq<Part>)
    ensures |r| <= |entries|
    ensures forall i :: 0 <= i < |r| ==> r[i].Field? && r[i].key != "main_image" && r[i].key != "video"
  {
    if entries == [] then []
    else
      (if SentAsText(entries[0]) then [Field(entries[0].key, Stringify(entries[0].value))] else [])
      + TextParts(entries[1..])
  }

  /** The whole body: the text parts, then each file only when one is chosen. */
  function WorkshopParts(f: Form): seq<Part> {
    TextParts(Entries(f))
    + (if f.main_image.Some? then [Upload("main_image", f.main_image.value)] else [])
    + (if f.video.Some? then [Upload("video", f.video.value)] else [])
  }

  /** The `forEach` over the entries, appending to the body buffer. */
  method AppendTextParts(entries: seq<Entry>) returns (parts: seq<Part>)
    ensures parts == TextParts(entries)
  {
    parts := [];
    var i := 0;
    while i < |entries|
      invariant 0 <= i <= |entries|
      invariant parts + TextParts(entries[i..]) == TextParts(entries)
    {
      var e := entries[i];
      assert entries[i..][1..] == entries[i + 1..];
      assert TextParts(entries[i..]) ==
        (if SentAsText(e) then [Field(e.key, Stringify(e.value))] else []) + TextParts(entries[i + 1..]);
      if SentAsText(e) {
        parts := parts + [Field(e.key, Stringify(e.value))];
      }
      i := i + 1;
    }
    assert entries[i..] == [];
  }

  /** The body `handleAddWorkshop` and `handleUpdateWorkshop` build. */
  method BuildBody(f: Form) returns (parts: seq<Part>)
    ensures parts == WorkshopParts(f)
  {
    parts := AppendTextParts(Entries(f));
    if f.main_image.Some? {
      parts := parts + [Upload("main_image", f.main_image.value)];
    }
    if f.video.Some? {
      parts := parts + [Upload("video", f.video.value)];
    }
  }

  function TextFieldParts(f: Form): seq<Part> {
    [Field("title", f.title), Field("description", f.description),
     Field("instructor", f.instructor), Field("date", f.date), Field("time", f.time),
     Field("duration", f.duration), Field("capacity", f.capacity), Field("level", f.level),
     Field("category", f.category), Field("location", f.location), Field("price", f.price),
     Field("status", f.status)]
  }

  /** The first pass over a concatenation is the first pass over each part. */
  lemma {:induction false} TextPartsAppend(a: seq<Entry>, b: seq<Entry>)
    ensures TextParts(a + b) == TextParts(a) + TextParts(b)
  {
    if a == [] {
      assert a + b == b;
    } else {
      assert (a + b)[1..] == a[1..] + b;
      TextPartsAppend(a[1..], b);
    }
  }

  /** The text pass over entries cut in two places is the two passes joined. */
  lemma TextPartsSplit(es: seq<Entry>, k: nat)
    requires k <= |es|
    ensures TextParts(es) == TextParts(es[..k]) + TextParts(es[k..])
  {
    assert es == es[..k] + es[k..];
    TextPartsAppend(es[..k], es[k..]);
  }

  /** Entries that all hold text under a key other than the two file keys
      are all sent, each as its own text and in order. */
  lemma {:induction false} TextPartsAllText(es: seq<Entry>)
    requires forall i :: 0 <= i < |es| ==> es[i].value.Str? && es[i].key != "main_image" && es[i].key != "video"
    ensures |TextParts(es)| == |es|
    ensures forall i :: 0 <= i < |es| ==> TextParts(es)[i] == Field(es[i].key, es[i].value.s)
  {
    if es != [] {
      TextPartsAllText(es[1..]);
      var r := TextParts(es);
      assert r == [Field(es[0].key, es[0].value.s)] + TextParts(es[1..]);
      forall i | 1 <= i < |es| ensures r[i] == Field(es[i].key, es[i].value.s) {
        assert es[1..][i - 1] == es[i];
      }
    }
  }

  /** The twelve text entries are each sent, as their own text and in order. */
  lemma TextEntriesSent(f: Form)
    ensures TextParts(Entries(f)[..12]) == TextFieldParts(f)
  {
    var text := Entries(f)[..12];
    TextPartsAllText(text);
    var r, want := TextParts(text), TextFieldParts(f);
    assert |r| == |want| == 12;
    forall i | 0 <= i < 12 ensures r[i] == want[i] {
      assert text[i] == Entries(f)[i];
    }
    assert r == want;
  }

  /** The two file entries never go out as text, chosen or not. */
  lemma FileEntriesNotText(f: Form)
    ensures TextParts(Entries(f)[12..]) == []
  {
    var files := Entries(f)[12..];
    assert TextParts(files[1..]) == [];
  }

  /** Every text field is sent once, in form order, as its own text; a file
      is sent only when one is chosen, after the text. */
  lemma BodyShape(f: Form)
    ensures WorkshopParts(f) == TextFieldParts(f)
      + (if f.main_image.Some? then [Upload("main_image", f.main_image.value)] else [])
      + (if f.video.Some? then [Upload("video", f.video.value)] else [])
  {
    var e := Entries(f);
    TextPartsSplit(e, 12);
    TextEntriesSent(f);
    FileEntriesNotText(f);
  }

  /** A file part is in the body exactly when that file is chosen. */
  lemma FileSentIffChosen(f: Form, x: File)
    ensures Upload("main_image", x) in WorkshopParts(f) <==> f.main_image == Some(x)
    ensures Upload("video", x) in WorkshopParts(f) <==> f.video == Some(x)
  {
    BodyShape(f);
  }

  // ---------------------------------------------------------------------
  // Time display
  // ---------------------------------------------------------------------

  /** The hour shown for a 24-hour hour. */
  function DisplayHour(hour: int): (r: int)
    ensures 0 <= hour < 24 ==> 1 <= r <= 12
    ensures 13 <= hour ==> r == hour - 12
    ensures hour == 0 ==> r == 12
    ensures 1 <= hour <= 12 ==> r == hour
  {
    if hour > 12 then hour - 12 else if hour == 0 then 12 else hour
  }

  /** `formatTime(time)`: the text before the first ':' read with `parseInt`,
      the text after it kept as is (`undefined` when there is no ':'). An
      hour `parseInt` cannot read shows as "NaN" with "AM". */
  function FormatTime(time: string): (r: string)
    ensures |r| >= 3 && (r[|r| - 3..] == " AM" || r[|r| - 3..] == " PM")
  {
    var pieces := Split(time, ':');
    var minutes := if |pieces| >= 2 then pieces[1] else "undefined";
    match ParseInt(pieces[0])
    case None => "NaN:" + minutes + " AM"
    case Some(hour) =>
      IntToString(DisplayHour(hour)) + ":" + minutes + " " + (if hour >= 12 then "PM" else "AM")
  }

  /** For "HH:MM" with a valid hour: AM exactly below 12, the 12-hour clock
      hour, and the minutes copied verbatim. */
  lemma FormatTimeSpec(hour: nat, minutes: string)
    requires hour < 24 && ':' !in minutes
    ensures FormatTime(TwoDigits(hour) + ":" + minutes) ==
      IntToString(DisplayHour(hour)) + ":" + minutes + " " + (if hour < 12 then "AM" else "PM")
  {
    var hh := TwoDigits(hour);
    assert ':' !in hh by {
      assert hh[0] != ':' && hh[1] != ':';
    }
    SplitTwoPieces(hh, ':', minutes);
    TwoDigitsParse(hour);
  }

  /** Twelve, written out and as the 12-hour clock shows it. */
  lemma Twelve()
    ensures TwoDigits(12) == "12" && IntToString(12) == "12"
  {
    assert DigitChar(1) == '1' && DigitChar(2) == '2';
    assert NatToString(12) == NatToString(1) + [DigitChar(2)];
  }

  /** Noon reads "12:MM PM". */
  lemma Noon(minutes: string)
    requires ':' !in minutes
    ensures FormatTime("12:" + minutes) == "12:" + minutes + " PM"
  {
    Twelve();
    calc {
      FormatTime("12:" + minutes);
      { assert "12:" + minutes == TwoDigits(12) + ":" + minutes; }
      FormatTime(TwoDigits(12) + ":" + minutes);
      { FormatTimeSpec(12, minutes); }
      IntToString(DisplayHour(12)) + ":" + minutes + " " + "PM";
      { assert "12" + ":" + minutes + " " + "PM" == "12:" + minutes + " PM"; }
      "12:" + minutes + " PM";
    }
  }

  /** A morning hour from 1 to 9 drops its leading zero: "09:30" reads
      "9:30 AM". */
  lemma MorningHour(hour: nat, minutes: string)
    requires 1 <= hour <= 9 && ':' !in minutes
    ensures FormatTime(TwoDigits(hour) + ":" + minutes) == [DigitChar(hour)] + ":" + minutes + " AM"
  {
    FormatTimeSpec(hour, minutes);
    assert IntToString(DisplayHour(hour)) == [DigitChar(hour)];
  }

  /** "09:30" reads "9:30 AM". */
  lemma NineThirty()
    ensures FormatTime("09:30") == "9:30 AM"
  {
    MorningHour(9, "30");
    assert TwoDigits(9) == "09" by {
      assert DigitChar(0) == '0' && DigitChar(9) == '9';
    }
    assert "09" + ":" + "30" == "09:30";
    assert [DigitChar(9)] + ":" + "30" + " AM" == "9:30 AM";
  }

  /** Midnight reads "12:MM AM". */
  lemma Midnight(minutes: string)
    requires ':' !in minutes
    ensures FormatTime("00:" + minutes) == "12:" + minutes + " AM"
  {
    var hh := TwoDigits(0);
    assert hh == "00" by {
      assert DigitChar(0) == '0';
    }
    calc {
      FormatTime("00:" + minutes);
      { assert "00:" + minutes == hh + ":" + minutes; }
      FormatTime(hh + ":" + minutes);
      { FormatTimeSpec(0, minutes); }
      IntToString(DisplayHour(0)) + ":" + minutes + " " + "AM";
      { Twelve(); }
      "12" + ":" + minutes + " " + "AM";
      { assert "12" + ":" + minutes + " " + "AM" == "12:" + minutes + " AM"; }
      "12:" + minutes + " AM";
    }
  }

  // ---------------------------------------------------------------------
  // Input handling and the edit form
  // ---------------------------------------------------------------------

  function GetText(f: Form, name: TextField): string {
    match name
    case Title => f.title
    case Description => f.description
    case Instructor => f.instructor
    case Date => f.date
    case Time => f.time
    case Duration => f.duration
    case Capacity => f.capacity
    case Level => f.level
    case CategoryField => f.category
    case Location => f.location
    case Price => f.price
    case Status => f.status
  }

  /** `handleInputChange` for a text, textarea or select input. */
  function SetText(f: Form, name: TextField, value: string): (r: Form)
    ensures forall n :: GetText(r, n) == if n == name then value else GetText(f, n)
    ensures r.main_image == f.main_image && r.video == f.video
  {
    match name
    case Title => f.(title := value)
    case Description => f.(description := value)
    case Instructor => f.(instructor := value)
    case Date => f.(date := value)
    case Time => f.(time := value)
    case Duration => f.(duration := value)
    case Capacity => f.(capacity := value)
    case Level => f.(level := value)
    case CategoryField => f.(category := value)
    case Location => f.(location := value)
    case Price => f.(price := value)
    case Status => f.(status := value)
  }

  /** `handleInputChange` for a file input: its first file, or `null` when
      none is chosen. */
  function SetFile(f: Form, name: FileField, files: seq<File>): (r: Form)
    ensures forall n :: GetText(r, n) == GetText(f, n)
    ensures name == MainImage ==> r.main_image == (if files == [] then None else Some(files[0])) && r.video == f.video
    ensures name == VideoFile ==> r.video == (if files == [] then None else Some(files[0])) && r.main_image == f.main_image
  {
    var file := if files == [] then None else Some(files[0]);
    match name
    case MainImage => f.(main_image := file)
    case VideoFile => f.(video := file)
  }

  /** The form `handleEditWorkshop` fills from the fetched workshop: the
      capacity as text and no files chosen. */
  function FormOf(w: Workshop): (r: Form)
    ensures r.main_image.None? && r.video.None?
    ensures r.title == w.title && r.instructor == w.instructor && r.date == w.date
  {
    Form(w.title, w.description, w.instructor, w.date, w.time, w.duration,
         IntToString(w.capacity), w.level, w.category, w.location, w.price, w.status, None, None)
  }

  /** Opening a workshop and saving it unchanged sends exactly its twelve
      text fields, the capacity as text that parses back to the number. */
  lemma EditThenSaveSendsSameWorkshop(w: Workshop)
    ensures WorkshopParts(FormOf(w)) == TextFieldParts(FormOf(w))
    ensures ParseInt(WorkshopParts(FormOf(w))[6].value) == Some(w.capacity)
  {
    BodyShape(FormOf(w));
    ParseIntToString(w.capacity);
  }

  /** `!editingWorkshop`: nothing is being edited, or the id is 0. */
  predicate NotEditing(editing: Option<int>) {
    editing.None? || editing.value == 0
  }

  // ---------------------------------------------------------------------
  // The page
  // ---------------------------------------------------------------------

  class Page {
    var workshops: seq<Workshop>
    var isAdding: bool
    var editing: Option<int>
    var searchTerm: string
    var submitting: bool
    var form: Form

    constructor()
      ensures workshops == [] && searchTerm == "" && !submitting && IsReset()
    {
      workshops, isAdding, editing := [], false, None;
      searchTerm, submitting, form := "", false, DefaultForm;
    }

    /** The state `resetForm` leaves: level "beginner", location "online",
        status "upcoming", no files, not adding, not editing. */
    predicate IsReset()
      reads this
    {
      form == DefaultForm && !isAdding && editing.None?
    }

    function Filtered(): seq<Workshop>
      reads this
    {
      FilteredWorkshops(workshops, searchTerm)
    }

    method ResetForm()
      modifies this`form, this`isAdding, this`editing
      ensures IsReset()
    {
      form, isAdding, editing := DefaultForm, false, None;
    }

    /** `fetchWorkshops`: a failed fetch keeps the list. */
    method FetchWorkshops(reply: Reply<seq<Workshop>>)
      modifies this`workshops
      ensures workshops == (if reply.Ok? then reply.data else old(workshops))
    {
      if reply.Ok? {
        workshops := reply.data;
      }
    }

    method HandleTextChange(name: TextField, value: string)
      modifies this`form
      ensures form == SetText(old(form), name, value)
    {
      form := SetText(form, name, value);
    }

    method HandleFileChange(name: FileField, files: seq<File>)
      modifies this`form
      ensures form == SetFile(old(form), name, files)
    {
      form := SetFile(form, name, files);
    }

    /** `handleAddWorkshop`: nothing is sent without a title, instructor and
        date; after a successful POST the list is re-fetched (`refetched`)
        and the form reset. Returns the body sent. */
    method HandleAddWorkshop(created: Reply<()>, refetched: Reply<seq<Workshop>>)
      returns (sent: Option<seq<Part>>)
      modifies this`workshops, this`form, this`isAdding, this`editing, this`submitting
      ensures sent.Some? <==> old(form.title) != "" && old(form.instructor) != "" && old(form.date) != ""
      ensures sent.None? ==> unchanged(this)
      ensures sent.Some? ==> sent.value == WorkshopParts(old(form)) && !submitting
      ensures sent.Some? && created.Ok? ==>
        workshops == (if refetched.Ok? then refetched.data else old(workshops)) && IsReset()
      ensures created.Err? ==> unchanged(this`workshops, this`form, this`isAdding, this`editing)
    {
      if form.title == "" || form.instructor == "" || form.date == "" {
        return None;
      }
      submitting := true;
      var body := BuildBody(form);
      sent := Some(body);
      if created.Ok? {
        FetchWorkshops(refetched);
        ResetForm();
      }
      submitting := false;
    }

    /** `handleEditWorkshop(id)`, given the reply to the detail request. */
    method HandleEditWorkshop(id: int, reply: Reply<Workshop>)
      modifies this`form, this`editing
      ensures reply.Ok? ==> form == FormOf(reply.data) && editing == Some(id)
      ensures reply.Err? ==> unchanged(this)
    {
      if reply.Ok? {
        form := FormOf(reply.data);
        editing := Some(id);
      }
    }

    /** `handleUpdateWorkshop`: requires a title, an instructor and an edited
        workshop (the date is not checked). */
    method HandleUpdateWorkshop(updated: Reply<()>, refetched: Reply<seq<Workshop>>)
      returns (sent: Option<seq<Part>>)
      modifies this`workshops, this`form, this`isAdding, this`editing, this`submitting
      ensures sent.Some? <==> old(form.title) != "" && old(form.instructor) != "" && !NotEditing(old(editing))
      ensures sent.None? ==> unchanged(this)
      ensures sent.Some? ==> sent.value == WorkshopParts(old(form)) && !submitting
      ensures sent.Some? && updated.Ok? ==>
        workshops == (if refetched.Ok? then refetched.data else old(workshops)) && IsReset()
      ensures updated.Err? ==> unchanged(this`workshops, this`form, this`isAdding, this`editing)
    {
      if form.title == "" || form.instructor == "" || NotEditing(editing) {
        return None;
      }
      submitting := true;
      var body := BuildBody(form);
      sent := Some(body);
      if updated.Ok? {
        FetchWorkshops(refetched);
        ResetForm();
      }
      submitting := false;
    }

    /** `handleDeleteWorkshop(id)`: the list is re-fetched after a delete. */
    method HandleDeleteWorkshop(id: int, confirmed: bool, deleted: Reply<()>,
                                refetched: Reply<seq<Workshop>>)
      modifies this`workshops
      ensures confirmed && deleted.Ok? && refetched.Ok? ==> workshops == refetched.data
      ensures !confirmed || deleted.Err? || refetched.Err? ==> workshops == old(workshops)
    {
      if confirmed && deleted.Ok? {
        FetchWorkshops(refetched);
      }
    }
  }
}
