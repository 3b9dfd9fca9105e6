/** The admin mentor directory (app/admin/mentorship/page.tsx): search and
    status filter, the profile-picture check, and the add, edit, update,
    delete and reset handlers over the in-memory mentor list. */
module AdminMentorship {
  import opened Wrappers
  import opened Text
  import opened Collections
  import opened Search
  import opened Multipart
  import opened Palette

  const MaxPictureSize: nat := 5 * 1024 * 1024
  const NotAnImage := "Please select a valid image file"
  const TooLarge := "File size should be less than 5MB"
  const MissingFields := "Please fill in all required fields"

  datatype Mentor = Mentor(
    id: int, full_name: string, email: string, job_title: string, company: string,
    years_of_experience: int, bio: string, location: string, availability: string,
    expertise_areas: string, specializations: string, languages: string,
    linkedin_profile: Option<string>, profile_picture_url: Option<string>, status: string)

  /** The add/edit form: every field is text. */
  datatype Form = Form(
    full_name: string, email: string, job_title: string, company: string,
    years_of_experience: string, bio: string, location: string, availability: string,
    expertise_areas: string, specializations: string, languages: string,
    linkedin_profile: string)

  const EmptyForm := Form("", "", "", "", "", "", "", "", "", "", "", "")

  // ---------------------------------------------------------------------
  // Filtering and counting
  // ---------------------------------------------------------------------

  /** A mentor is listed when the search term is in the name, company or job
      title, and the status filter is "All" or the mentor's status. */
  predicate Listed(m: Mentor, term: string, status: string) {
    Matches(term, [m.full_name, m.company, m.job_title]) && Selected(status, m.status, "All")
  }

  function FilteredMentors(mentors: seq<Mentor>, term: string, status: string): seq<Mentor> {
    Filter(mentors, (m: Mentor) => Listed(m, term, status))
  }

  /** The list shown keeps the directory's order, holds only listed mentors
      and every listed one; with no term and "All" it is the whole directory. */
  lemma FilteredMentorsSpec(mentors: seq<Mentor>, term: string, status: string)
    ensures var r := FilteredMentors(mentors, term, status);
      IsSubsequence(r, mentors) &&
      (forall i :: 0 <= i < |r| ==> Listed(r[i], term, status)) &&
      (forall i :: 0 <= i < |mentors| && Listed(mentors[i], term, status) ==> mentors[i] in r)
    ensures FilteredMentors(mentors, "", "All") == mentors
  {
    FilterIsSubsequence(mentors, (m: Mentor) => Listed(m, term, status));
    forall i | 0 <= i < |mentors| ensures Listed(mentors[i], "", "All") {
      var m := mentors[i];
      EmptyTermMatches([m.full_name, m.company, m.job_title]);
    }
    FilterAll(mentors, (m: Mentor) => Listed(m, "", "All"));
  }

  /** The "Active Mentors" figure: the number of approved mentors. */
  function ActiveMentors(mentors: seq<Mentor>): nat {
    CountWhere(mentors, (m: Mentor) => m.status == "approved")
  }

  /** Adding a mentor raises the active count exactly when it is approved. */
  lemma ActiveMentorsAfterAdd(mentors: seq<Mentor>, m: Mentor)
    ensures ActiveMentors(mentors + [m]) == ActiveMentors(mentors) + (if m.status == "approved" then 1 else 0)
  {
    CountWhereAppend(mentors, m, (x: Mentor) => x.status == "approved");
  }

  function StatusTone(status: string): (r: Tone)
    ensures status == "approved" <==> r == Green
    ensures status == "rejected" <==> r == Red
    ensures status == "pending" <==> r == Yellow
    ensures r == Gray <==> status !in {"approved", "rejected", "pending"}
  {
    match status
    case "approved" => Green
    case "rejected" => Red
    case "pending" => Yellow
    case _ => Gray
  }

  // ---------------------------------------------------------------------
  // The picture check and the request body
  // ---------------------------------------------------------------------

  /** Why a chosen picture is refused, `None` when it is accepted: the type
      is checked before the size. */
  function PictureProblem(f: File): (r: Option<string>)
    ensures r == Some(NotAnImage) <==> !IsPrefix("image/", f.mime)
    ensures r == Some(TooLarge) <==> IsPrefix("image/", f.mime) && f.size > MaxPictureSize
    ensures r.None? <==> IsPrefix("image/", f.mime) && f.size <= MaxPictureSize
  {
    if !IsPrefix("image/", f.mime) then Some(NotAnImage)
    else if f.size > MaxPictureSize then Some(TooLarge)
    else None
  }

  predicate RequiredFilled(f: Form) {
    f.full_name != "" && f.email != "" && f.job_title != ""
  }

  /** The multipart body of an add or update: the twelve fields in order, an
      empty experience sent as "0", then the picture when one is chosen. */
  function MentorParts(f: Form, picture: Option<File>): seq<Part> {
    FieldParts(f) + (if picture.Some? then [Upload("profile_picture", picture.value)] else [])
  }

  function FieldParts(f: Form): seq<Part> {
    [Field("full_name", f.full_name), Field("email", f.email), Field("job_title", f.job_title),
     Field("company", f.company), Field("years_of_experience", OrElse(f.years_of_experience, "0")),
     Field("bio", f.bio), Field("location", f.location), Field("availability", f.availability),
     Field("expertise_areas", f.expertise_areas), Field("specializations", f.specializations),
     Field("languages", f.languages), Field("linkedin_profile", f.linkedin_profile)]
  }

  /** The form `handleEditMentor` fills from a fetched mentor. */
  function FormOf(m: Mentor): (r: Form)
    ensures r.years_of_experience != "" && ParseInt(r.years_of_experience) == Some(m.years_of_experience)
    ensures m.linkedin_profile.None? ==> r.linkedin_profile == ""
  {
    ExperienceText(m.years_of_experience);
    Form(m.full_name, m.email, m.job_title, m.company, IntToString(m.years_of_experience),
         m.bio, m.location, m.availability, m.expertise_areas, m.specializations,
         m.languages, m.linkedin_profile.GetOr(""))
  }

  /** Opening a mentor for editing and saving it unchanged sends its own
      values back: the experience as text that parses to the stored number,
      and a missing LinkedIn profile as "". */
  lemma EditThenSaveSendsSameMentor(m: Mentor)
    ensures var parts := MentorParts(FormOf(m), None);
      |parts| == 12 && parts[0] == Field("full_name", m.full_name) &&
      parts[1] == Field("email", m.email) && parts[2] == Field("job_title", m.job_title) &&
      parts[4].key == "years_of_experience" &&
      ParseInt(parts[4].value) == Some(m.years_of_experience) &&
      parts[11] == Field("linkedin_profile", m.linkedin_profile.GetOr(""))
  {
    var f := FormOf(m);
    var parts := MentorParts(f, None);
    assert parts == FieldParts(f) + [];
    assert parts == FieldParts(f);
    ExperienceText(m.years_of_experience);
    assert parts[4] == Field("years_of_experience", OrElse(IntToString(m.years_of_experience), "0"));
  }

  /** The experience text of a fetched mentor is never empty, so it is sent
      as it is and parses back to the number. */
  lemma ExperienceText(i: int)
    ensures OrElse(IntToString(i), "0") == IntToString(i)
    ensures ParseInt(OrElse(IntToString(i), "0")) == Some(i)
  {
    NatToStringDigits(if i < 0 then -i else i);
    assert IntToString(i) != "";
    ParseIntToString(i);
  }

  /** An empty experience field is sent as "0". */
  lemma EmptyExperienceSentAsZero(f: Form, picture: Option<File>)
    requires f.years_of_experience == ""
    ensures MentorParts(f, picture)[4] == Field("years_of_experience", "0")
  {
  }

  // ---------------------------------------------------------------------
  // Identity of list entries
  // ---------------------------------------------------------------------

  predicate UniqueIds(mentors: seq<Mentor>) {
    forall i, j :: 0 <= i < |mentors| && 0 <= j < |mentors| && mentors[i].id == mentors[j].id ==> i == j
  }

  /** `mentor.id === editingMentor`, with `null` matching nothing. */
  function IsEditing(editing: Option<int>): Mentor -> bool {
    (m: Mentor) => editing == Some(m.id)
  }

  function Other(id: int): Mentor -> bool {
    (m: Mentor) => m.id != id
  }

  /** With distinct ids, an update replaces exactly the edited mentor. */
  lemma UpdateReplacesOnlyEdited(mentors: seq<Mentor>, k: nat, updated: Mentor)
    requires UniqueIds(mentors) && k < |mentors|
    ensures ReplaceWhere(mentors, IsEditing(Some(mentors[k].id)), updated) == mentors[k := updated]
  {
    ReplaceOnlyOne(mentors, IsEditing(Some(mentors[k].id)), updated, k);
  }

  /** With no mentor being edited, an update leaves the list as it was. */
  lemma UpdateWithoutEditingKeepsList(mentors: seq<Mentor>, updated: Mentor)
    ensures ReplaceWhere(mentors, IsEditing(None), updated) == mentors
  {
    ReplaceNone(mentors, IsEditing(None), updated);
  }

  /** With distinct ids, deleting removes exactly that mentor. */
  lemma DeleteRemovesOnlyThat(mentors: seq<Mentor>, k: nat)
    requires UniqueIds(mentors) && k < |mentors|
    ensures Filter(mentors, Other(mentors[k].id)) == mentors[..k] + mentors[k + 1..]
  {
    RemoveOnlyOne(mentors, Other(mentors[k].id), k);
  }

  // ---------------------------------------------------------------------
  // The page
  // ---------------------------------------------------------------------

  class Page {
    var mentors: seq<Mentor>
    var loading: bool
    var isAdding: bool
    var editing: Option<int>
    var searchTerm: string
    var selectedStatus: string
    var error: string
    var successMessage: string
    var selectedFile: Option<File>
    var previewUrl: Option<string>
    var form: Form

    constructor()
      ensures mentors == [] && !loading && searchTerm == "" && selectedStatus == "All"
      ensures successMessage == "" && IsReset()
    {
      mentors, loading, isAdding, editing := [], false, false, None;
      searchTerm, selectedStatus, error, successMessage := "", "All", "", "";
      selectedFile, previewUrl, form := None, None, EmptyForm;
    }

    /** The form state `resetForm` leaves. */
    predicate IsReset()
      reads this
    {
      form == EmptyForm && selectedFile.None? && previewUrl.None? &&
      !isAdding && editing.None? && error == ""
    }

    function Filtered(): seq<Mentor>
      reads this
    {
      FilteredMentors(mentors, searchTerm, selectedStatus)
    }

    method ResetForm()
      modifies this`form, this`selectedFile, this`previewUrl, this`isAdding, this`editing, this`error
      ensures IsReset()
    {
      form, selectedFile, previewUrl := EmptyForm, None, None;
      isAdding, editing, error := false, None, "";
    }

    /** `handleFileSelect`: a refused picture only sets the error; an accepted
        one becomes the selected file. The preview is read asynchronously and
        is not modelled. */
    method HandleFileSelect(file: Option<File>)
      modifies this`selectedFile, this`error
      ensures file.None? ==> selectedFile == old(selectedFile) && error == old(error)
      ensures file.Some? && PictureProblem(file.value).Some? ==>
        error == PictureProblem(file.value).value && selectedFile == old(selectedFile)
      ensures file.Some? && PictureProblem(file.value).None? ==>
        selectedFile == file && error == old(error)
    {
      if file.Some? {
        var f := file.value;
        if !IsPrefix("image/", f.mime) {
          error := NotAnImage;
          return;
        }
        if f.size > MaxPictureSize {
          error := TooLarge;
          return;
        }
        selectedFile := file;
      }
    }

    method RemoveSelectedFile()
      modifies this`selectedFile, this`previewUrl
      ensures selectedFile.None? && previewUrl.None?
    {
      selectedFile, previewUrl := None, None;
    }

    /** `handleAddMentor`, given the reply to the POST. Returns the body sent,
        `None` when the required fields are missing and nothing is sent. */
    method HandleAddMentor(reply: Reply<Mentor>) returns (sent: Option<seq<Part>>)
      modifies this`mentors, this`loading, this`successMessage, this`error, this`form, this`selectedFile,
        this`previewUrl, this`isAdding, this`editing
      ensures !RequiredFilled(old(form)) ==>
        sent.None? && error == MissingFields &&
        unchanged(this`mentors, this`form, this`loading, this`editing, this`isAdding,
                  this`selectedFile, this`previewUrl, this`successMessage)
      ensures RequiredFilled(old(form)) ==>
        sent == Some(MentorParts(old(form), old(selectedFile))) && !loading
      ensures RequiredFilled(old(form)) && reply.Ok? ==>
        mentors == old(mentors) + [reply.data] &&
        successMessage == "Mentor added successfully!" && IsReset()
      ensures RequiredFilled(old(form)) && reply.Err? ==>
        mentors == old(mentors) && error == "Failed to add mentor" &&
        unchanged(this`form, this`editing, this`isAdding, this`selectedFile, this`previewUrl, this`successMessage)
      ensures searchTerm == old(searchTerm) && selectedStatus == old(selectedStatus)
    {
      if !RequiredFilled(form) {
        error := MissingFields;
        return None;
      }
      sent := Some(MentorParts(form, selectedFile));
      loading := true;
      if reply.Ok? {
        mentors, successMessage := mentors + [reply.data], "Mentor added successfully!";
        ResetForm();
      } else {
        error := "Failed to add mentor";
      }
      loading := false;
    }

    /** `handleEditMentor`, given the reply to the GET of mentor `id`. */
    method HandleEditMentor(id: int, reply: Reply<Mentor>)
      modifies this`loading, this`form, this`previewUrl, this`editing, this`error
      ensures !loading && mentors == old(mentors)
      ensures reply.Ok? ==>
        form == FormOf(reply.data) && editing == Some(id) &&
        previewUrl == (if reply.data.profile_picture_url.Some? && reply.data.profile_picture_url.value != ""
                       then reply.data.profile_picture_url else old(previewUrl)) &&
        error == old(error)
      ensures reply.Err? ==>
        error == "Failed to load mentor details" &&
        unchanged(this`form, this`editing, this`previewUrl)
      ensures unchanged(this`isAdding, this`selectedFile, this`successMessage, this`searchTerm, this`selectedStatus)
    {
      loading := true;
      match reply {
        case Ok(m) =>
          form := FormOf(m);
          if m.profile_picture_url.Some? && m.profile_picture_url.value != "" {
            previewUrl := m.profile_picture_url;
          }
          editing := Some(id);
        case Err(_, _) =>
          error := "Failed to load mentor details";
      }
      loading := false;
    }

    /** `handleUpdateMentor`, given the reply to the PATCH. There is no field
        check, and the loading flag is not touched. */
    method HandleUpdateMentor(reply: Reply<Mentor>) returns (sent: seq<Part>)
      modifies this`mentors, this`successMessage, this`error, this`form, this`selectedFile,
        this`previewUrl, this`isAdding, this`editing
      ensures sent == MentorParts(old(form), old(selectedFile))
      ensures reply.Ok? ==>
        mentors == ReplaceWhere(old(mentors), IsEditing(old(editing)), reply.data) &&
        successMessage == "Mentor updated successfully!" && IsReset()
      ensures reply.Err? ==>
        mentors == old(mentors) && error == "Failed to update mentor" &&
        unchanged(this`form, this`editing, this`isAdding, this`selectedFile, this`previewUrl, this`successMessage)
      ensures unchanged(this`loading, this`searchTerm, this`selectedStatus)
    {
      sent := MentorParts(form, selectedFile);
      match reply {
        case Ok(m) =>
          mentors := ReplaceWhere(mentors, IsEditing(editing), m);
          successMessage := "Mentor updated successfully!";
          ResetForm();
        case Err(_, _) =>
          error := "Failed to update mentor";
      }
    }

    /** `handleDeleteMentor(id)`: `confirmed` is the user's answer to the
        confirmation dialog; nothing happens when it is refused. */
    method HandleDeleteMentor(id: int, confirmed: bool, reply: Reply<()>)
      modifies this`mentors, this`loading, this`successMessage, this`error
      ensures !confirmed ==> unchanged(this)
      ensures confirmed ==> !loading
      ensures confirmed && reply.Ok? ==>
        mentors == Filter(old(mentors), Other(id)) && successMessage == "Mentor deleted successfully!" &&
        error == old(error)
      ensures confirmed && reply.Err? ==>
        mentors == old(mentors) && error == "Failed to delete mentor" && successMessage == old(successMessage)
      ensures unchanged(this`form, this`editing, this`isAdding, this`selectedFile, this`previewUrl,
                        this`searchTerm, this`selectedStatus)
    {
      if !confirmed {
        return;
      }
      loading := true;
      if reply.Ok? {
        var kept := Filter(mentors, Other(id));
        mentors, successMessage := kept, "Mentor deleted successfully!";
      } else {
        error := "Failed to delete mentor";
      }
      loading := false;
    }
  }
}
