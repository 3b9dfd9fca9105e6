/** The admin scholarship manager (app/admin/scholarships/page.tsx): the
    search and status filter, the request payload with its deadline and
    applicant-limit encodings, the edit form that decodes them, the
    eligibility list, the badge and deadline-tag rules, and the handlers,
    which re-fetch the list instead of editing it. */
module AdminScholarships {
  import opened Wrappers
  import opened Text
  import opened Collections
  import opened Search
  import opened Palette

  datatype Scholarship = Scholarship(
    id: int, title: string, description: Option<string>, provider: string, amount: string,
    deadline: string, eligibility_criteria: Option<string>,
    eligibility_criteria_list: Option<seq<string>>, category: string, academic_level: string,
    country: string, application_url: Option<string>, requirements: Option<string>,
    benefits: Option<string>, status: string, max_applicants: Option<int>)

  datatype Form = Form(
    title: string, description: string, provider: string, amount: string, deadline: string,
    eligibility_criteria: string, category: string, academic_level: string, country: string,
    application_url: string, requirements: string, benefits: string, status: string,
    max_applicants: string)

  const DefaultForm := Form("", "", "", "", "", "", "", "all", "", "", "", "", "upcoming", "")

  /** The JSON body of a create or update request, without the amount. */
  datatype Payload = Payload(
    title: string, provider: string, description: string, deadline: string, category: string,
    max_applicants: Option<int>, academic_level: string, country: string,
    application_url: string, eligibility_criteria: string, requirements: string,
    benefits: string, status: string)

  const EndOfDay := "T23:59:59Z"

  // ---------------------------------------------------------------------
  // Search and status
  // ---------------------------------------------------------------------

  /** The search fields: title, provider, and the description when one is
      present and non-empty. */
  function SearchFields(s: Scholarship): seq<string> {
    [s.title, s.provider]
    + (if s.description.Some? && Truthy(s.description.value) then [s.description.value] else [])
  }

  predicate Listed(s: Scholarship, term: string, status: string) {
    Matches(term, SearchFields(s)) && Selected(status, s.status, "All")
  }

  function FilteredScholarships(all: seq<Scholarship>, term: string, status: string): seq<Scholarship> {
    Filter(all, (s: Scholarship) => Listed(s, term, status))
  }

  /** The list shown keeps the server's order and holds exactly the listed
      scholarships; with no term and "All" it is the whole list. */
  lemma FilteredScholarshipsSpec(all: seq<Scholarship>, term: string, status: string)
    ensures var r := FilteredScholarships(all, term, status);
      IsSubsequence(r, all) &&
      (forall i :: 0 <= i < |r| ==> Listed(r[i], term, status)) &&
      (forall i :: 0 <= i < |all| && Listed(all[i], term, status) ==> all[i] in r)
    ensures FilteredScholarships(all, "", "All") == all
  {
    FilterIsSubsequence(all, (s: Scholarship) => Listed(s, term, status));
    forall i | 0 <= i < |all| ensures Listed(all[i], "", "All") {
      EmptyTermMatches(SearchFields(all[i]));
    }
    FilterAll(all, (s: Scholarship) => Listed(s, "", "All"));
  }

  function StatusTone(status: string): (r: Tone)
    ensures r == Green <==> status == "active"
    ensures r == Blue <==> status == "upcoming"
    ensures r == Red <==> status == "expired"
    ensures r == Gray <==> status !in {"active", "upcoming", "expired"}
  {
    match status
    case "active" => Green
    case "upcoming" => Blue
    case "closed" => Gray
    case "expired" => Red
    case _ => Gray
  }

  // ---------------------------------------------------------------------
  // Payload and edit form
  // ---------------------------------------------------------------------

  /** The deadline sent: the date with the end-of-day time appended. */
  function SentDeadline(date: string): (r: string)
    ensures |r| == |date| + |EndOfDay| && r[..|date|] == date
  {
    date + EndOfDay
  }

  /** The date the edit form shows: the text before the first 'T'. */
  function EditedDeadline(deadline: string): (r: string)
    ensures 'T' !in r
  {
    var pieces := Split(deadline, 'T');
    SplitJoin(deadline, 'T');
    pieces[0]
  }

  /** A date without a 'T' survives the round trip through the server's
      deadline and the edit form. */
  lemma DeadlineRoundTrip(date: string)
    requires 'T' !in date
    ensures EditedDeadline(SentDeadline(date)) == date
  {
    assert SentDeadline(date) == date + ['T'] + "23:59:59Z";
    SplitFirstPiece(date, 'T', "23:59:59Z");
  }

  /** `max_applicants ? parseInt(max_applicants) : null`; a text `parseInt`
      cannot read gives `NaN`, which the JSON body carries as `null` too. */
  function MaxApplicants(text: string): (r: Option<int>)
    ensures text == "" ==> r.None?
    ensures text != "" ==> r == ParseInt(text)
  {
    if Truthy(text) then ParseInt(text) else None
  }

  /** `max_applicants?.toString() || ""`, as the edit form shows it. */
  function MaxApplicantsText(max: Option<int>): (r: string)
    ensures max.None? <==> r == ""
  {
    match max
    case None => ""
    case Some(n) => NatToStringDigits(if n < 0 then -n else n); IntToString(n)
  }

  /** The applicant limit survives the round trip through the edit form. */
  lemma MaxApplicantsRoundTrip(max: Option<int>)
    ensures MaxApplicants(MaxApplicantsText(max)) == max
  {
    if max.Some? {
      ParseIntToString(max.value);
    }
  }

  function PayloadOf(f: Form): (r: Payload)
    ensures r.deadline == SentDeadline(f.deadline)
    ensures r.max_applicants == MaxApplicants(f.max_applicants)
    ensures r.title == f.title && r.provider == f.provider && r.status == f.status
  {
    Payload(f.title, f.provider, f.description, SentDeadline(f.deadline), f.category,
            MaxApplicants(f.max_applicants), f.academic_level, f.country, f.application_url,
            f.eligibility_criteria, f.requirements, f.benefits, f.status)
  }

  /** The form `handleEditScholarship` fills from the fetched scholarship:
      missing texts become "", the deadline is cut at 'T'. */
  function FormOf(s: Scholarship): (r: Form)
    ensures r.deadline == EditedDeadline(s.deadline)
    ensures r.max_applicants == MaxApplicantsText(s.max_applicants)
    ensures r.description == s.description.GetOr("") && r.benefits == s.benefits.GetOr("")
  {
    Form(s.title, s.description.GetOr(""), s.provider, s.amount, EditedDeadline(s.deadline),
         s.eligibility_criteria.GetOr(""), s.category, s.academic_level, s.country,
         s.application_url.GetOr(""), s.requirements.GetOr(""), s.benefits.GetOr(""), s.status,
         MaxApplicantsText(s.max_applicants))
  }

  /** Saving a scholarship unchanged from the edit form sends back its limit
      and, when its deadline is a date followed by a time, the same date at
      end of day. */
  lemma EditThenSave(s: Scholarship, date: string, time: string)
    requires 'T' !in date && s.deadline == date + "T" + time
    ensures PayloadOf(FormOf(s)).deadline == date + EndOfDay
    ensures PayloadOf(FormOf(s)).max_applicants == s.max_applicants
  {
    SplitFirstPiece(date, 'T', time);
    MaxApplicantsRoundTrip(s.max_applicants);
  }

  // ---------------------------------------------------------------------
  // Eligibility, badges and the deadline tag
  // ---------------------------------------------------------------------

  function TrimAll(items: seq<string>): (r: seq<string>)
    ensures |r| == |items|
    ensures forall i :: 0 <= i < |items| ==> r[i] == Trim(items[i])
  {
    if items == [] then [] else [Trim(items[0])] + TrimAll(items[1..])
  }

  /** `getEligibilityDisplay`: the server's list when it is non-empty, else
      the comma-separated text split and trimmed, else nothing. */
  function EligibilityDisplay(s: Scholarship): (r: seq<string>)
    ensures s.eligibility_criteria_list.Some? && s.eligibility_criteria_list.value != [] ==>
      r == s.eligibility_criteria_list.value
    ensures (s.eligibility_criteria_list.None? || s.eligibility_criteria_list.value == []) ==>
      (r == [] <==> s.eligibility_criteria.None? || s.eligibility_criteria.value == "")
  {
    if s.eligibility_criteria_list.Some? && |s.eligibility_criteria_list.value| > 0 then
      s.eligibility_criteria_list.value
    else if s.eligibility_criteria.Some? && Truthy(s.eligibility_criteria.value) then
      TrimAll(Split(s.eligibility_criteria.value, ','))
    else []
  }

  /** The criteria from the text form hold no comma and no surrounding
      spaces; there is one per comma plus one. */
  lemma EligibilityFromText(s: Scholarship)
    requires s.eligibility_criteria_list.None? || s.eligibility_criteria_list.value == []
    requires s.eligibility_criteria.Some? && s.eligibility_criteria.value != ""
    ensures var r := EligibilityDisplay(s);
      |r| == Count(s.eligibility_criteria.value, ',') + 1 &&
      forall k :: 0 <= k < |r| ==> ',' !in r[k] && r[k] == Trim(r[k])
  {
    var c := s.eligibility_criteria.value;
    SplitJoin(c, ',');
    var r := EligibilityDisplay(s);
    forall k | 0 <= k < |r| ensures ',' !in r[k] && r[k] == Trim(r[k]) {
      var piece := Split(c, ',')[k];
      TrimKeepsOut(piece, ',');
      TrimIdempotent(piece);
    }
  }

  /** A criterion padded with an ideographic space (U+3000) is trimmed like
      one padded with an ASCII space. */
  lemma EligibilityTrimsIdeographicSpace()
    ensures TrimAll(Split("a,\U{3000}b", ',')) == ["a", "b"]
  {
    var pieces := Split("a,\U{3000}b", ',');
    SplitTwoPieces("a", ',', "\U{3000}b");
    assert "a" + "," + "\U{3000}b" == "a,\U{3000}b";
    assert pieces == ["a", "\U{3000}b"];
    assert TrimStart("\U{3000}b") == "b";
    assert TrimEnd("b") == "b";
    assert TrimEnd(TrimStart("a")) == "a";
  }

  /** The criteria badges: at most the first two, and "+N more" with the
      number left over only when there are more than two. */
  function Badges(criteria: seq<string>): (r: (seq<string>, Option<nat>))
    ensures r.0 == criteria[..if |criteria| < 2 then |criteria| else 2]
    ensures r.1.Some? <==> |criteria| > 2
    ensures r.1.Some? ==> |r.0| + r.1.value == |criteria|
  {
    (Take(criteria, 2), if |criteria| > 2 then Some(|criteria| - 2) else None)
  }

  /** The deadline tag's colour for the days left. */
  function DeadlineTone(daysLeft: int): (r: Tone)
    ensures r == Red <==> daysLeft <= 7
    ensures r == Yellow <==> 7 < daysLeft <= 30
    ensures r == Green <==> daysLeft > 30
  {
    if daysLeft <= 7 then Red else if daysLeft <= 30 then Yellow else Green
  }

  /** The deadline tag's text: "N days left", or "Expired" once no day is left. */
  function DeadlineText(daysLeft: int): (r: string)
    ensures r == "Expired" <==> daysLeft <= 0
    ensures daysLeft > 0 ==> r == IntToString(daysLeft) + " days left"
  {
    if daysLeft > 0 then IntToString(daysLeft) + " days left" else "Expired"
  }

  /** An expired scholarship is always tagged red. */
  lemma ExpiredIsRed(daysLeft: int)
    requires DeadlineText(daysLeft) == "Expired"
    ensures DeadlineTone(daysLeft) == Red
  {
  }

  /** `!editingScholarship`: nothing is being edited, or the id is 0. */
  predicate NotEditing(editing: Option<int>) {
    editing.None? || editing.value == 0
  }

  // ---------------------------------------------------------------------
  // The page
  // ---------------------------------------------------------------------

  class Page {
    var scholarships: seq<Scholarship>
    var isAdding: bool
    var editing: Option<int>
    var searchTerm: string
    var selectedStatus: string
    var submitting: bool
    var form: Form

    constructor()
      ensures scholarships == [] && searchTerm == "" && selectedStatus == "All" && !submitting
      ensures IsReset()
    {
      scholarships, isAdding, editing := [], false, None;
      searchTerm, selectedStatus, submitting, form := "", "All", false, DefaultForm;
    }

    /** The state `resetForm` leaves: academic level "all", status
        "upcoming", every other field empty, not adding, not editing. */
    predicate IsReset()
      reads this
    {
      form == DefaultForm && !isAdding && editing.None?
    }

    function Filtered(): seq<Scholarship>
      reads this
    {
      FilteredScholarships(scholarships, searchTerm, selectedStatus)
    }

    method ResetForm()
      modifies this`form, this`isAdding, this`editing
      ensures IsReset()
    {
      form, isAdding, editing := DefaultForm, false, None;
    }

    /** `fetchScholarships`: a failed fetch keeps the list. */
    method FetchScholarships(reply: Reply<seq<Scholarship>>)
      modifies this`scholarships
      ensures scholarships == (if reply.Ok? then reply.data else old(scholarships))
    {
      if reply.Ok? {
        scholarships := reply.data;
      }
    }

    /** `handleAddScholarship`: requires a title, a provider and a deadline;
        the list changes only by the re-fetch after a successful POST. */
    method HandleAddScholarship(created: Reply<()>, refetched: Reply<seq<Scholarship>>)
      returns (sent: Option<Payload>)
      modifies this`scholarships, this`form, this`isAdding, this`editing, this`submitting
      ensures sent.Some? <==> old(form.title) != "" && old(form.provider) != "" && old(form.deadline) != ""
      ensures sent.None? ==> unchanged(this)
      ensures sent.Some? ==> sent.value == PayloadOf(old(form)) && !submitting
      ensures sent.Some? && created.Ok? ==>
        scholarships == (if refetched.Ok? then refetched.data else old(scholarships)) && IsReset()
      ensures created.Err? ==> unchanged(this`scholarships, this`form, this`isAdding, this`editing)
    {
      if form.title == "" || form.provider == "" || form.deadline == "" {
        return None;
      }
      submitting := true;
      sent := Some(PayloadOf(form));
      if created.Ok? {
        FetchScholarships(refetched);
        ResetForm();
      }
      submitting := false;
    }

    method HandleEditScholarship(id: int, reply: Reply<Scholarship>)
      modifies this`form, this`editing
      ensures reply.Ok? ==> form == FormOf(reply.data) && editing == Some(id)
      ensures reply.Err? ==> unchanged(this)
    {
      if reply.Ok? {
        form := FormOf(reply.data);
        editing := Some(id);
      }
    }

    /** `handleUpdateScholarship`: requires a title, a provider and an edited
        scholarship; the deadline is not checked. */
    method HandleUpdateScholarship(updated: Reply<()>, refetched: Reply<seq<Scholarship>>)
      returns (sent: Option<Payload>)
      modifies this`scholarships, this`form, this`isAdding, this`editing, this`submitting
      ensures sent.Some? <==> old(form.title) != "" && old(form.provider) != "" && !NotEditing(old(editing))
      ensures sent.None? ==> unchanged(this)
      ensures sent.Some? ==> sent.value == PayloadOf(old(form)) && !submitting
      ensures sent.Some? && updated.Ok? ==>
        scholarships == (if refetched.Ok? then refetched.data else old(scholarships)) && IsReset()
      ensures updated.Err? ==> unchanged(this`scholarships, this`form, this`isAdding, this`editing)
    {
      if form.title == "" || form.provider == "" || NotEditing(editing) {
        return None;
      }
      submitting := true;
      sent := Some(PayloadOf(form));
      if updated.Ok? {
        FetchScholarships(refetched);
        ResetForm();
      }
      submitting := false;
    }

    method HandleDeleteScholarship(id: int, confirmed: bool, deleted: Reply<()>,
                                   refetched: Reply<seq<Scholarship>>)
      modifies this`scholarships
      ensures confirmed && deleted.Ok? && refetched.Ok? ==> scholarships == refetched.data
      ensures !confirmed || deleted.Err? || refetched.Err? ==> scholarships == old(scholarships)
    {
      if confirmed && deleted.Ok? {
        FetchScholarships(refetched);
      }
    }
  }
}
