/** The student scholarship list (app/dashboard/scholarships/page.tsx): the
    search, category and level filter, the state and label of the apply
    button, the link it opens, and the badge colours. The days left before
    a deadline are an input. */
module DashboardScholarships {
  import opened Wrappers
  import opened Collections
  import opened Search
  import opened Palette

  datatype Scholarship = Scholarship(
    id: int, title: string, provider: string, category: string, academic_level: string,
    status: string, has_applied: bool, application_status: Option<string>,
    application_url: string, is_full: bool)

  const All := "All"

  // ---------------------------------------------------------------------
  // Filter
  // ---------------------------------------------------------------------

  predicate Listed(s: Scholarship, term: string, category: string, level: string) {
    Matches(term, [s.title, s.provider]) && Selected(category, s.category, All) &&
    Selected(level, s.academic_level, All)
  }

  function FilteredScholarships(all: seq<Scholarship>, term: string, category: string, level: string): seq<Scholarship> {
    Filter(all, (s: Scholarship) => Listed(s, term, category, level))
  }

  /** The list keeps the server's order and holds exactly the listed
      scholarships; with no term and both selects on "All" it is the whole
      list. */
  lemma FilteredScholarshipsSpec(all: seq<Scholarship>, term: string, category: string, level: string)
    ensures var r := FilteredScholarships(all, term, category, level);
      IsSubsequence(r, all) &&
      (forall i :: 0 <= i < |r| ==> Listed(r[i], term, category, level)) &&
      (forall i :: 0 <= i < |all| && Listed(all[i], term, category, level) ==> all[i] in r)
    ensures FilteredScholarships(all, "", All, All) == all
  {
    FilterIsSubsequence(all, (s: Scholarship) => Listed(s, term, category, level));
    forall i | 0 <= i < |all| ensures Listed(all[i], "", All, All) {
      EmptyTermMatches([all[i].title, all[i].provider]);
    }
    FilterAll(all, (s: Scholarship) => Listed(s, "", All, All));
  }

  // ---------------------------------------------------------------------
  // The apply button
  // ---------------------------------------------------------------------

  datatype ApplyLabel = Applied | FullLabel | Expired | Apply

  /** The button's text: an application already made wins over a full
      scholarship, which wins over a passed deadline. */
  function ApplyLabelOf(s: Scholarship, daysLeft: int): (r: ApplyLabel)
    ensures r == Applied <==> s.has_applied
    ensures r == FullLabel <==> !s.has_applied && s.is_full
    ensures r == Expired <==> !s.has_applied && !s.is_full && daysLeft <= 0
    ensures r == Apply <==> !s.has_applied && !s.is_full && daysLeft > 0
  {
    if s.has_applied then Applied
    else if s.is_full then FullLabel
    else if daysLeft <= 0 then Expired
    else Apply
  }

  /** The button is disabled after applying, when the scholarship is full,
      and once the deadline has passed. */
  function ApplyDisabled(s: Scholarship, daysLeft: int): (r: bool)
    ensures !r <==> !s.has_applied && !s.is_full && daysLeft > 0
  {
    s.has_applied || s.is_full || daysLeft <= 0
  }

  /** The button can be pressed exactly when it reads "Apply". */
  lemma EnabledIffApply(s: Scholarship, daysLeft: int)
    ensures !ApplyDisabled(s, daysLeft) <==> ApplyLabelOf(s, daysLeft) == Apply
  {
  }

  /** `handleApply`: the page it opens, "#" when the scholarship has no link. */
  function ApplyTarget(s: Scholarship): (r: string)
    ensures s.application_url != "" ==> r == s.application_url
    ensures s.application_url == "" ==> r == "#"
  {
    OrElse(s.application_url, "#")
  }

  /** The details view shows "Apply Now" only when the server allows an
      application and none was made yet. */
  function ShowApplyNow(can_apply: bool, has_applied: bool): bool {
    can_apply && !has_applied
  }

  /** The details and the card agree: "Apply Now" is never offered for a
      scholarship whose card reads "Applied", and when it is offered for one
      that is open and not full, the card's button can be pressed too. */
  lemma ApplyNowAgreesWithCard(s: Scholarship, can_apply: bool, daysLeft: int)
    ensures ShowApplyNow(can_apply, s.has_applied) ==> ApplyLabelOf(s, daysLeft) != Applied
    ensures ApplyLabelOf(s, daysLeft) == Applied ==> !ShowApplyNow(can_apply, s.has_applied)
    ensures ShowApplyNow(can_apply, s.has_applied) && !s.is_full && daysLeft > 0 ==>
      !ApplyDisabled(s, daysLeft) && ApplyLabelOf(s, daysLeft) == Apply
  {
  }

  // ---------------------------------------------------------------------
  // Badge colours
  // ---------------------------------------------------------------------

  /** `getStatusColor`. */
  function StatusTone(status: string): (r: Tone)
    ensures r == Green <==> status == "active"
    ensures r == Blue <==> status == "upcoming"
    ensures r == Red <==> status == "expired"
    ensures r == Gray <==> status !in {"active", "upcoming", "expired"}
  {
    match status
    case "active" => Green
    case "upcoming" => Blue
    case "expired" => Red
    case _ => Gray
  }

  /** `getApplicationStatusColor`: `null` and unknown statuses are gray. */
  function ApplicationTone(status: Option<string>): (r: Tone)
    ensures r == Yellow <==> status == Some("pending")
    ensures r == Green <==> status == Some("approved")
    ensures r == Red <==> status == Some("rejected")
    ensures r == Gray <==> status !in {Some("pending"), Some("approved"), Some("rejected")}
  {
    match status
    case Some("pending") => Yellow
    case Some("approved") => Green
    case Some("rejected") => Red
    case _ => Gray
  }
}
