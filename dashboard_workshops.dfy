/** The student workshop list (app/dashboard/workshops/page.tsx): the query
    the filters turn into, enrolment and its effect on the list, the enrolled
    check, the state and label of the enrol button, and `formatLevel`. */
module DashboardWorkshops {
  import opened Wrappers
  import opened Text
  import opened Collections
  import opened Browser

  datatype Workshop = Workshop(
    id: string, title: string, instructor: string, capacity: int,
    enrolled_students_count: int, level: string, category: string)

  /** The enrolment dashboard; `recent_enrollments` holds the workshop id of
      each recent enrolment and may be missing. */
  datatype EnrollmentData = EnrollmentData(recent_enrollments: Option<seq<int>>)

  const All := "All"
  const LoginRequired := "Please login to enroll in workshops"
  const EnrollFailed := "Failed to enroll in workshop"

  // ---------------------------------------------------------------------
  // Query parameters
  // ---------------------------------------------------------------------

  /** The parameters of the workshop request: the search term when there is
      one, the category and the lower-cased level unless they are "All". */
  function QueryParams(term: string, category: string, level: string): (r: seq<(string, string)>)
    ensures ("search", term) in r <==> term != ""
    ensures ("category", category) in r <==> category != All
    ensures ("level", Lower(level)) in r <==> level != All
    ensures forall i :: 0 <= i < |r| ==> r[i].0 in {"search", "category", "level"}
    ensures |r| <= 3
  {
    (if Truthy(term) then [("search", term)] else [])
    + (if category != All then [("category", category)] else [])
    + (if level != All then [("level", Lower(level))] else [])
  }

  /** The parameters are appended one after the other to the buffer. */
  method BuildParams(term: string, category: string, level: string) returns (params: seq<(string, string)>)
    ensures params == QueryParams(term, category, level)
  {
    params := [];
    if Truthy(term) {
      params := params + [("search", term)];
    }
    if category != All {
      params := params + [("category", category)];
    }
    if level != All {
      params := params + [("level", Lower(level))];
    }
  }

  /** With every filter off the request carries no parameter. */
  lemma NoFilterNoParams()
    ensures QueryParams("", All, All) == []
  {
  }

  // ---------------------------------------------------------------------
  // Token, enrolment check and the enrol button
  // ---------------------------------------------------------------------

  /** `getAuthToken()`: `authToken || access_token`. */
  function AuthToken(store: map<string, string>): (r: Option<string>)
    ensures HasTruthy(store, "authToken") ==> r == Some(store["authToken"])
    ensures !HasTruthy(store, "authToken") ==> r == Lookup(store, AccessKey)
  {
    if HasTruthy(store, "authToken") then Lookup(store, "authToken") else Lookup(store, AccessKey)
  }

  /** `isLoggedIn()`: the token is present and not empty. */
  predicate LoggedIn(store: map<string, string>) {
    var t := AuthToken(store);
    t.Some? && Truthy(t.value)
  }

  /** Logged in exactly when either key holds a non-empty token. */
  lemma LoggedInIff(store: map<string, string>)
    ensures LoggedIn(store) <==> HasTruthy(store, "authToken") || HasTruthy(store, AccessKey)
  {
  }

  /** `isEnrolled(id)`: false without enrolment data, otherwise whether some
      recent enrolment's workshop id, written out, is `id`. */
  function IsEnrolled(data: Option<EnrollmentData>, id: string): (r: bool)
    ensures r <==> (data.Some? && data.value.recent_enrollments.Some? &&
      exists k :: 0 <= k < |data.value.recent_enrollments.value| &&
        IntToString(data.value.recent_enrollments.value[k]) == id)
  {
    match data
    case None => false
    case Some(d) =>
      match d.recent_enrollments
      case None => false
      case Some(ids) => exists k :: 0 <= k < |ids| && IntToString(ids[k]) == id
  }

  /** For a workshop whose id is a number, the check is membership of that
      number: no two numbers are written the same way. */
  lemma IsEnrolledNumber(ids: seq<int>, n: int)
    ensures IsEnrolled(Some(EnrollmentData(Some(ids))), IntToString(n)) <==> n in ids
  {
    if IsEnrolled(Some(EnrollmentData(Some(ids))), IntToString(n)) {
      var k :| 0 <= k < |ids| && IntToString(ids[k]) == IntToString(n);
      ParseIntToString(ids[k]);
      ParseIntToString(n);
    }
    if n in ids {
      var k :| 0 <= k < |ids| && ids[k] == n;
      assert IntToString(ids[k]) == IntToString(n);
    }
  }

  datatype EnrollLabel = LoginToEnroll | Enrolled | Full | Enrolling | EnrollNow

  /** The button's text, in priority order. */
  function EnrollLabelOf(loggedIn: bool, enrolled: bool, w: Workshop, enrolling: Option<string>): (r: EnrollLabel)
    ensures r == LoginToEnroll <==> !loggedIn
    ensures r == Enrolled <==> loggedIn && enrolled
    ensures r == Full <==> loggedIn && !enrolled && w.enrolled_students_count >= w.capacity
    ensures r == Enrolling <==>
      (loggedIn && !enrolled && w.enrolled_students_count < w.capacity && enrolling == Some(w.id))
    ensures r == EnrollNow <==>
      (loggedIn && !enrolled && w.enrolled_students_count < w.capacity && enrolling != Some(w.id))
  {
    if !loggedIn then LoginToEnroll
    else if enrolled then Enrolled
    else if w.enrolled_students_count >= w.capacity then Full
    else if enrolling == Some(w.id) then Enrolling
    else EnrollNow
  }

  function EnrollDisabled(loggedIn: bool, enrolled: bool, w: Workshop, enrolling: Option<string>): (r: bool)
    ensures !r <==> loggedIn && !enrolled && w.enrolled_students_count < w.capacity && enrolling != Some(w.id)
  {
    !loggedIn || enrolled || w.enrolled_students_count >= w.capacity || enrolling == Some(w.id)
  }

  /** The button can be pressed exactly when it reads "Enroll Now". */
  lemma EnabledIffEnrollNow(loggedIn: bool, enrolled: bool, w: Workshop, enrolling: Option<string>)
    ensures !EnrollDisabled(loggedIn, enrolled, w, enrolling) <==>
      EnrollLabelOf(loggedIn, enrolled, w, enrolling) == EnrollNow
  {
  }

  // ---------------------------------------------------------------------
  // formatLevel
  // ---------------------------------------------------------------------

  /** `level.charAt(0).toUpperCase() + level.slice(1).toLowerCase()`. */
  function FormatLevel(level: string): (r: string)
    ensures |r| == |level|
    ensures level != [] ==> r[0] == UpperChar(level[0]) && r[1..] == Lower(level[1..])
  {
    if level == [] then [] else [UpperChar(level[0])] + Lower(level[1..])
  }

  /** Formatting a level twice gives the same text as once. */
  lemma FormatLevelIdempotent(level: string)
    ensures FormatLevel(FormatLevel(level)) == FormatLevel(level)
  {
    if level != [] {
      var r := FormatLevel(level);
      assert UpperChar(UpperChar(level[0])) == UpperChar(level[0]);
      LowerIdempotent(level[1..]);
      assert r[1..] == Lower(level[1..]);
    }
  }

  /** Two levels that differ only in case are shown the same way. */
  lemma FormatLevelIgnoresCase(level: string)
    ensures FormatLevel(Lower(level)) == FormatLevel(level)
  {
    if level != [] {
      var c := level[0];
      assert UpperChar(LowerChar(c)) == UpperChar(c);
      assert Lower(level)[1..] == Lower(level[1..]);
      LowerIdempotent(level[1..]);
    }
  }

  // ---------------------------------------------------------------------
  // Enrolment
  // ---------------------------------------------------------------------

  function HasId(id: string): Workshop -> bool {
    (w: Workshop) => w.id == id
  }

  function AddOne(w: Workshop): Workshop {
    w.(enrolled_students_count := w.enrolled_students_count + 1)
  }

  predicate UniqueIds(workshops: seq<Workshop>) {
    forall i, j :: 0 <= i < |workshops| && 0 <= j < |workshops| && workshops[i].id == workshops[j].id ==> i == j
  }

  /** With distinct ids, enrolling raises the count of that one workshop by
      one and changes nothing else. */
  lemma EnrollCountsOnlyThat(workshops: seq<Workshop>, k: nat)
    requires UniqueIds(workshops) && k < |workshops|
    ensures MapWhere(workshops, HasId(workshops[k].id), AddOne) ==
      workshops[k := workshops[k].(enrolled_students_count := workshops[k].enrolled_students_count + 1)]
  {
    var r := MapWhere(workshops, HasId(workshops[k].id), AddOne);
    var want := workshops[k := AddOne(workshops[k])];
    forall i | 0 <= i < |workshops| ensures r[i] == want[i] {
      if i != k {
        assert !HasId(workshops[k].id)(workshops[i]);
      }
    }
    assert r == want;
  }

  /** The message a failed enrolment shows: the server's `error` text when
      it answered with one, the fixed message otherwise. */
  function EnrollFailure(reply: Reply<()>): (r: string)
    requires reply.Err?
    ensures reply.status.Some? && reply.message != "" ==> r == reply.message
    ensures reply.status.None? || reply.message == "" ==> r == EnrollFailed
  {
    if reply.status.Some? then OrElse(reply.message, EnrollFailed) else EnrollFailed
  }

  class Page {
    var workshops: seq<Workshop>
    var enrollmentData: Option<EnrollmentData>
    var error: Option<string>
    var enrolling: Option<string>

    constructor()
      ensures workshops == [] && enrollmentData.None? && error.None? && enrolling.None?
    {
      workshops, enrollmentData, error, enrolling := [], None, None, None;
    }

    /** `handleEnroll(id)` given the stored credentials, the reply to the
        enrol request and the reply to the dashboard refresh that follows a
        success; returns whether the request was sent. */
    method HandleEnroll(id: string, store: map<string, string>, reply: Reply<()>, dashboard: Reply<EnrollmentData>)
      returns (sent: bool)
      modifies this`workshops, this`enrollmentData, this`error, this`enrolling
      ensures sent <==> LoggedIn(store)
      ensures !sent ==>
        error == Some(LoginRequired) && unchanged(this`workshops, this`enrollmentData, this`enrolling)
      ensures sent ==> enrolling.None?
      ensures sent && reply.Ok? ==>
        workshops == MapWhere(old(workshops), HasId(id), AddOne) && error.None? &&
        enrollmentData == (if dashboard.Ok? then Some(dashboard.data) else old(enrollmentData))
      ensures sent && reply.Err? ==>
        workshops == old(workshops) && error == Some(EnrollFailure(reply)) &&
        enrollmentData == old(enrollmentData)
    {
      var token := AuthToken(store);
      if !(token.Some? && Truthy(token.value)) {
        error := Some(LoginRequired);
        return false;
      }
      sent := true;
      enrolling := Some(id);
      match reply {
        case Ok(_) =>
          workshops := MapWhere(workshops, HasId(id), AddOne);
          if dashboard.Ok? {
            enrollmentData := Some(dashboard.data);
          }
          error := None;
        case Err(_, _) =>
          error := Some(EnrollFailure(reply));
      }
      enrolling := None;
    }
  }
}
