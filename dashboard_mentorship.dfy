/** The student mentor directory (app/dashboard/mentorship/page.tsx): the
    expertise options, the search and expertise filter, the connect button's
    bookkeeping and the token and headers helpers. */
module DashboardMentorship {
  import opened Wrappers
  import opened Text
  import opened Collections
  import opened Search
  import opened Browser

  datatype Mentor = Mentor(
    id: int, full_name: string, job_title: string, company: string, bio: string,
    expertise_areas_list: seq<string>)

  const All := "All"

  // ---------------------------------------------------------------------
  // Expertise options
  // ---------------------------------------------------------------------

  /** `mentors.map(m => m.expertise_areas_list)`. */
  function AreaLists(mentors: seq<Mentor>): (r: seq<seq<string>>)
    ensures |r| == |mentors|
    ensures forall i :: 0 <= i < |mentors| ==> r[i] == mentors[i].expertise_areas_list
  {
    if mentors == [] then [] else [mentors[0].expertise_areas_list] + AreaLists(mentors[1..])
  }

  /** `["All", ...new Set(mentors.flatMap(m => m.expertise_areas_list))]`. */
  function ExpertiseAreas(mentors: seq<Mentor>): seq<string> {
    [All] + Distinct(Flatten(AreaLists(mentors)))
  }

  /** The options are "All" and then every area some mentor lists, each
      once, in the order the areas first appear. */
  lemma ExpertiseAreasSpec(mentors: seq<Mentor>)
    ensures var r := ExpertiseAreas(mentors);
      r[0] == All && NoDuplicates(r[1..]) &&
      (forall a :: a in r[1..] <==> exists i :: 0 <= i < |mentors| && a in mentors[i].expertise_areas_list) &&
      (forall i, j :: 1 <= i < j < |r| ==>
        FirstIndex(Flatten(AreaLists(mentors)), r[i]) < FirstIndex(Flatten(AreaLists(mentors)), r[j]))
  {
    var lists := AreaLists(mentors);
    var flat := Flatten(lists);
    var d := Distinct(flat);
    var r := ExpertiseAreas(mentors);
    assert r == [All] + d;
    assert r[1..] == d;
    DistinctFlatten(lists);
    forall a ensures a in d <==> exists i :: 0 <= i < |mentors| && a in mentors[i].expertise_areas_list {
      if a in d {
        var i :| 0 <= i < |lists| && a in lists[i];
        assert a in mentors[i].expertise_areas_list;
      }
      if exists i :: 0 <= i < |mentors| && a in mentors[i].expertise_areas_list {
        var i :| 0 <= i < |mentors| && a in mentors[i].expertise_areas_list;
        assert a in lists[i];
      }
    }
    forall i, j | 1 <= i < j < |r| ensures FirstIndex(flat, r[i]) < FirstIndex(flat, r[j]) {
      assert r[i] == d[i - 1] && r[j] == d[j - 1];
    }
  }

  // ---------------------------------------------------------------------
  // Filter
  // ---------------------------------------------------------------------

  /** The texts the search looks in: name, job title, company, each area, bio. */
  function SearchFields(m: Mentor): seq<string> {
    [m.full_name, m.job_title, m.company] + m.expertise_areas_list + [m.bio]
  }

  /** The expertise filter: off for "All"; otherwise some area contains the
      selection as it is written, case included. */
  predicate ExpertiseSelected(m: Mentor, selected: string) {
    selected == All || exists k :: 0 <= k < |m.expertise_areas_list| && IsSubstring(selected, m.expertise_areas_list[k])
  }

  predicate Listed(m: Mentor, term: string, selected: string) {
    Matches(term, SearchFields(m)) && ExpertiseSelected(m, selected)
  }

  function FilteredMentors(mentors: seq<Mentor>, term: string, selected: string): seq<Mentor> {
    Filter(mentors, (m: Mentor) => Listed(m, term, selected))
  }

  /** Choosing one of a mentor's own areas keeps that mentor for any term
      its fields match. */
  lemma OwnAreaSelects(m: Mentor, term: string, k: nat)
    requires k < |m.expertise_areas_list| && Matches(term, SearchFields(m))
    ensures Listed(m, term, m.expertise_areas_list[k])
  {
    SubstringReflexive(m.expertise_areas_list[k]);
  }

  /** A term found in one of the areas finds the mentor. */
  lemma AreaMatchFinds(m: Mentor, term: string, k: nat)
    requires k < |m.expertise_areas_list| && Contains(m.expertise_areas_list[k], term)
    ensures Matches(term, SearchFields(m))
  {
    assert SearchFields(m)[k + 3] == m.expertise_areas_list[k];
  }

  /** The shown mentors keep the directory's order, and with no term and
      "All" every mentor is shown. */
  lemma FilteredMentorsSpec(mentors: seq<Mentor>, term: string, selected: string)
    ensures IsSubsequence(FilteredMentors(mentors, term, selected), mentors)
    ensures FilteredMentors(mentors, "", All) == mentors
  {
    FilterIsSubsequence(mentors, (m: Mentor) => Listed(m, term, selected));
    forall i | 0 <= i < |mentors| ensures Listed(mentors[i], "", All) {
      EmptyTermMatches(SearchFields(mentors[i]));
    }
    FilterAll(mentors, (m: Mentor) => Listed(m, "", All));
  }

  // ---------------------------------------------------------------------
  // Token and headers
  // ---------------------------------------------------------------------

  /** `getAuthToken()`: with no window, `null`; otherwise `authToken ||
      access_token || token`, so the last one is returned even when it is
      missing or empty. `store` is `None` when there is no window. */
  function AuthToken(store: Option<map<string, string>>): (r: Option<string>)
    ensures store.None? ==> r.None?
    ensures store.Some? && HasTruthy(store.value, "authToken") ==> r == Some(store.value["authToken"])
    ensures store.Some? && !HasTruthy(store.value, "authToken") && HasTruthy(store.value, AccessKey) ==>
      r == Some(store.value[AccessKey])
    ensures store.Some? && !HasTruthy(store.value, "authToken") && !HasTruthy(store.value, AccessKey) ==>
      r == Lookup(store.value, "token")
  {
    match store
    case None => None
    case Some(s) =>
      if HasTruthy(s, "authToken") then Lookup(s, "authToken")
      else if HasTruthy(s, AccessKey) then Lookup(s, AccessKey)
      else Lookup(s, "token")
  }

  /** A token is found whenever one of the three keys holds a non-empty
      value, and what is found is always one of the stored values. */
  lemma AuthTokenFound(s: map<string, string>)
    ensures HasTruthy(s, "authToken") || HasTruthy(s, AccessKey) || HasTruthy(s, "token") ==>
      AuthToken(Some(s)).Some? && Truthy(AuthToken(Some(s)).value)
    ensures AuthToken(Some(s)) in {Lookup(s, "authToken"), Lookup(s, AccessKey), Lookup(s, "token")}
  {
  }

  /** `getAuthHeaders()`: always the JSON content type, and a bearer
      authorisation only for a non-empty token. */
  function AuthHeaders(store: Option<map<string, string>>): (r: map<string, string>)
    ensures "Content-Type" in r && r["Content-Type"] == "application/json"
    ensures "Authorization" in r <==> AuthToken(store).Some? && Truthy(AuthToken(store).value)
    ensures "Authorization" in r ==> r["Authorization"] == "Bearer " + AuthToken(store).value
    ensures r.Keys <= {"Content-Type", "Authorization"}
  {
    var headers := map["Content-Type" := "application/json"];
    var token := AuthToken(store);
    if token.Some? && Truthy(token.value) then headers["Authorization" := "Bearer " + token.value]
    else headers
  }

  // ---------------------------------------------------------------------
  // The page
  // ---------------------------------------------------------------------

  class Page {
    var mentors: seq<Mentor>
    var searchTerm: string
    var selectedExpertise: string
    var connectedMentors: seq<int>

    constructor()
      ensures mentors == [] && searchTerm == "" && selectedExpertise == All && connectedMentors == []
    {
      mentors, searchTerm, selectedExpertise, connectedMentors := [], "", All, [];
    }

    /** `isConnected(id)`. */
    predicate IsConnected(id: int)
      reads this
    {
      id in connectedMentors
    }

    /** `handleConnect(id)`: the id is appended; afterwards it is connected
        and every mentor connected before stays connected. */
    method HandleConnect(id: int)
      modifies this`connectedMentors
      ensures connectedMentors == old(connectedMentors) + [id]
      ensures IsConnected(id)
      ensures forall x :: x in old(connectedMentors) ==> IsConnected(x)
    {
      connectedMentors := connectedMentors + [id];
    }

    /** The Connect button in the profile: disabled, and labelled
        "Connected", once the mentor is connected. */
    function ConnectLabel(id: int): (r: string)
      reads this
      ensures r == "Connected" <==> IsConnected(id)
      ensures r == "Connect" <==> !IsConnected(id)
    {
      if IsConnected(id) then "Connected" else "Connect"
    }
  }
}
