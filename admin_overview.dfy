/** The admin dashboard (app/admin/page.tsx): the activity-type and
    priority mappings, the colour of a task's dot, and the five activities
    the page renders. */
module AdminOverview {
  import opened Text
  import opened Collections
  import opened Palette

  datatype Activity = Activity(id: int, activity_type: string, user_name: string, time_ago: string)

  /** What `getActivityTypeProps` returns: a display type and the action text. */
  datatype Props = Props(kind: string, action: string)

  /** The five activity types the server reports, with their display pairs. */
  predicate KnownActivity(activityType: string) {
    activityType in {"user_registration", "workshop_enrollment", "book_download",
                     "scholarship_application", "mentor_application"}
  }

  /** `getActivityTypeProps(activityType)`. */
  function ActivityTypeProps(activityType: string): (r: Props)
    ensures activityType == "user_registration" ==> r == Props("user", "New user registration")
    ensures activityType == "workshop_enrollment" ==> r == Props("workshop", "Workshop enrollment")
    ensures activityType == "book_download" ==> r == Props("library", "Book downloaded")
    ensures activityType == "scholarship_application" ==> r == Props("scholarship", "Scholarship application")
    ensures activityType == "mentor_application" ==> r == Props("mentor", "Mentor connection")
    ensures !KnownActivity(activityType) ==> r == Props("user", activityType)
  {
    match activityType
    case "user_registration" => Props("user", "New user registration")
    case "workshop_enrollment" => Props("workshop", "Workshop enrollment")
    case "book_download" => Props("library", "Book downloaded")
    case "scholarship_application" => Props("scholarship", "Scholarship application")
    case "mentor_application" => Props("mentor", "Mentor connection")
    case _ => Props("user", activityType)
  }

  /** The colour of an activity's dot, chosen by its display type; any type
      but the first four is indigo. */
  function KindTone(kind: string): (r: Tone)
    ensures r == Blue <==> kind == "user"
    ensures r == Orange <==> kind == "workshop"
    ensures r == Purple <==> kind == "library"
    ensures r == Yellow <==> kind == "scholarship"
    ensures r == Indigo <==> kind !in {"user", "workshop", "library", "scholarship"}
  {
    if kind == "user" then Blue
    else if kind == "workshop" then Orange
    else if kind == "library" then Purple
    else if kind == "scholarship" then Yellow
    else Indigo
  }

  /** An activity type the page does not know shows its raw name with a blue
      dot, like a registration. */
  lemma UnknownActivityShownRaw(activityType: string)
    requires !KnownActivity(activityType)
    ensures ActivityTypeProps(activityType).action == activityType
    ensures KindTone(ActivityTypeProps(activityType).kind) == Blue
  {
  }

  /** A mentor application is the only activity whose dot is indigo. */
  lemma IndigoOnlyForMentors(activityType: string)
    ensures KindTone(ActivityTypeProps(activityType).kind) == Indigo <==>
      activityType == "mentor_application"
  {
  }

  /** One row of the activity card. */
  datatype Row = Row(action: string, dot: Tone, user_name: string, time_ago: string)

  function RowOf(a: Activity): Row {
    var p := ActivityTypeProps(a.activity_type);
    Row(p.action, KindTone(p.kind), a.user_name, a.time_ago)
  }

  /** `activities.slice(0, 5).map(...)`: the first five activities, in order,
      each with its mapped action and dot. */
  function ActivityRows(activities: seq<Activity>): (r: seq<Row>)
    ensures |r| <= 5 && |r| <= |activities|
    ensures |activities| >= 5 ==> |r| == 5
    ensures |activities| <= 5 ==> |r| == |activities|
    ensures forall i :: 0 <= i < |r| ==> r[i] == RowOf(activities[i])
  {
    var shown := Take(activities, 5);
    seq(|shown|, i requires 0 <= i < |shown| => RowOf(shown[i]))
  }

  /** The priority level of a task. */
  datatype Priority = High | Medium | Low

  /** `getPriorityColor(priority)`: the lower-cased text is matched against
      the three labels; anything else counts as medium. */
  function PriorityColor(priority: string): (r: Priority)
    ensures r == High <==> Lower(priority) == "high priority"
    ensures r == Low <==> Lower(priority) == "low priority"
    ensures r == Medium <==> Lower(priority) != "high priority" && Lower(priority) != "low priority"
  {
    match Lower(priority)
    case "high priority" => High
    case "medium priority" => Medium
    case "low priority" => Low
    case _ => Medium
  }

  /** The priority mapping ignores case. */
  lemma PriorityIgnoresCase(priority: string)
    ensures PriorityColor(Lower(priority)) == PriorityColor(priority)
  {
    LowerIdempotent(priority);
  }

  /** A task's dot: red for high, yellow for medium, green otherwise. */
  function TaskDot(priority: string): (r: Tone)
    ensures r == Red <==> PriorityColor(priority) == High
    ensures r == Yellow <==> PriorityColor(priority) == Medium
    ensures r == Green <==> PriorityColor(priority) == Low
  {
    match PriorityColor(priority)
    case High => Red
    case Medium => Yellow
    case Low => Green
  }

  /** Since an unrecognised priority counts as medium, a green dot appears
      only for a task whose priority reads "low priority" in some case. */
  lemma GreenOnlyForLow(priority: string)
    ensures TaskDot(priority) == Green <==> Lower(priority) == "low priority"
    ensures Lower(priority) !in {"high priority", "medium priority", "low priority"} ==>
      TaskDot(priority) == Yellow
  {
  }
}
