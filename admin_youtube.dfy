/** The admin video manager (app/admin/youtube/page.tsx): add (newest first),
    edit, update with a payload that leaves out the video id, delete, and the
    reset and cancel handlers. */
module AdminYoutube {
  import opened Wrappers
  import opened Collections

  const Required := "Title and YouTube Video ID are required."
  const AddFailed := "Failed to add video. Please try again."
  const UpdateFailed := "Failed to update video. Please try again."
  const DeleteFailed := "Failed to delete video. Please try again."

  datatype Video = Video(
    id: int, title: string, description: string, youtube_video_id: string,
    category: string, duration: string, views: string, thumbnail_url: Option<string>)

  datatype Form = Form(
    title: string, description: string, youtube_video_id: string, category: string,
    duration: string, views: string, thumbnail_url: string)

  const DefaultForm := Form("", "", "", "", "", "0", "")

  /** The body of the update request. */
  datatype UpdateData = UpdateData(
    title: string, description: string, category: string, duration: string,
    views: string, thumbnail_url: string)

  /** The update body: every form field but the video id. */
  function UpdatePayload(f: Form): (r: UpdateData)
    ensures r.title == f.title && r.description == f.description && r.category == f.category
    ensures r.duration == f.duration && r.views == f.views && r.thumbnail_url == f.thumbnail_url
  {
    UpdateData(f.title, f.description, f.category, f.duration, f.views, f.thumbnail_url)
  }

  /** Changing the video id in the form never changes what an update sends. */
  lemma UpdateIgnoresVideoId(f: Form, id: string)
    ensures UpdatePayload(f.(youtube_video_id := id)) == UpdatePayload(f)
  {
  }

  /** The form `handleEditVideo` fills: a missing thumbnail becomes "". */
  function FormOf(v: Video): (r: Form)
    ensures r.thumbnail_url == v.thumbnail_url.GetOr("")
    ensures r.title == v.title && r.youtube_video_id == v.youtube_video_id && r.views == v.views
  {
    Form(v.title, v.description, v.youtube_video_id, v.category, v.duration, v.views,
         v.thumbnail_url.GetOr(""))
  }

  /** Opening a video and saving it unchanged sends back its own fields. */
  lemma EditThenSaveSendsSameVideo(v: Video)
    ensures UpdatePayload(FormOf(v)) ==
      UpdateData(v.title, v.description, v.category, v.duration, v.views, v.thumbnail_url.GetOr(""))
  {
  }

  /** The message shown for a failed request: the server's `detail` when it
      sent one, the page's fallback otherwise. */
  function FailureText(detail: string, fallback: string): (r: string)
    ensures detail != "" ==> r == detail
    ensures detail == "" ==> r == fallback
  {
    OrElse(detail, fallback)
  }

  predicate UniqueIds(videos: seq<Video>) {
    forall i, j :: 0 <= i < |videos| && 0 <= j < |videos| && videos[i].id == videos[j].id ==> i == j
  }

  function HasId(id: int): Video -> bool {
    (v: Video) => v.id == id
  }

  function IsEditing(editing: Option<int>): Video -> bool {
    (v: Video) => editing == Some(v.id)
  }

  function Other(id: int): Video -> bool {
    (v: Video) => v.id != id
  }

  /** `!editingVideo`: nothing is being edited, or the id is 0. */
  predicate NotEditing(editing: Option<int>) {
    editing.None? || editing.value == 0
  }

  lemma UpdateReplacesOnlyEdited(videos: seq<Video>, k: nat, updated: Video)
    requires UniqueIds(videos) && k < |videos|
    ensures ReplaceWhere(videos, IsEditing(Some(videos[k].id)), updated) == videos[k := updated]
  {
    ReplaceOnlyOne(videos, IsEditing(Some(videos[k].id)), updated, k);
  }

  lemma DeleteRemovesOnlyThat(videos: seq<Video>, k: nat)
    requires UniqueIds(videos) && k < |videos|
    ensures Filter(videos, Other(videos[k].id)) == videos[..k] + videos[k + 1..]
  {
    RemoveOnlyOne(videos, Other(videos[k].id), k);
  }

  class Page {
    var videos: seq<Video>
    var isAdding: bool
    var editing: Option<int>
    var isSubmitting: bool
    var error: Option<string>
    var form: Form

    constructor()
      ensures videos == [] && !isAdding && editing.None? && !isSubmitting
      ensures error.None? && form == DefaultForm
    {
      videos, isAdding, editing, isSubmitting := [], false, None, false;
      error, form := None, DefaultForm;
    }

    /** `resetForm`: the default form (views "0") and no error; the add and
        edit flags are left as they are. */
    method ResetForm()
      modifies this`form, this`error
      ensures form == DefaultForm && error.None?
    {
      form, error := DefaultForm, None;
    }

    /** `cancelForm`: closes the add and edit forms and resets the form. */
    method CancelForm()
      modifies this`form, this`error, this`isAdding, this`editing
      ensures form == DefaultForm && error.None? && !isAdding && editing.None?
    {
      isAdding := false;
      editing := None;
      ResetForm();
    }

    /** `handleAddVideo`, given the reply to the POST; returns the body sent. */
    method HandleAddVideo(reply: Reply<Video>) returns (sent: Option<Form>)
      modifies this`videos, this`form, this`error, this`isAdding, this`isSubmitting
      ensures old(form.title) == "" || old(form.youtube_video_id) == "" ==>
        sent.None? && error == Some(Required) &&
        unchanged(this`videos, this`form, this`isAdding, this`isSubmitting)
      ensures old(form.title) != "" && old(form.youtube_video_id) != "" ==>
        sent == Some(old(form)) && !isSubmitting
      ensures sent.Some? && reply.Ok? ==>
        videos == [reply.data] + old(videos) && form == DefaultForm && error.None? && !isAdding
      ensures sent.Some? && reply.Err? ==>
        videos == old(videos) && error == Some(FailureText(reply.message, AddFailed)) &&
        unchanged(this`form, this`isAdding)
    {
      if form.title == "" || form.youtube_video_id == "" {
        error := Some(Required);
        return None;
      }
      isSubmitting := true;
      error := None;
      sent := Some(form);
      match reply {
        case Ok(v) =>
          videos := [v] + videos;
          ResetForm();
          isAdding := false;
        case Err(_, detail) =>
          error := Some(FailureText(detail, AddFailed));
      }
      isSubmitting := false;
    }

    /** `handleEditVideo(id)`: no-op for an unknown id. */
    method HandleEditVideo(id: int)
      modifies this`form, this`editing
      ensures Find(videos, HasId(id)).None? ==> unchanged(this)
      ensures Find(videos, HasId(id)).Some? ==>
        form == FormOf(Find(videos, HasId(id)).value) && editing == Some(id)
    {
      var video := Find(videos, HasId(id));
      if video.Some? {
        form := FormOf(video.value);
        editing := Some(id);
      }
    }

    /** `handleUpdateVideo`, given the reply to the PUT; returns the body sent. */
    method HandleUpdateVideo(reply: Reply<Video>) returns (sent: Option<UpdateData>)
      modifies this`videos, this`form, this`error, this`editing, this`isSubmitting
      ensures sent.Some? <==>
        old(form.title) != "" && old(form.youtube_video_id) != "" && !NotEditing(old(editing))
      ensures sent.None? ==>
        error == Some(Required) && unchanged(this`videos, this`form, this`editing, this`isSubmitting)
      ensures sent.Some? ==> sent.value == UpdatePayload(old(form)) && !isSubmitting
      ensures sent.Some? && reply.Ok? ==>
        videos == ReplaceWhere(old(videos), IsEditing(old(editing)), reply.data) &&
        form == DefaultForm && error.None? && editing.None?
      ensures sent.Some? && reply.Err? ==>
        videos == old(videos) && error == Some(FailureText(reply.message, UpdateFailed)) &&
        unchanged(this`form, this`editing)
    {
      if form.title == "" || form.youtube_video_id == "" || NotEditing(editing) {
        error := Some(Required);
        return None;
      }
      isSubmitting := true;
      error := None;
      sent := Some(UpdatePayload(form));
      match reply {
        case Ok(v) =>
          videos := ReplaceWhere(videos, IsEditing(editing), v);
          ResetForm();
          editing := None;
        case Err(_, detail) =>
          error := Some(FailureText(detail, UpdateFailed));
      }
      isSubmitting := false;
    }

    /** `handleDeleteVideo(id)`: `confirmed` is the answer to the dialog. */
    method HandleDeleteVideo(id: int, confirmed: bool, reply: Reply<()>)
      modifies this`videos, this`error
      ensures !confirmed ==> unchanged(this)
      ensures confirmed && reply.Ok? ==> videos == Filter(old(videos), Other(id)) && error == old(error)
      ensures confirmed && reply.Err? ==> videos == old(videos) && error == Some(DeleteFailed)
    {
      if !confirmed {
        return;
      }
      match reply {
        case Ok(_) => videos := Filter(videos, Other(id));
        case Err(_, _) => error := Some(DeleteFailed);
      }
    }
  }
}
