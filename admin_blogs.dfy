/** The admin blog manager (app/admin/blogs/page.tsx): the role check that
    picks the endpoint and the view, the search over title, author and tags,
    and the add (newest first), edit, update, delete and reset handlers. */
module AdminBlogs {
  import opened Wrappers
  import opened Collections
  import opened Search

  const Required := "Title and Author are required"

  datatype Blog = Blog(
    id: int, title: string, excerpt: string, author: string, content: Option<string>,
    read_time: string, medium_url: Option<string>, status: string, tags: string,
    tags_list: seq<string>, views: int)

  /** The add/edit form, sent as the JSON body of the request. */
  datatype Form = Form(
    title: string, excerpt: string, author: string, content: string,
    read_time: string, tags: string, medium_url: string, status: string)

  const DefaultForm := Form("", "", "", "", "", "", "", "draft")

  datatype UserRole = UserRole(role: string, is_admin: bool, is_student: bool)

  /** What the page renders. */
  datatype View = Loading | AccessDenied | Manage

  const PublicRole := UserRole("public", false, false)
  const AdminPosts := "/blog/admin/posts/"
  const PublicPosts := "/blog/posts/"

  // ---------------------------------------------------------------------
  // Role, endpoint and view
  // ---------------------------------------------------------------------

  /** The role after the role request: the server's answer, or a public
      visitor's role when the request fails. */
  function RoleAfterFetch(reply: Reply<UserRole>): (r: UserRole)
    ensures reply.Ok? ==> r == reply.data
    ensures reply.Err? ==> r.role == "public" && !r.is_admin && !r.is_student
  {
    match reply
    case Ok(role) => role
    case Err(_, _) => PublicRole
  }

  /** The list the page fetches: none before the role is known, then the
      admin list exactly for an admin. */
  function PostsEndpoint(userRole: Option<UserRole>): (r: Option<string>)
    ensures r.None? <==> userRole.None?
    ensures r == Some(AdminPosts) <==> userRole.Some? && userRole.value.is_admin
    ensures r == Some(PublicPosts) <==> userRole.Some? && !userRole.value.is_admin
  {
    match userRole
    case None => None
    case Some(role) => if role.is_admin then Some(AdminPosts) else Some(PublicPosts)
  }

  /** The spinner while loading; access denied once the role is known and
      is not an admin's; the manager otherwise. */
  function ViewFor(loading: bool, userRole: Option<UserRole>): (r: View)
    ensures r == Loading <==> loading
    ensures r == AccessDenied <==> !loading && userRole.Some? && !userRole.value.is_admin
  {
    if loading then Loading
    else if userRole.Some? && !userRole.value.is_admin then AccessDenied
    else Manage
  }

  /** A failed role request leaves the visitor on the access-denied view
      once loading ends. */
  lemma FailedRoleDeniesAccess(e: Reply<UserRole>)
    requires e.Err?
    ensures PostsEndpoint(Some(RoleAfterFetch(e))) == Some(PublicPosts)
    ensures ViewFor(false, Some(RoleAfterFetch(e))) == AccessDenied
  {
  }

  // ---------------------------------------------------------------------
  // Search
  // ---------------------------------------------------------------------

  /** A post is listed when the term is in its title, its author or any tag. */
  predicate Listed(b: Blog, term: string) {
    Matches(term, [b.title, b.author] + b.tags_list)
  }

  function FilteredBlogs(blogs: seq<Blog>, term: string): seq<Blog> {
    Filter(blogs, (b: Blog) => Listed(b, term))
  }

  /** The posts shown keep the list's order, each matches the term, and
      every post that matches is shown. */
  lemma FilteredBlogsSpec(blogs: seq<Blog>, term: string)
    ensures var r := FilteredBlogs(blogs, term);
      IsSubsequence(r, blogs) &&
      (forall i :: 0 <= i < |r| ==> Listed(r[i], term)) &&
      (forall i :: 0 <= i < |blogs| && Listed(blogs[i], term) ==> blogs[i] in r)
  {
    FilterIsSubsequence(blogs, (b: Blog) => Listed(b, term));
  }

  /** A post is listed as soon as one of its tags contains the term. */
  lemma TagMatchLists(b: Blog, term: string, k: nat)
    requires k < |b.tags_list| && Contains(b.tags_list[k], term)
    ensures Listed(b, term)
  {
    assert ([b.title, b.author] + b.tags_list)[k + 2] == b.tags_list[k];
  }

  /** The empty term lists every post. */
  lemma EmptySearchListsAll(blogs: seq<Blog>)
    ensures FilteredBlogs(blogs, "") == blogs
  {
    forall i | 0 <= i < |blogs| ensures Listed(blogs[i], "") {
      EmptyTermMatches([blogs[i].title, blogs[i].author] + blogs[i].tags_list);
    }
    FilterAll(blogs, (b: Blog) => Listed(b, ""));
  }

  // ---------------------------------------------------------------------
  // Editing
  // ---------------------------------------------------------------------

  /** The form `handleEditBlog` fills: a missing content or Medium link
      becomes "". */
  function FormOf(b: Blog): (r: Form)
    ensures r.content == b.content.GetOr("") && r.medium_url == b.medium_url.GetOr("")
    ensures r.title == b.title && r.author == b.author && r.status == b.status
  {
    Form(b.title, b.excerpt, b.author, b.content.GetOr(""), b.read_time, b.tags,
         b.medium_url.GetOr(""), b.status)
  }

  predicate UniqueIds(blogs: seq<Blog>) {
    forall i, j :: 0 <= i < |blogs| && 0 <= j < |blogs| && blogs[i].id == blogs[j].id ==> i == j
  }

  function HasId(id: int): Blog -> bool {
    (b: Blog) => b.id == id
  }

  function IsEditing(editing: Option<int>): Blog -> bool {
    (b: Blog) => editing == Some(b.id)
  }

  function Other(id: int): Blog -> bool {
    (b: Blog) => b.id != id
  }

  /** `!editingBlog`: nothing is being edited, or the id is 0. */
  predicate NotEditing(editing: Option<int>) {
    editing.None? || editing.value == 0
  }

  lemma UpdateReplacesOnlyEdited(blogs: seq<Blog>, k: nat, updated: Blog)
    requires UniqueIds(blogs) && k < |blogs|
    ensures ReplaceWhere(blogs, IsEditing(Some(blogs[k].id)), updated) == blogs[k := updated]
  {
    ReplaceOnlyOne(blogs, IsEditing(Some(blogs[k].id)), updated, k);
  }

  lemma DeleteRemovesOnlyThat(blogs: seq<Blog>, k: nat)
    requires UniqueIds(blogs) && k < |blogs|
    ensures Filter(blogs, Other(blogs[k].id)) == blogs[..k] + blogs[k + 1..]
  {
    RemoveOnlyOne(blogs, Other(blogs[k].id), k);
  }

  // ---------------------------------------------------------------------
  // The page
  // ---------------------------------------------------------------------

  class Page {
    var blogs: seq<Blog>
    var userRole: Option<UserRole>
    var error: Option<string>
    var isAdding: bool
    var editing: Option<int>
    var searchTerm: string
    var submitLoading: bool
    var form: Form

    constructor()
      ensures blogs == [] && userRole.None? && searchTerm == "" && !submitLoading
      ensures IsReset()
    {
      blogs, userRole, error, isAdding, editing := [], None, None, false, None;
      searchTerm, submitLoading, form := "", false, DefaultForm;
    }

    /** The state `resetForm` leaves: default form with status "draft", no
        add or edit in progress, no error. */
    predicate IsReset()
      reads this
    {
      form == DefaultForm && !isAdding && editing.None? && error.None?
    }

    function Filtered(): seq<Blog>
      reads this
    {
      FilteredBlogs(blogs, searchTerm)
    }

    method FetchUserRole(reply: Reply<UserRole>)
      modifies this`userRole
      ensures userRole == Some(RoleAfterFetch(reply))
    {
      match reply {
        case Ok(role) => userRole := Some(role);
        case Err(_, _) => userRole := Some(PublicRole);
      }
    }

    method ResetForm()
      modifies this`form, this`isAdding, this`editing, this`error
      ensures IsReset()
    {
      form, isAdding, editing, error := DefaultForm, false, None, None;
    }

    /** `handleAddBlog`, given the reply to the create request; the new post
        goes first. Returns the body sent. */
    method HandleAddBlog(reply: Reply<Blog>) returns (sent: Option<Form>)
      modifies this`blogs, this`form, this`isAdding, this`editing, this`error, this`submitLoading
      ensures old(form.title) == "" || old(form.author) == "" ==>
        sent.None? && error == Some(Required) &&
        unchanged(this`blogs, this`form, this`isAdding, this`editing, this`submitLoading)
      ensures old(form.title) != "" && old(form.author) != "" ==> sent == Some(old(form)) && !submitLoading
      ensures sent.Some? && reply.Ok? ==> blogs == [reply.data] + old(blogs) && IsReset()
      ensures sent.Some? && reply.Err? ==>
        blogs == old(blogs) && error == Some("Failed to create blog post") &&
        unchanged(this`form, this`isAdding, this`editing)
    {
      if form.title == "" || form.author == "" {
        error := Some(Required);
        return None;
      }
      submitLoading := true;
      error := None;
      sent := Some(form);
      match reply {
        case Ok(b) =>
          blogs := [b] + blogs;
          ResetForm();
        case Err(_, _) =>
          error := Some("Failed to create blog post");
      }
      submitLoading := false;
    }

    method HandleEditBlog(id: int)
      modifies this`form, this`editing
      ensures Find(blogs, HasId(id)).None? ==> unchanged(this)
      ensures Find(blogs, HasId(id)).Some? ==>
        form == FormOf(Find(blogs, HasId(id)).value) && editing == Some(id)
    {
      var blog := Find(blogs, HasId(id));
      if blog.Some? {
        form := FormOf(blog.value);
        editing := Some(id);
      }
    }

    /** `handleUpdateBlog`, given the reply to the PUT. */
    method HandleUpdateBlog(reply: Reply<Blog>) returns (sent: Option<Form>)
      modifies this`blogs, this`form, this`isAdding, this`editing, this`error, this`submitLoading
      ensures old(form.title) == "" || old(form.author) == "" || NotEditing(old(editing)) ==>
        sent.None? && error == Some(Required) &&
        unchanged(this`blogs, this`form, this`isAdding, this`editing, this`submitLoading)
      ensures sent.Some? <==> old(form.title) != "" && old(form.author) != "" && !NotEditing(old(editing))
      ensures sent.Some? ==> sent.value == old(form) && !submitLoading
      ensures sent.Some? && reply.Ok? ==>
        blogs == ReplaceWhere(old(blogs), IsEditing(old(editing)), reply.data) && IsReset()
      ensures sent.Some? && reply.Err? ==>
        blogs == old(blogs) && error == Some("Failed to update blog post") &&
        unchanged(this`form, this`isAdding, this`editing)
    {
      if form.title == "" || form.author == "" || NotEditing(editing) {
        error := Some(Required);
        return None;
      }
      submitLoading := true;
      error := None;
      sent := Some(form);
      match reply {
        case Ok(b) =>
          blogs := ReplaceWhere(blogs, IsEditing(editing), b);
          ResetForm();
        case Err(_, _) =>
          error := Some("Failed to update blog post");
      }
      submitLoading := false;
    }

    /** `handleDeleteBlog(id)`: `confirmed` is the answer to the dialog. */
    method HandleDeleteBlog(id: int, confirmed: bool, reply: Reply<()>)
      modifies this`blogs, this`error
      ensures !confirmed ==> unchanged(this)
      ensures confirmed && reply.Ok? ==> blogs == Filter(old(blogs), Other(id)) && error == old(error)
      ensures confirmed && reply.Err? ==> blogs == old(blogs) && error == Some("Failed to delete blog post")
    {
      if !confirmed {
        return;
      }
      match reply {
        case Ok(_) => blogs := Filter(blogs, Other(id));
        case Err(_, _) => error := Some("Failed to delete blog post");
      }
    }
  }
}
