/** The student blog list (app/dashboard/blogs/page.tsx): the tag list, the
    search and tag filter, the view count a read adds, and the read button. */
module DashboardBlogs {
  import opened Wrappers
  import opened Collections
  import opened Search

  datatype Blog = Blog(
    id: int, title: string, excerpt: string, author: string, medium_url: Option<string>,
    tags_list: seq<string>, views: int)

  // ---------------------------------------------------------------------
  // Tags and filter
  // ---------------------------------------------------------------------

  function TagLists(blogs: seq<Blog>): (r: seq<seq<string>>)
    ensures |r| == |blogs|
    ensures forall i :: 0 <= i < |blogs| ==> r[i] == blogs[i].tags_list
  {
    if blogs == [] then [] else [blogs[0].tags_list] + TagLists(blogs[1..])
  }

  /** `allTags`: every tag of any post, once each, in first-use order. */
  function AllTags(blogs: seq<Blog>): seq<string> {
    Distinct(Flatten(TagLists(blogs)))
  }

  lemma AllTagsSpec(blogs: seq<Blog>)
    ensures NoDuplicates(AllTags(blogs))
    ensures forall t :: t in AllTags(blogs) <==> exists i :: 0 <= i < |blogs| && t in blogs[i].tags_list
  {
    DistinctFlatten(TagLists(blogs));
  }

  /** The tag filter: off when no tag (or an empty one) is selected,
      otherwise the post carries exactly that tag. */
  predicate TagSelected(b: Blog, selectedTag: Option<string>) {
    selectedTag.None? || selectedTag.value == "" || selectedTag.value in b.tags_list
  }

  predicate Listed(b: Blog, term: string, selectedTag: Option<string>) {
    Matches(term, [b.title, b.excerpt, b.author]) && TagSelected(b, selectedTag)
  }

  function FilteredBlogs(blogs: seq<Blog>, term: string, selectedTag: Option<string>): seq<Blog> {
    Filter(blogs, (b: Blog) => Listed(b, term, selectedTag))
  }

  /** The posts shown keep the list's order; a post is shown iff the term is
      in its title, excerpt or author and it carries the selected tag (when a
      non-empty one is selected); with no term and no tag every post is shown. */
  lemma FilteredBlogsSpec(blogs: seq<Blog>, term: string, selectedTag: Option<string>)
    ensures IsSubsequence(FilteredBlogs(blogs, term, selectedTag), blogs)
    ensures forall b :: b in FilteredBlogs(blogs, term, selectedTag) <==>
      b in blogs && Matches(term, [b.title, b.excerpt, b.author]) &&
      (selectedTag.None? || selectedTag.value == "" || selectedTag.value in b.tags_list)
    ensures selectedTag.Some? && selectedTag.value != "" ==>
      forall b :: b in FilteredBlogs(blogs, term, selectedTag) ==> selectedTag.value in b.tags_list
    ensures FilteredBlogs(blogs, "", None) == blogs
  {
    var keep := (b: Blog) => Listed(b, term, selectedTag);
    var r := FilteredBlogs(blogs, term, selectedTag);
    FilterIsSubsequence(blogs, keep);
    forall b | b in r ensures b in blogs && Listed(b, term, selectedTag) {
      var k :| 0 <= k < |r| && r[k] == b;
    }
    forall b | b in blogs && Listed(b, term, selectedTag) ensures b in r {
      var k :| 0 <= k < |blogs| && blogs[k] == b;
    }
    forall i | 0 <= i < |blogs| ensures Listed(blogs[i], "", None) {
      EmptyTermMatches([blogs[i].title, blogs[i].excerpt, blogs[i].author]);
    }
    FilterAll(blogs, (b: Blog) => Listed(b, "", None));
  }

  // ---------------------------------------------------------------------
  // Reading a post
  // ---------------------------------------------------------------------

  function HasId(id: int): Blog -> bool {
    (b: Blog) => b.id == id
  }

  function AddView(b: Blog): Blog {
    b.(views := b.views + 1)
  }

  predicate UniqueIds(blogs: seq<Blog>) {
    forall i, j :: 0 <= i < |blogs| && 0 <= j < |blogs| && blogs[i].id == blogs[j].id ==> i == j
  }

  /** With distinct ids, a read raises the views of that one post by one. */
  lemma ReadCountsOnlyThat(blogs: seq<Blog>, k: nat)
    requires UniqueIds(blogs) && k < |blogs|
    ensures MapWhere(blogs, HasId(blogs[k].id), AddView) == blogs[k := blogs[k].(views := blogs[k].views + 1)]
  {
    var r := MapWhere(blogs, HasId(blogs[k].id), AddView);
    var want := blogs[k := AddView(blogs[k])];
    forall i | 0 <= i < |blogs| ensures r[i] == want[i] {
      if i != k {
        assert !HasId(blogs[k].id)(blogs[i]);
      }
    }
    assert r == want;
  }

  /** The link a read opens: the post's Medium link when it has one. */
  function MediumLink(b: Blog): (r: Option<string>)
    ensures r.Some? <==> b.medium_url.Some? && b.medium_url.value != ""
    ensures r.Some? ==> r == b.medium_url
  {
    if b.medium_url.Some? && Truthy(b.medium_url.value) then b.medium_url else None
  }

  /** The read button: disabled, and labelled "Coming Soon", for a post with
      no Medium link. */
  function ReadDisabled(b: Blog): (r: bool)
    ensures r <==> MediumLink(b).None?
  {
    !(b.medium_url.Some? && Truthy(b.medium_url.value))
  }

  function ReadLabel(b: Blog): (r: string)
    ensures r == "Coming Soon" <==> ReadDisabled(b)
    ensures r == "Read on Medium" <==> !ReadDisabled(b)
  {
    if b.medium_url.Some? && Truthy(b.medium_url.value) then "Read on Medium" else "Coming Soon"
  }

  class Page {
    var blogs: seq<Blog>
    var searchTerm: string
    var selectedTag: Option<string>

    constructor()
      ensures blogs == [] && searchTerm == "" && selectedTag.None?
    {
      blogs, searchTerm, selectedTag := [], "", None;
    }

    /** `handleReadBlog(blog)` given the reply to the view increment; returns
        the link opened, which does not depend on the reply. */
    method HandleReadBlog(blog: Blog, reply: Reply<()>) returns (link: Option<string>)
      modifies this`blogs
      ensures link == MediumLink(blog)
      ensures reply.Ok? ==> blogs == MapWhere(old(blogs), HasId(blog.id), AddView)
      ensures reply.Err? ==> blogs == old(blogs)
    {
      if reply.Ok? {
        blogs := MapWhere(blogs, HasId(blog.id), AddView);
      }
      link := MediumLink(blog);
    }
  }
}
