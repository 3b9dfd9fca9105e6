/** The student video library (app/dashboard/youtube/page.tsx): the category
    buttons, the filtering effect, the fetch that resets the shown list, the
    play handler and the thumbnail fallback. */
module DashboardYoutube {
  import opened Wrappers
  import opened Collections
  import opened Search

  datatype Video = Video(
    id: int, title: string, description: string, youtube_video_id: string,
    category: string, thumbnail_url: Option<string>)

  const All := "All"
  const FetchFailed := "Failed to fetch videos. Please try again."

  // ---------------------------------------------------------------------
  // Categories
  // ---------------------------------------------------------------------

  function CategoryList(videos: seq<Video>): (r: seq<string>)
    ensures |r| == |videos|
    ensures forall i :: 0 <= i < |videos| ==> r[i] == videos[i].category
  {
    if videos == [] then [] else [videos[0].category] + CategoryList(videos[1..])
  }

  /** `["All", ...new Set(videos.map(v => v.category).filter(Boolean))]`. */
  function Categories(videos: seq<Video>): seq<string> {
    [All] + Distinct(Filter(CategoryList(videos), Truthy))
  }

  /** "All" and then every non-empty category of some video, once each. */
  lemma CategoriesSpec(videos: seq<Video>)
    ensures var r := Categories(videos);
      r[0] == All && NoDuplicates(r[1..]) &&
      forall c :: c in r[1..] <==> c != "" && exists i :: 0 <= i < |videos| && videos[i].category == c
  {
    var names := CategoryList(videos);
    var kept := Filter(names, Truthy);
    var d := Distinct(kept);
    assert Categories(videos)[1..] == d;
    forall c ensures c in d <==> c != "" && exists i :: 0 <= i < |videos| && videos[i].category == c {
      if c in d {
        var k :| 0 <= k < |d| && d[k] == c;
        var j :| 0 <= j < |kept| && kept[j] == c;
        var i :| 0 <= i < |names| && names[i] == c;
      }
      if c != "" && exists i :: 0 <= i < |videos| && videos[i].category == c {
        var i :| 0 <= i < |videos| && videos[i].category == c;
        assert names[i] == c && Truthy(names[i]);
        var j :| 0 <= j < |kept| && kept[j] == c;
      }
    }
  }

  /** The category buttons are drawn only when there is more than the
      "All" entry, that is when some video has a category. */
  function ShowCategoryButtons(categories: seq<string>): (r: bool)
    ensures r <==> |categories| > 1
  {
    |categories| > 1
  }

  lemma ButtonsIffSomeCategory(videos: seq<Video>)
    ensures ShowCategoryButtons(Categories(videos)) <==>
      exists i :: 0 <= i < |videos| && videos[i].category != ""
  {
    CategoriesSpec(videos);
    var r := Categories(videos);
    if exists i :: 0 <= i < |videos| && videos[i].category != "" {
      var i :| 0 <= i < |videos| && videos[i].category != "";
      assert videos[i].category in r[1..];
    }
    if |r| > 1 {
      assert r[1] in r[1..];
    }
  }

  /** A video filed under "All" makes the button appear twice: the set only
      removes repeats among the categories, not the leading "All". */
  lemma AllCanRepeat(videos: seq<Video>, i: nat)
    requires i < |videos| && videos[i].category == All
    ensures multiset(Categories(videos))[All] >= 2
  {
    var r := Categories(videos);
    CategoriesSpec(videos);
    assert All in r[1..] by {
      assert All != "" && videos[i].category == All;
    }
    HeadRepeated(r);
  }

  /** A first element met again later occurs at least twice. */
  lemma HeadRepeated<T>(s: seq<T>)
    requires |s| > 0 && s[0] in s[1..]
    ensures multiset(s)[s[0]] >= 2
  {
    assert s == [s[0]] + s[1..];
    assert multiset(s) == multiset{s[0]} + multiset(s[1..]);
  }

  // ---------------------------------------------------------------------
  // The filtering effect
  // ---------------------------------------------------------------------

  predicate SearchHit(v: Video, term: string) {
    Matches(term, [v.title, v.description])
  }

  /** A video stays visible when the term is empty or found in its title or
      description, and the category is "All" or exactly its own. */
  predicate Visible(v: Video, term: string, category: string) {
    (term == "" || SearchHit(v, term)) && (category == All || v.category == category)
  }

  function VisibleVideos(videos: seq<Video>, term: string, category: string): seq<Video> {
    Filter(videos, (v: Video) => Visible(v, term, category))
  }

  function BySearch(term: string): Video -> bool {
    (v: Video) => SearchHit(v, term)
  }

  function ByCategory(category: string): Video -> bool {
    (v: Video) => v.category == category
  }

  /** The effect narrows a local copy of the list once per active filter. */
  method FilterEffect(videos: seq<Video>, term: string, category: string) returns (filtered: seq<Video>)
    ensures filtered == VisibleVideos(videos, term, category)
  {
    filtered := videos;
    if Truthy(term) {
      filtered := Filter(filtered, BySearch(term));
    }
    if category != All {
      filtered := Filter(filtered, ByCategory(category));
    }
    ghost var visible := (v: Video) => Visible(v, term, category);
    if Truthy(term) && category != All {
      FilterFilter(videos, BySearch(term), ByCategory(category));
      FilterSame(videos, Both(BySearch(term), ByCategory(category)), visible);
    } else if Truthy(term) {
      FilterSame(videos, BySearch(term), visible);
    } else if category != All {
      FilterSame(videos, ByCategory(category), visible);
    } else {
      FilterAll(videos, visible);
    }
  }

  /** Thumbnails: the stored one, or YouTube's large still of the video. */
  function Thumbnail(v: Video): (r: string)
    ensures v.thumbnail_url.Some? && v.thumbnail_url.value != "" ==> r == v.thumbnail_url.value
    ensures v.thumbnail_url.None? || v.thumbnail_url.value == "" ==>
      r == "https://img.youtube.com/vi/" + v.youtube_video_id + "/maxresdefault.jpg"
  {
    OrElse(v.thumbnail_url.GetOr(""), "https://img.youtube.com/vi/" + v.youtube_video_id + "/maxresdefault.jpg")
  }

  class Page {
    var videos: seq<Video>
    var filteredVideos: seq<Video>
    var categories: seq<string>
    var searchTerm: string
    var selectedCategory: string
    var selectedVideo: Option<Video>
    var error: Option<string>

    constructor()
      ensures videos == [] && filteredVideos == [] && categories == [All]
      ensures searchTerm == "" && selectedCategory == All && selectedVideo.None? && error.None?
    {
      videos, filteredVideos, categories := [], [], [All];
      searchTerm, selectedCategory, selectedVideo, error := "", All, None, None;
    }

    /** `fetchVideos`: on success the list, the shown list and the categories
        all come from the new videos; on failure only the error changes. */
    method FetchVideos(reply: Reply<seq<Video>>)
      modifies this`videos, this`filteredVideos, this`categories, this`error
      ensures reply.Ok? ==>
        videos == reply.data && filteredVideos == reply.data &&
        categories == Categories(reply.data) && error.None?
      ensures reply.Err? ==>
        error == Some(FetchFailed) && unchanged(this`videos, this`filteredVideos, this`categories)
    {
      error := None;
      match reply {
        case Ok(data) =>
          videos := data;
          filteredVideos := data;
          categories := Categories(data);
        case Err(_, _) =>
          error := Some(FetchFailed);
      }
    }

    /** The effect that runs when the list, the term or the category changes. */
    method ApplyFilters()
      modifies this`filteredVideos
      ensures filteredVideos == VisibleVideos(videos, searchTerm, selectedCategory)
    {
      filteredVideos := FilterEffect(videos, searchTerm, selectedCategory);
    }

    /** `handleVideoPlay(video)`: the video opens whether or not the view is
        counted; after a counted view the list is fetched again. */
    method HandleVideoPlay(video: Video, reply: Reply<()>, refetched: Reply<seq<Video>>)
      modifies this`selectedVideo, this`videos, this`filteredVideos, this`categories, this`error
      ensures selectedVideo == Some(video)
      ensures reply.Err? ==> unchanged(this`videos, this`filteredVideos, this`categories, this`error)
      ensures reply.Ok? && refetched.Ok? ==>
        videos == refetched.data && filteredVideos == refetched.data &&
        categories == Categories(refetched.data) && error.None?
      ensures reply.Ok? && refetched.Err? ==>
        error == Some(FetchFailed) && unchanged(this`videos, this`filteredVideos, this`categories)
    {
      selectedVideo := Some(video);
      if reply.Ok? {
        FetchVideos(refetched);
      }
    }
  }

  /** Right after a fetch, the shown list is the whole list, which is also
      what the filters give with no term and "All". */
  lemma FreshListAllVisible(videos: seq<Video>)
    ensures VisibleVideos(videos, "", All) == videos
  {
    FilterAll(videos, (v: Video) => Visible(v, "", All));
  }
}
