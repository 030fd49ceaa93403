/** The post-list provider: the list on screen with its `total`, the loading
    flag, the search options and the URL they are mirrored in. Every action is
    one atomic step given the server's answer. */
module PostsContext {
  import opened Wrappers
  import opened JsNumber
  import opened Entities
  import opened Backend
  import opened UrlParams
  import opened PostSearch
  import ListOps
  import PostsApi

  /** The raw answer of the endpoint a strategy goes to. */
  function Endpoint(server: PostEndpoints, s: Strategy): Result<Posts>
  {
    match s
    case ByTag(tag) => server.postsByTag(tag)
    case BySearch(query) => server.searchPosts(query)
    case Paginated(limit, skip) => server.fetchPosts(limit, skip)
  }

  /** Posts held without an author. */
  function BareAll(posts: seq<Post>): (r: seq<PostWithAuthor>)
    ensures |r| == |posts|
    ensures forall i :: 0 <= i < |posts| ==> r[i] == Bare(posts[i])
  {
    seq(|posts|, i requires 0 <= i < |posts| => Bare(posts[i]))
  }

  /** `fetchPosts(options)`: the answer of the endpoint SelectStrategy picks. The
      tag and the paginated list are joined with the user roster, so both
      requests must succeed; the search answer is taken as it is, without
      authors. The page's `total` is passed through. */
  function FetchPosts(server: PostEndpoints, request: Patch, current: SearchOptions): (r: Result<PostsWithAuthor>)
    ensures var s := SelectStrategy(request, current); var page := Endpoint(server, s);
      && (r.Ok? <==> page.Ok? && (s.BySearch? || server.fetchUsers.Ok?))
      && (page.Err? ==> r == Err(page.error))
      && (r.Ok? ==> r.value.total == page.value.total)
      && (r.Ok? ==> PostsApi.Unjoined(r.value.posts) == page.value.posts)
      && (r.Ok? && s.BySearch? ==> forall i :: 0 <= i < |r.value.posts| ==> r.value.posts[i].author.None?)
  {
    match SelectStrategy(request, current)
    case ByTag(tag) => PostsApi.GetPostsByTag(server, tag)
    case BySearch(query) =>
      var page := server.searchPosts(query);
      if page.Err? then Err(page.error)
      else
        var held := BareAll(page.value.posts);
        assert PostsApi.Unjoined(held) == page.value.posts;
        Ok(PostsWithAuthor(held, page.value.total))
    case Paginated(limit, skip) => PostsApi.GetPosts(server, limit, skip)
  }

  /** The patch `getPostsByTag(tag)` passes to `fetchPosts`. */
  function TagRequest(tag: string): Patch
  {
    NoFields.(tag := Some(tag))
  }

  /** The patch `searchPosts()` passes to `fetchPosts`. */
  function SearchRequest(query: string): Patch
  {
    NoFields.(searchQuery := Some(query))
  }

  /** Selecting the "all" tag fetches the same page as fetching without options. */
  lemma AllTagFetchesPage(server: PostEndpoints, current: SearchOptions)
    ensures FetchPosts(server, TagRequest("all"), current) == FetchPosts(server, NoFields, current)
    ensures FetchPosts(server, NoFields, current) == PostsApi.GetPosts(server, current.limit, current.skip)
  {
  }

  /** Searching with an empty query fetches the current page. */
  lemma EmptySearchFetchesPage(server: PostEndpoints, current: SearchOptions)
    ensures FetchPosts(server, SearchRequest(""), current) == PostsApi.GetPosts(server, current.limit, current.skip)
  {
  }

  class PostsStore {
    var posts: seq<PostWithAuthor>
    var total: int
    var loading: bool
    var searchOptions: SearchOptions
    /** The query string of the current location. */
    var location: Query

    /** The provider's initial state: an empty list, and the search options
        parsed from the location it is mounted at. */
    constructor(location: Query)
      ensures posts == [] && total == 0 && !loading
      ensures searchOptions == ParseSearchOptions(location) && this.location == location
    {
      posts := [];
      total := 0;
      loading := false;
      searchOptions := ParseSearchOptions(location);
      this.location := location;
    }

    /** `setPostSearchOptions(options)`: a shallow merge into the options. */
    method SetSearchOptions(patch: Patch)
      modifies this
      ensures searchOptions == Merge(old(searchOptions), patch)
      ensures posts == old(posts) && total == old(total) && loading == old(loading)
      ensures location == old(location)
    {
      searchOptions := Merge(searchOptions, patch);
    }

    /** `updateURL()`: navigate to the query string of the current options. */
    method UpdateURL()
      modifies this
      ensures location == QueryOf(searchOptions)
      ensures posts == old(posts) && total == old(total) && loading == old(loading)
      ensures searchOptions == old(searchOptions)
    {
      location := BuildParams(searchOptions);
    }

    /** The body the three list fetches share: set `loading`, fetch, replace the
        list and `total` on success, log the error and keep both on failure,
        and clear `loading` whatever happened. */
    method Load(server: PostEndpoints, request: Patch) returns (outcome: Outcome)
      modifies this
      ensures var r := FetchPosts(server, request, old(searchOptions));
        && (r.Ok? ==> posts == r.value.posts && total == r.value.total && outcome == Applied)
        && (r.Err? ==> posts == old(posts) && total == old(total) && outcome == Logged(Http(r.error)))
      ensures !loading
      ensures searchOptions == old(searchOptions) && location == old(location)
    {
      loading := true;
      var r := FetchPosts(server, request, searchOptions);
      if r.Ok? {
        posts := r.value.posts;
        total := r.value.total;
        outcome := Applied;
      } else {
        outcome := Logged(Http(r.error));
      }
      loading := false;
    }

    /** `_getPosts()`: the current page of the unfiltered list. */
    method GetPosts(server: PostEndpoints) returns (outcome: Outcome)
      modifies this
      ensures var r := PostsApi.GetPosts(server, old(searchOptions.limit), old(searchOptions.skip));
        && (r.Ok? ==> posts == r.value.posts && total == r.value.total && outcome == Applied)
        && (r.Err? ==> posts == old(posts) && total == old(total) && outcome == Logged(Http(r.error)))
      ensures !loading
      ensures searchOptions == old(searchOptions) && location == old(location)
    {
      outcome := Load(server, NoFields);
    }

    /** `_getPostsByTag(tag)`: the tag's posts, or the current page for "" and "all". */
    method GetPostsByTag(server: PostEndpoints, tag: string) returns (outcome: Outcome)
      modifies this
      ensures var r := FetchPosts(server, TagRequest(tag), old(searchOptions));
        && (r.Ok? ==> posts == r.value.posts && total == r.value.total && outcome == Applied)
        && (r.Err? ==> posts == old(posts) && total == old(total) && outcome == Logged(Http(r.error)))
      ensures tag != "" && tag != "all" ==> FetchPosts(server, TagRequest(tag), old(searchOptions))
                                            == PostsApi.GetPostsByTag(server, tag)
      ensures !loading
      ensures searchOptions == old(searchOptions) && location == old(location)
    {
      outcome := Load(server, TagRequest(tag));
    }

    /** `_searchPosts()`: the search endpoint's answer for the current query, or
        the current page when the query is empty. */
    method SearchPosts(server: PostEndpoints) returns (outcome: Outcome)
      modifies this
      ensures var r := FetchPosts(server, SearchRequest(old(searchOptions.searchQuery)), old(searchOptions));
        && (r.Ok? ==> posts == r.value.posts && total == r.value.total && outcome == Applied)
        && (r.Err? ==> posts == old(posts) && total == old(total) && outcome == Logged(Http(r.error)))
      ensures !loading
      ensures searchOptions == old(searchOptions) && location == old(location)
    {
      outcome := Load(server, SearchRequest(searchOptions.searchQuery));
    }

    /** `_addPost(newPost)`: the created post goes in front of the list. A
        rejected request escapes the action and changes nothing. */
    method AddPost(server: PostEndpoints, newPost: NewPost) returns (outcome: Outcome)
      modifies this
      ensures var r := server.createPost(newPost);
        && (r.Ok? ==> posts == [Bare(r.value)] + old(posts) && outcome == Applied)
        && (r.Err? ==> posts == old(posts) && outcome == Thrown(Http(r.error)))
      ensures total == old(total) && loading == old(loading)
      ensures searchOptions == old(searchOptions) && location == old(location)
    {
      var r := server.createPost(newPost);
      if r.Err? {
        return Thrown(Http(r.error));
      }
      posts := [Bare(r.value)] + posts;
      outcome := Applied;
    }

    /** `_updatePost(post)`: the server's version of the post replaces every
        entry with its id. */
    method UpdatePost(server: PostEndpoints, post: PostWithAuthor) returns (outcome: Outcome)
      modifies this
      ensures var r := server.updatePost(post);
        && (r.Ok? ==> posts == ListOps.ReplaceById(old(posts), PostId, Bare(r.value)) && outcome == Applied)
        && (r.Err? ==> posts == old(posts) && outcome == Thrown(Http(r.error)))
      ensures total == old(total) && loading == old(loading)
      ensures searchOptions == old(searchOptions) && location == old(location)
    {
      var r := server.updatePost(post);
      if r.Err? {
        return Thrown(Http(r.error));
      }
      posts := ListOps.ReplaceById(posts, PostId, Bare(r.value));
      outcome := Applied;
    }

    /** `_deletePost(postId)`: every entry with that id leaves the list. */
    method DeletePost(server: PostEndpoints, postId: int) returns (outcome: Outcome)
      modifies this
      ensures var r := server.deletePost(postId);
        && (r.Ok? ==> posts == ListOps.RemoveById(old(posts), PostId, postId) && outcome == Applied)
        && (r.Err? ==> posts == old(posts) && outcome == Thrown(Http(r.error)))
      ensures total == old(total) && loading == old(loading)
      ensures searchOptions == old(searchOptions) && location == old(location)
    {
      var r := server.deletePost(postId);
      if r.Err? {
        return Thrown(Http(r.error));
      }
      posts := ListOps.RemoveById(posts, PostId, postId);
      outcome := Applied;
    }

    /** What the provider does once the options have changed: fetch by tag when
        a tag is set, the current page otherwise, then write the URL. */
    method OnSearchOptionsChanged(server: PostEndpoints) returns (outcome: Outcome)
      modifies this
      ensures var request := if old(searchOptions.tag) != "" then TagRequest(old(searchOptions.tag)) else NoFields;
        var r := FetchPosts(server, request, old(searchOptions));
        && (r.Ok? ==> posts == r.value.posts && total == r.value.total && outcome == Applied)
        && (r.Err? ==> posts == old(posts) && total == old(total) && outcome == Logged(Http(r.error)))
      ensures location == QueryOf(searchOptions) && searchOptions == old(searchOptions)
      ensures !loading
    {
      if searchOptions.tag != "" {
        outcome := GetPostsByTag(server, searchOptions.tag);
      } else {
        outcome := GetPosts(server);
      }
      UpdateURL();
    }

    /** What the provider does once the location has changed: read the options
        back from the new query string (under the name `updateURL` writes the
        free-text query with). */
    method OnLocationChanged(location: Query)
      modifies this
      ensures this.location == location
      ensures searchOptions == ParseSearchOptions(location)
      ensures posts == old(posts) && total == old(total) && loading == old(loading)
    {
      this.location := location;
      var o := ParseSearchOptions(location);
      SetSearchOptions(Patch(Some(o.skip), Some(o.limit), Some(o.searchQuery), Some(o.sortBy),
                             Some(o.sortOrder), Some(o.tag)));
    }
  }

  // ---------------------------------------------------------------------------
  // The list reducers

  /** Deleting a post just added, whose id no listed post has, restores the list. */
  lemma AddThenDelete(created: Post, posts: seq<PostWithAuthor>)
    requires forall i :: 0 <= i < |posts| ==> PostId(posts[i]) != created.id
    ensures ListOps.RemoveById([Bare(created)] + posts, PostId, created.id) == posts
  {
    ListOps.RemoveByIdAppend([Bare(created)], posts, PostId, created.id);
    ListOps.RemoveByIdAbsent(posts, PostId, created.id);
  }
}
