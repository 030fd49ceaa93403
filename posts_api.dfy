/** Fetching a page of posts together with the user roster and attaching to
    every post its author: a left join on `post.userId == user.id`. */
module PostsApi {
  import opened Wrappers
  import opened JsNumber
  import opened Entities
  import opened Backend
  import ListOps

  /** `users.find(user => user.id === userId)`: the first user of the roster with
      that id; absent when there is none, which is not an error. */
  function FindAuthor(users: seq<BaseUser>, userId: int): (r: Option<BaseUser>)
    ensures r.None? <==> forall i :: 0 <= i < |users| ==> users[i].id != userId
    ensures r.Some? ==> r.value.id == userId
    ensures r.Some? ==> exists i :: 0 <= i < |users| && users[i] == r.value
                                    && forall j :: 0 <= j < i ==> users[j].id != userId
  {
    ListOps.FindById(users, (u: BaseUser) => u.id, userId)
  }

  /** `posts.map(post => ({ ...post, author: FindAuthor(users, post.userId) }))`. */
  function WithAuthors(posts: seq<Post>, users: seq<BaseUser>): (r: seq<PostWithAuthor>)
    ensures |r| == |posts|
    ensures forall i :: 0 <= i < |posts| ==>
              r[i].post == posts[i] && r[i].author == FindAuthor(users, posts[i].userId)
  {
    if posts == [] then []
    else [PostWithAuthor(posts[0], FindAuthor(users, posts[0].userId))] + WithAuthors(posts[1..], users)
  }

  /** The posts of a list with their authors dropped. */
  function Unjoined(xs: seq<PostWithAuthor>): seq<Post>
  {
    seq(|xs|, i requires 0 <= i < |xs| => xs[i].post)
  }

  /** Both requests run together (`Promise.all`): the join settles with the
      page's posts decorated and its `total` passed through, or fails when
      either request fails (the posts request's error is the one reported when
      both fail). */
  function JoinAuthors(page: Result<Posts>, users: Result<seq<BaseUser>>): (r: Result<PostsWithAuthor>)
    ensures r.Ok? <==> page.Ok? && users.Ok?
    ensures r.Ok? ==> r.value.total == page.value.total
    ensures r.Ok? ==> Unjoined(r.value.posts) == page.value.posts
    ensures r.Ok? ==> forall i :: 0 <= i < |r.value.posts| ==>
              r.value.posts[i].author == FindAuthor(users.value, page.value.posts[i].userId)
  {
    if page.Err? then Err(page.error)
    else if users.Err? then Err(users.error)
    else
      var joined := WithAuthors(page.value.posts, users.value);
      assert Unjoined(joined) == page.value.posts;
      Ok(PostsWithAuthor(joined, page.value.total))
  }

  /** `getPosts(limit, skip)`: one page of the unfiltered list, joined. */
  function GetPosts(server: PostEndpoints, limit: Num, skip: Num): (r: Result<PostsWithAuthor>)
    ensures r.Ok? <==> server.fetchPosts(limit, skip).Ok? && server.fetchUsers.Ok?
    ensures r.Ok? ==> r.value.total == server.fetchPosts(limit, skip).value.total
    ensures r.Ok? ==> Unjoined(r.value.posts) == server.fetchPosts(limit, skip).value.posts
    ensures r.Ok? ==> forall i :: 0 <= i < |r.value.posts| ==>
              r.value.posts[i].author == FindAuthor(server.fetchUsers.value, r.value.posts[i].post.userId)
  {
    JoinAuthors(server.fetchPosts(limit, skip), server.fetchUsers)
  }

  /** `getPostsByTag(tag)`: the tag endpoint's answer, joined in the same way. */
  function GetPostsByTag(server: PostEndpoints, tag: string): (r: Result<PostsWithAuthor>)
    ensures r.Ok? <==> server.postsByTag(tag).Ok? && server.fetchUsers.Ok?
    ensures r.Ok? ==> r.value.total == server.postsByTag(tag).value.total
    ensures r.Ok? ==> Unjoined(r.value.posts) == server.postsByTag(tag).value.posts
    ensures r.Ok? ==> forall i :: 0 <= i < |r.value.posts| ==>
              r.value.posts[i].author == FindAuthor(server.fetchUsers.value, r.value.posts[i].post.userId)
  {
    JoinAuthors(server.postsByTag(tag), server.fetchUsers)
  }

  /** A post whose `userId` matches no user of the roster still appears, in its
      place, with no author: an unresolved author never fails the fetch. */
  lemma UnmatchedAuthorIsAbsent(page: Posts, users: seq<BaseUser>, i: nat)
    requires i < |page.posts|
    requires forall j :: 0 <= j < |users| ==> users[j].id != page.posts[i].userId
    ensures JoinAuthors(Ok(page), Ok(users)).Ok?
    ensures JoinAuthors(Ok(page), Ok(users)).value.posts[i] == PostWithAuthor(page.posts[i], None)
  {
  }

  /** A resolved author is the user the post points at. */
  lemma {:induction false} AuthorMatchesUserId(posts: seq<Post>, users: seq<BaseUser>)
    ensures forall p :: p in WithAuthors(posts, users) && p.author.Some? ==>
              p.author.value.id == p.post.userId && p.author.value in users
  {
    if posts != [] {
      AuthorMatchesUserId(posts[1..], users);
    }
  }
}
