/** The records the two synchronisation units work on, as the server sends them:
    posts, comments, the user summary attached to a post, and the drafts the
    client sends to create them. */
module Entities {
  import opened Wrappers

  datatype Reactions = Reactions(likes: int, dislikes: int)

  datatype Post = Post(
    id: int,
    userId: int,
    title: string,
    body: string,
    tags: seq<string>,
    reactions: Reactions,
    views: int)

  /** One page of posts as the list, search and tag endpoints answer it. */
  datatype Posts = Posts(limit: int, posts: seq<Post>, skip: int, total: int)

  /** What the client supplies to create a post; the server assigns the rest. */
  datatype NewPost = NewPost(userId: int, title: string, body: string)

  /** The user summary the roster endpoint returns (`select=username,image`). */
  datatype BaseUser = BaseUser(id: int, username: string, image: string)

  /** A post with its author, when one could be resolved. */
  datatype PostWithAuthor = PostWithAuthor(post: Post, author: Option<BaseUser>)

  datatype PostsWithAuthor = PostsWithAuthor(posts: seq<PostWithAuthor>, total: int)

  /** The user embedded in a comment. */
  datatype CommentUser = CommentUser(id: int, username: string, fullName: string)

  datatype Comment = Comment(id: int, postId: int, body: string, likes: int, user: CommentUser)

  /** What the client supplies to create a comment. */
  datatype NewComment = NewComment(userId: int, postId: int, body: string)

  /** A post as held in the list, without the resolved author: how a post that
      the server returned from create or update (typed `Post`) enters the list. */
  function Bare(p: Post): PostWithAuthor
  {
    PostWithAuthor(p, None)
  }

  /** The id a list entry is matched on. */
  function PostId(p: PostWithAuthor): int
  {
    p.post.id
  }

  function CommentId(c: Comment): int
  {
    c.id
  }
}
