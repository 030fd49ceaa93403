/** The remote API as the two synchronisation units see it: for every endpoint,
    the answer the server gives to a request. The HTTP client, paths and JSON
    are not part of this model; each endpoint wrapper is one field here. */
module Backend {
  import opened Wrappers
  import opened JsNumber
  import opened Entities

  datatype PostEndpoints = PostEndpoints(
    /** GET /posts?limit=..&skip=.. */
    fetchPosts: (Num, Num) -> Result<Posts>,
    /** GET /posts/search?q=.. */
    searchPosts: string -> Result<Posts>,
    /** GET /posts/tag/{tag} */
    postsByTag: string -> Result<Posts>,
    /** GET /users?limit=0&select=username,image (the whole roster) */
    fetchUsers: Result<seq<BaseUser>>,
    /** POST /posts/add */
    createPost: NewPost -> Result<Post>,
    /** PUT /posts/{id} with the whole post */
    updatePost: PostWithAuthor -> Result<Post>,
    /** DELETE /posts/{id} */
    deletePost: int -> Result<()>)

  datatype CommentEndpoints = CommentEndpoints(
    /** GET /comments/post/{postId}; only the `comments` array of the answer is used */
    fetchComments: int -> Result<seq<Comment>>,
    /** POST /api/comments/add */
    createComment: NewComment -> Result<Comment>,
    /** PUT /api/comments/{id} with the body text */
    updateComment: Comment -> Result<Comment>,
    /** DELETE /api/comments/{id} */
    deleteComment: int -> Result<()>,
    /** PATCH /comments/{id} with `likes: comment.likes + 1` */
    likeComment: Comment -> Result<Comment>)
}
