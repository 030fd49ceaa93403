/** The comments provider: one cache of comments per post, filled on demand
    and kept in step with the server by the add, update, delete and like
    actions. Every action is one atomic step given the server's answer. */
module CommentsContext {
  import opened Wrappers
  import opened Entities
  import opened Backend
  import opened CommentReducers

  class CommentCache {
    var comments: CommentMap

    /** The provider starts with nothing loaded. */
    constructor()
      ensures comments == map[]
    {
      comments := map[];
    }

    /** `getComments(postId)`: a post already loaded is not fetched again;
        otherwise the fetched comments become its entry, and a failed fetch is
        logged and leaves the cache as it was. */
    method GetComments(server: CommentEndpoints, postId: int) returns (outcome: Outcome)
      modifies this
      ensures Cached(old(comments), postId) ==> comments == old(comments) && outcome == Skipped
      ensures !Cached(old(comments), postId) ==> var r := server.fetchComments(postId);
        && (r.Ok? ==> comments == Loaded(old(comments), postId, r.value) && outcome == Applied)
        && (r.Err? ==> comments == old(comments) && outcome == Logged(Http(r.error)))
      ensures outcome.Applied? || outcome.Skipped? ==> Cached(comments, postId)
    {
      if Cached(comments, postId) {
        return Skipped;
      }
      var r := server.fetchComments(postId);
      if r.Err? {
        return Logged(Http(r.error));
      }
      comments := Loaded(comments, postId, r.value);
      outcome := Applied;
    }

    /** `addComment(newComment)`: the created comment is appended to the entry
        of the post the server filed it under. A rejected request escapes the
        action. */
    method AddComment(server: CommentEndpoints, draft: NewComment) returns (outcome: Outcome)
      modifies this
      ensures var r := server.createComment(draft);
        && (r.Ok? ==> comments == Appended(old(comments), r.value) && outcome == Applied)
        && (r.Err? ==> comments == old(comments) && outcome == Thrown(Http(r.error)))
    {
      var r := server.createComment(draft);
      if r.Err? {
        return Thrown(Http(r.error));
      }
      comments := Appended(comments, r.value);
      outcome := Applied;
    }

    /** `updateComment(comment)`: the server's version replaces the comments with
        its id in the entry of its post. A rejected request escapes the action,
        and so does the TypeError of a post with no entry. */
    method UpdateComment(server: CommentEndpoints, comment: Comment) returns (outcome: Outcome)
      modifies this
      ensures var r := server.updateComment(comment);
        && (r.Err? ==> comments == old(comments) && outcome == Thrown(Http(r.error)))
        && (r.Ok? && !Cached(old(comments), r.value.postId) ==>
              comments == old(comments) && outcome == Thrown(MissingEntry))
        && (r.Ok? && Cached(old(comments), r.value.postId) ==>
              comments == Updated(old(comments), r.value).value && outcome == Applied)
    {
      var r := server.updateComment(comment);
      if r.Err? {
        return Thrown(Http(r.error));
      }
      var next := Updated(comments, r.value);
      if next.None? {
        return Thrown(MissingEntry);
      }
      comments := next.value;
      outcome := Applied;
    }

    /** `deleteComment(commentId, postId)`: the comment leaves its post's entry.
        A rejected request is logged; a post with no entry makes the state
        update throw, which the action's `catch` does not see. */
    method DeleteComment(server: CommentEndpoints, commentId: int, postId: int) returns (outcome: Outcome)
      modifies this
      ensures var r := server.deleteComment(commentId);
        && (r.Err? ==> comments == old(comments) && outcome == Logged(Http(r.error)))
        && (r.Ok? && !Cached(old(comments), postId) ==>
              comments == old(comments) && outcome == Thrown(MissingEntry))
        && (r.Ok? && Cached(old(comments), postId) ==>
              comments == Deleted(old(comments), postId, commentId).value && outcome == Applied)
    {
      var r := server.deleteComment(commentId);
      if r.Err? {
        return Logged(Http(r.error));
      }
      var next := Deleted(comments, postId, commentId);
      if next.None? {
        return Thrown(MissingEntry);
      }
      comments := next.value;
      outcome := Applied;
    }

    /** `likeComment(commentId, postId)`: the cached comment is sent with its
        count plus one, and the answer is merged into the entry with the cached
        count plus one. A post with no entry is logged (the lookup is inside the
        `try`); a comment not in the entry is ignored. */
    method LikeComment(server: CommentEndpoints, commentId: int, postId: int) returns (outcome: Outcome)
      modifies this
      ensures !Cached(old(comments), postId) ==> comments == old(comments) && outcome == Logged(MissingEntry)
      ensures Cached(old(comments), postId) && FindComment(old(comments), postId, commentId).None? ==>
                comments == old(comments) && outcome == Skipped
      ensures Cached(old(comments), postId) && FindComment(old(comments), postId, commentId).Some? ==>
                var r := server.likeComment(FindComment(old(comments), postId, commentId).value);
                && (r.Err? ==> comments == old(comments) && outcome == Logged(Http(r.error)))
                && (r.Ok? ==> comments == Liked(old(comments), postId, r.value).value && outcome == Applied)
    {
      if !Cached(comments, postId) {
        return Logged(MissingEntry);
      }
      var found := FindComment(comments, postId, commentId);
      if found.None? {
        return Skipped;
      }
      var r := server.likeComment(found.value);
      if r.Err? {
        return Logged(Http(r.error));
      }
      comments := Liked(comments, postId, r.value).value;
      outcome := Applied;
    }
  }

  /** Opening a post twice fetches its comments at most once: after a load
      that succeeded, the second call finds the entry. */
  method LoadTwice(cache: CommentCache, server: CommentEndpoints, postId: int) returns (first: Outcome, second: Outcome)
    modifies cache
    ensures first == Applied ==> second == Skipped
    ensures second == Skipped <==> first.Applied? || first.Skipped?
  {
    first := cache.GetComments(server, postId);
    second := cache.GetComments(server, postId);
  }
}
