/** The posts manager page. It keeps a second comment cache of its own, with
    handlers that apply the same updates as the comments provider but settle
    differently (most failures are caught and logged, and successful adds and
    edits close their dialogs), and it drives the post list's search options
    from the tag select and the pager. */
module PostsManagerPage {
  import opened Wrappers
  import opened Entities
  import opened Backend
  import opened PostSearch
  import opened CommentReducers
  import opened PostsContext
  import Pagination

  /** The comment being written: a post id of null means no post was picked. */
  datatype CommentDraft = CommentDraft(body: string, postId: Option<int>, userId: int)

  /** The draft the page starts with and resets to after an add. */
  const EmptyDraft: CommentDraft := CommentDraft("", None, 1)

  class PostsManager {
    /** The post-list provider the page reads and drives. */
    const store: PostsStore
    var comments: CommentMap
    var draft: CommentDraft
    var selectedComment: Option<Comment>
    var showAddCommentDialog: bool
    var showEditCommentDialog: bool

    constructor(store: PostsStore)
      ensures this.store == store
      ensures comments == map[] && draft == EmptyDraft && selectedComment.None?
      ensures !showAddCommentDialog && !showEditCommentDialog
    {
      this.store := store;
      comments := map[];
      draft := EmptyDraft;
      selectedComment := None;
      showAddCommentDialog := false;
      showEditCommentDialog := false;
    }

    /** `_fetchComments(postId)`: as the provider's `getComments`. */
    method FetchComments(server: CommentEndpoints, postId: int) returns (outcome: Outcome)
      modifies this
      ensures Cached(old(comments), postId) ==> comments == old(comments) && outcome == Skipped
      ensures !Cached(old(comments), postId) ==> var r := server.fetchComments(postId);
        && (r.Ok? ==> comments == Loaded(old(comments), postId, r.value) && outcome == Applied)
        && (r.Err? ==> comments == old(comments) && outcome == Logged(Http(r.error)))
      ensures draft == old(draft) && selectedComment == old(selectedComment)
      ensures showAddCommentDialog == old(showAddCommentDialog) && showEditCommentDialog == old(showEditCommentDialog)
    {
      if Cached(comments, postId) {
        return Skipped;
      }
      var r := server.fetchComments(postId);
      if r.Err? {
        return Logged(Http(r.error));
      }
      comments := Loaded(comments, postId, r.value);
      outcome := Applied;
    }

    /** The "add comment" button of a post: the draft is addressed to that post
        and the add dialog opens. */
    method StartComment(postId: int)
      modifies this
      ensures draft == old(draft).(postId := Some(postId)) && showAddCommentDialog
      ensures comments == old(comments) && selectedComment == old(selectedComment)
      ensures showEditCommentDialog == old(showEditCommentDialog)
    {
      draft := draft.(postId := Some(postId));
      showAddCommentDialog := true;
    }

    /** The edit button of a comment: it becomes the selected comment and the
        edit dialog opens. */
    method SelectComment(comment: Comment)
      modifies this
      ensures selectedComment == Some(comment) && showEditCommentDialog
      ensures comments == old(comments) && draft == old(draft)
      ensures showAddCommentDialog == old(showAddCommentDialog)
    {
      selectedComment := Some(comment);
      showEditCommentDialog := true;
    }

    /** `addComment()`: nothing happens while the draft has no post. Otherwise
        the created comment is appended to its post's entry, the dialog closes
        and the draft is reset; a rejected request is logged and changes
        nothing. */
    method AddComment(server: CommentEndpoints) returns (outcome: Outcome)
      modifies this
      ensures old(draft.postId).None? ==>
        outcome == Skipped && comments == old(comments)
        && draft == old(draft) && showAddCommentDialog == old(showAddCommentDialog)
      ensures old(draft.postId).Some? ==>
        var r := server.createComment(NewComment(old(draft.userId), old(draft.postId.value), old(draft.body)));
        && (r.Ok? ==> comments == Appended(old(comments), r.value) && outcome == Applied
                      && draft == EmptyDraft && !showAddCommentDialog)
        && (r.Err? ==> comments == old(comments) && outcome == Logged(Http(r.error))
                       && draft == old(draft) && showAddCommentDialog == old(showAddCommentDialog))
      ensures selectedComment == old(selectedComment) && showEditCommentDialog == old(showEditCommentDialog)
    {
      if draft.postId.None? {
        return Skipped;
      }
      var r := server.createComment(NewComment(draft.userId, draft.postId.value, draft.body));
      if r.Err? {
        return Logged(Http(r.error));
      }
      comments := Appended(comments, r.value);
      showAddCommentDialog := false;
      draft := EmptyDraft;
      outcome := Applied;
    }

    /** `_updateComment()`: nothing happens without a selected comment. The
        server's version replaces the comments with its id and the dialog
        closes; a rejected request is logged, and a post with no entry makes
        the state update throw outside the `try`. */
    method UpdateComment(server: CommentEndpoints) returns (outcome: Outcome)
      modifies this
      ensures old(selectedComment).None? ==>
        outcome == Skipped && comments == old(comments) && showEditCommentDialog == old(showEditCommentDialog)
      ensures old(selectedComment).Some? ==> var r := server.updateComment(old(selectedComment).value);
        && (r.Err? ==> comments == old(comments) && outcome == Logged(Http(r.error))
                       && showEditCommentDialog == old(showEditCommentDialog))
        && (r.Ok? && !Cached(old(comments), r.value.postId) ==>
              comments == old(comments) && outcome == Thrown(MissingEntry)
              && showEditCommentDialog == old(showEditCommentDialog))
        && (r.Ok? && Cached(old(comments), r.value.postId) ==>
              comments == Updated(old(comments), r.value).value && outcome == Applied && !showEditCommentDialog)
      ensures draft == old(draft) && selectedComment == old(selectedComment)
      ensures showAddCommentDialog == old(showAddCommentDialog)
    {
      if selectedComment.None? {
        return Skipped;
      }
      var r := server.updateComment(selectedComment.value);
      if r.Err? {
        return Logged(Http(r.error));
      }
      var next := Updated(comments, r.value);
      if next.None? {
        return Thrown(MissingEntry);
      }
      comments := next.value;
      showEditCommentDialog := false;
      outcome := Applied;
    }

    /** `_deleteComment(commentId, postId)`: as the provider's `deleteComment`. */
    method DeleteComment(server: CommentEndpoints, commentId: int, postId: int) returns (outcome: Outcome)
      modifies this
      ensures var r := server.deleteComment(commentId);
        && (r.Err? ==> comments == old(comments) && outcome == Logged(Http(r.error)))
        && (r.Ok? && !Cached(old(comments), postId) ==>
              comments == old(comments) && outcome == Thrown(MissingEntry))
        && (r.Ok? && Cached(old(comments), postId) ==>
              comments == Deleted(old(comments), postId, commentId).value && outcome == Applied)
      ensures draft == old(draft) && selectedComment == old(selectedComment)
      ensures showAddCommentDialog == old(showAddCommentDialog) && showEditCommentDialog == old(showEditCommentDialog)
    {
      var r := server.deleteComment(commentId);
      if r.Err? {
        return Logged(Http(r.error));
      }
      var next := Deleted(comments, postId, commentId);
      if next.None? {
        return Thrown(MissingEntry);
      }
      comments := next.value;
      outcome := Applied;
    }

    /** `_likeComment(commentId, postId)`: as the provider's `likeComment`. */
    method LikeComment(server: CommentEndpoints, commentId: int, postId: int) returns (outcome: Outcome)
      modifies this
      ensures !Cached(old(comments), postId) ==> comments == old(comments) && outcome == Logged(MissingEntry)
      ensures Cached(old(comments), postId) && FindComment(old(comments), postId, commentId).None? ==>
                comments == old(comments) && outcome == Skipped
      ensures Cached(old(comments), postId) && FindComment(old(comments), postId, commentId).Some? ==>
                var r := server.likeComment(FindComment(old(comments), postId, commentId).value);
                && (r.Err? ==> comments == old(comments) && outcome == Logged(Http(r.error)))
                && (r.Ok? ==> comments == Liked(old(comments), postId, r.value).value && outcome == Applied)
      ensures draft == old(draft) && selectedComment == old(selectedComment)
      ensures showAddCommentDialog == old(showAddCommentDialog) && showEditCommentDialog == old(showEditCommentDialog)
    {
      if !Cached(comments, postId) {
        return Logged(MissingEntry);
      }
      var found := FindComment(comments, postId, commentId);
      if found.None? {
        return Skipped;
      }
      var r := server.likeComment(found.value);
      if r.Err? {
        return Logged(Http(r.error));
      }
      comments := Liked(comments, postId, r.value).value;
      outcome := Applied;
    }

    /** The tag select. The three calls share one render: the fetch and the
        URL write read the options as they were before the tag was set, and
        the new tag is merged in once the handler is done. */
    method SelectTag(server: PostEndpoints, value: string) returns (outcome: Outcome)
      modifies store
      ensures var r := FetchPosts(server, TagRequest(value), old(store.searchOptions));
        && (r.Ok? ==> store.posts == r.value.posts && store.total == r.value.total && outcome == Applied)
        && (r.Err? ==> store.posts == old(store.posts) && store.total == old(store.total)
                       && outcome == Logged(Http(r.error)))
      ensures store.location == QueryOf(old(store.searchOptions))
      ensures store.searchOptions == old(store.searchOptions).(tag := value)
      ensures !store.loading
    {
      outcome := store.GetPostsByTag(server, value);
      store.UpdateURL();
      store.SetSearchOptions(NoFields.(tag := Some(value)));
    }

    /** The "previous" button, enabled unless the offset is 0. */
    method PreviousPage()
      requires !Pagination.PreviousDisabled(store.searchOptions)
      modifies store
      ensures store.searchOptions == old(store.searchOptions).(skip := Pagination.PreviousSkip(old(store.searchOptions)))
      ensures store.posts == old(store.posts) && store.total == old(store.total)
      ensures store.location == old(store.location) && store.loading == old(store.loading)
    {
      store.SetSearchOptions(Pagination.PreviousPage(store.searchOptions));
    }

    /** The "next" button, enabled while the next offset is below `total`. */
    method NextPage()
      requires !Pagination.NextDisabled(store.searchOptions, store.total)
      modifies store
      ensures store.searchOptions == old(store.searchOptions).(skip := Pagination.NextSkip(old(store.searchOptions)))
      ensures store.posts == old(store.posts) && store.total == old(store.total)
      ensures store.location == old(store.location) && store.loading == old(store.loading)
    {
      store.SetSearchOptions(Pagination.NextPage(store.searchOptions));
    }

    /** The page-size select. */
    method ChooseLimit(value: string)
      requires value in Pagination.LimitChoices
      modifies store
      ensures store.searchOptions == old(store.searchOptions).(limit := JsNumber.Int(Pagination.LimitValue(value)))
      ensures store.posts == old(store.posts) && store.total == old(store.total)
      ensures store.location == old(store.location) && store.loading == old(store.loading)
    {
      store.SetSearchOptions(Pagination.ChooseLimit(value));
    }
  }
}
