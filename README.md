# Posts manager: client-side state, modelled in Dafny

This project models the state logic behind the posts manager of a small React
client for a posts-and-comments backend:

- the **post-list provider** (`PostsProvider`): the list on screen with its
  `total`, the loading flag, the search options (offset, page size, free-text
  query, sort key and order, tag), their shallow-merge update, the shareable
  URL they are written to and read back from, the choice of the endpoint a
  fetch goes to, and the add, update and delete list reducers;
- the **author left-join** run on every list and tag fetch: each post gets the
  first user of the roster with its `userId`, or no author;
- the **pager**: the previous and next offsets, when each button is disabled,
  and the page-size select;
- the **comment cache** (`CommentsProvider`): a record from post id to the
  comments loaded for it, filled once per post and kept in step with the
  server on add, update, delete and like;
- the **posts manager page**, which holds a second comment cache with its own
  handlers, drives the tag select and the pager, and settles failures
  differently from the provider.

Every asynchronous action is one atomic step given the server's answer. The
server is a value of `Backend.PostEndpoints` / `Backend.CommentEndpoints`: one
function per endpoint, from the request to a `Result` (resolved or rejected
with an `HttpError`). How an action settles is an `Outcome`: its update was
applied, it returned early, its failure was caught and logged, or the failure
escaped it (a rejected promise, or a TypeError thrown by a state updater while
React renders, outside the action's `try`).

JavaScript numbers appear only where they matter: `skip` and `limit` are
`JsNumber.Num`, an integer or NaN, since `parseInt` of a URL value with no
leading digits is NaN, and NaN then flows through `+`, `-`, `Math.max` and the
comparisons. `parseInt` and `Number.prototype.toString` are modelled for
integers and proved to round-trip. The query string is a list of name-value
pairs with `URLSearchParams`' `get` (first match) and `set` (overwrite the
first match and drop the others, or append).

Files: `wrappers.dfy` (Option, Result, Outcome), `js_number.dfy`,
`url_params.dfy`, `entities.dfy`, `list_ops.dfy` (replace, remove and find by
id), `backend.dfy`, `posts_api.dfy`, `search_options.dfy`, `posts_context.dfy`,
`pagination.dfy`, `comment_reducers.dfy`, `comments_context.dfy`,
`posts_manager_page.dfy`.

## Model

| member | source | states |
|---|---|---|
| JsNumber.ToString | src/features/post/get-posts/context.tsx:60-61 | `toString` of an integer: its decimal digits without leading zeros, after a minus sign when negative (read back by `ParseIntToString`) |
| JsNumber.ParseInt | src/features/post/get-posts/context.tsx:49-50 | `parseInt` without a radix: skip leading white space, an optional sign, a `0x` prefix for hexadecimal, the longest run of digits, NaN when there is none (its read-back is `ParseIntToString`) |
| JsNumber.ParseIntToString | src/features/post/get-posts/context.tsx:49-50 | `parseInt` of the decimal text `toString` writes for an integer gives that integer back, also when more text follows, provided that text does not start with a decimal digit, `x` or `X` |
| UrlParams.Get | src/features/post/get-posts/context.tsx:49-54 | `params.get(name)`: the value of the first pair with the name, null when none (stated by `GetFindsFirst`) |
| UrlParams.Set | src/features/post/get-posts/context.tsx:60-65 | `params.set(name, value)`: overwrite the first pair with the name and drop the others, or append (stated by `SetThenGet`) |
| UrlParams.GetFindsFirst | src/features/post/get-posts/context.tsx:161-169 | `get` finds a value exactly when some pair has the name, and the value is that of the first such pair |
| UrlParams.GetAppend | src/features/post/get-posts/context.tsx:58-66 | reading a name from two pair lists written one after the other reads the first list when it has the name, else the second |
| UrlParams.SetThenGet | src/features/post/get-posts/context.tsx:60-65 | after `set(name, v)`, `get(name)` is `v` and every other name reads as before |
| UrlParams.GetPairs | src/features/post/get-posts/context.tsx:58-66 | a pair list written from a list of names holds only those names, and each reads back as its value |
| UrlParams.SetPairs | src/features/post/get-posts/context.tsx:60-65 | a guarded `set` of a name not yet written extends the pairs by that name |
| PostSearch.Merge | src/features/post/get-posts/context.tsx:144-149 | every field of the result is the patch's value when the patch has that field and the previous value otherwise |
| PostSearch.MergeLaws | src/features/post/get-posts/context.tsx:144-149 | two merges are one merge of the combined patch; merging the same patch twice is merging it once; an empty patch changes nothing |
| PostSearch.BuildParams | src/features/post/get-posts/context.tsx:58-66 | the six guarded `set` calls build exactly `QueryOf(o)`: one pair per truthy field, in the order skip, limit, search, sortBy, sortOrder, tag |
| PostSearch.QueryOf | src/features/post/get-posts/context.tsx:58-66 | the query string `updateURL` writes: one pair per truthy field in the order skip, limit, search, sortBy, sortOrder, tag (stated by `GetQueryOf`, `OmitsFalsyFields` and `BuildParams`) |
| PostSearch.WrittenStep | src/features/post/get-posts/context.tsx:60-65 | each guarded `set` extends the pairs written so far by the next name, or leaves them when the field is falsy |
| PostSearch.GetQueryOf | src/features/post/get-posts/context.tsx:58-66 | reading any name back from the written URL gives what `updateURL` wrote under it, and nothing for other names |
| PostSearch.OmitsFalsyFields | src/features/post/get-posts/context.tsx:60-65 | each field is in the URL exactly when it is truthy (0, NaN and "" are left out) |
| PostSearch.ParamOr | src/features/post/get-posts/context.tsx:49-54 | `get(name) \|\| fallback`: the URL's value under the name when there is one and it is non-empty, the fallback otherwise |
| PostSearch.ParseSearchOptions | src/features/post/get-posts/context.tsx:48-55 | the parser of the initial options, for any query string: `skip` and `limit` are 0 and 10 when missing or empty; each text field is non-empty exactly when the URL holds a non-empty value under its name (the query under `search`) and is then that value; the order is the URL's non-empty value, else "asc" |
| PostSearch.ParseReadsIntegers | src/features/post/get-posts/context.tsx:49-50 | a non-empty value under `skip` or `limit` is read with `parseInt`, so an integer written there as `toString` writes it is read as that integer |
| PostSearch.ParseEmpty | src/features/post/get-posts/context.tsx:48-55 | an empty query string parses to skip 0, limit 10, empty query, sort key and tag, and order "asc" |
| PostSearch.Normalized | src/features/post/get-posts/context.tsx:48-55 | the normalized options are representable in the URL, and options are left unchanged exactly when they already are |
| PostSearch.ParsedQueryOf | src/features/post/get-posts/context.tsx:48-55 | parsing the URL written for any options gives them back normalized, whatever name the query is read under except for the query itself |
| PostSearch.UrlReadsBackNormalized | src/features/post/get-posts/context.tsx:48-66 | writing any options to the URL and parsing it gives them back normalized: NaN skip as 0, falsy limit as 10, empty order as "asc" |
| PostSearch.UrlRoundTrip | src/features/post/get-posts/context.tsx:48-66 | for options with a numeric skip, a non-zero limit and a non-empty order, parsing the written URL gives exactly the options |
| PostSearch.UrlSettles | src/features/post/get-posts/context.tsx:48-66 | options read back from a URL survive the next write and read unchanged |
| PostSearch.UrlRewrittenOnce | src/features/post/get-posts/context.tsx:48-66 | the URL written after a read-back equals the first URL exactly when limit was truthy and the order non-empty |
| PostSearch.SameValuesSameQuery | src/features/post/get-posts/context.tsx:58-66 | two option records that write the same values write the same URL |
| PostSearch.RehydratedAsWritten | src/features/post/get-posts/context.tsx:160-171 | the re-hydration as written: every field but the query is what `ParseSearchOptions` reads, and the query is non-empty exactly when the URL holds a non-empty value under `searchQuery`, and is then that value |
| PostSearch.RehydrationDropsQuery | src/features/post/get-posts/context.tsx:160-171 | re-hydrating from any URL the provider wrote keeps every field normalized but always loses the free-text query |
| PostSearch.RehydrationDropsQueryExample | src/features/post/get-posts/context.tsx:62 | the query "love" is written under `search` and re-hydrated as "" |
| PostSearch.SelectStrategy | src/features/post/get-posts/context.tsx:69-79 | the tag endpoint exactly when the request's tag is non-empty and not "all", whatever the query; else the search endpoint exactly when its query is non-empty; else the list at the current limit and skip |
| PostsApi.FindAuthor | src/features/post/get-posts/api.ts:11 | absent exactly when no user has the id; otherwise a user with that id that no earlier user of the roster shares |
| PostsApi.WithAuthors | src/features/post/get-posts/api.ts:9-12 | one output per post, in order, each keeping its post and carrying `FindAuthor` of its `userId` |
| PostsApi.JoinAuthors | src/features/post/get-posts/api.ts:5-15 | succeeds exactly when both requests do; then the posts are the page's posts in order, each with its first matching author, and `total` is the page's |
| PostsApi.GetPosts | src/features/post/get-posts/api.ts:5-15 | the list page joined with the roster: succeeds exactly when both requests do, keeps the page's posts in order, gives each the first user with its `userId` as author, and passes `total` through |
| PostsApi.GetPostsByTag | src/features/post/get-posts/api.ts:17-27 | the same join on the tag endpoint's answer: succeeds exactly when both requests do, keeps its posts in order, gives each the first user with its `userId` as author, and passes `total` through |
| PostsApi.UnmatchedAuthorIsAbsent | src/features/post/get-posts/api.ts:11 | a post whose author matches no user still appears in its place with no author, and the join succeeds |
| PostsApi.AuthorMatchesUserId | src/features/post/get-posts/api.ts:11 | every resolved author is a user of the roster with the post's `userId` |
| ListOps.ReplaceById | src/features/post/get-posts/context.tsx:136 | same length; exactly the elements with the new record's id become it, the others stay in place |
| ListOps.RemoveById | src/features/post/get-posts/context.tsx:141 | every kept element is an original without the id, every original without the id is kept, and the list shrinks when the id was present |
| ListOps.FindById | src/features/comment/get-comments/context.tsx:72 | absent exactly when no element has the id; otherwise the first element with it |
| ListOps.RemoveByIdAppend | src/features/post/get-posts/context.tsx:141 | filtering distributes over concatenation |
| ListOps.RemoveByIdAbsent | src/features/post/get-posts/context.tsx:141 | filtering by an id no element has changes nothing |
| ListOps.ReplaceByIdAbsent | src/features/post/get-posts/context.tsx:136 | replacing by an id no element has changes nothing |
| ListOps.ReplaceByIdIdempotent | src/features/post/get-posts/context.tsx:136 | replacing twice with the same record is replacing once |
| PostsContext.Endpoint | src/features/post/get-posts/context.tsx:70-78 | the raw answer of the endpoint a strategy goes to |
| PostsContext.BareAll | src/features/post/get-posts/context.tsx:75 | the search endpoint's posts, in order, each held without an author |
| PostsContext.TagRequest | src/features/post/get-posts/context.tsx:100 | the patch `_getPostsByTag` passes to `fetchPosts`: only the tag |
| PostsContext.SearchRequest | src/features/post/get-posts/context.tsx:115 | the patch `_searchPosts` passes to `fetchPosts`: only the query |
| PostsContext.AllTagFetchesPage | src/features/post/get-posts/context.tsx:70-78 | the tag "all" fetches the same joined page as no options, the list at the current limit and skip |
| PostsContext.EmptySearchFetchesPage | src/features/post/get-posts/context.tsx:74-78 | an empty query fetches the joined list at the current limit and skip |
| PostsContext.FetchPosts | src/features/post/get-posts/context.tsx:69-79 | succeeds exactly when the chosen endpoint does and, except for a search, the roster does; a failed page is reported as its error; `total` and the posts pass through; search results carry no author |
| PostsContext.PostsStore.constructor | src/features/post/get-posts/context.tsx:43-55 | an empty list, `total` 0, not loading, and the options parsed from the location |
| PostsContext.PostsStore.SetSearchOptions | src/features/post/get-posts/context.tsx:144-149 | the options become their merge with the patch; nothing else changes |
| PostsContext.PostsStore.UpdateURL | src/features/post/get-posts/context.tsx:58-67 | the location becomes `QueryOf` of the current options; nothing else changes |
| PostsContext.PostsStore.Load | src/features/post/get-posts/context.tsx:82-124 | on success the list and `total` are the answer's; on failure both are kept and the error is logged; loading ends false |
| PostsContext.PostsStore.GetPosts | src/features/post/get-posts/context.tsx:82-94 | as `Load`, with the joined page at the current limit and skip |
| PostsContext.PostsStore.GetPostsByTag | src/features/post/get-posts/context.tsx:97-109 | as `Load` with the tag request; a tag other than "" and "all" gets the tag endpoint's joined answer |
| PostsContext.PostsStore.SearchPosts | src/features/post/get-posts/context.tsx:112-124 | as `Load` with the current query as the request |
| PostsContext.PostsStore.AddPost | src/features/post/get-posts/context.tsx:127-130 | the created post goes in front of the old list; `total` is unchanged; a rejection escapes and changes nothing |
| PostsContext.PostsStore.UpdatePost | src/features/post/get-posts/context.tsx:133-137 | the server's version replaces the entries with its id; a rejection escapes and changes nothing |
| PostsContext.PostsStore.DeletePost | src/features/post/get-posts/context.tsx:139-142 | the entries with the id are removed; `total` is unchanged; a rejection escapes and changes nothing |
| PostsContext.PostsStore.OnSearchOptionsChanged | src/features/post/get-posts/context.tsx:151-158 | fetch by tag when one is set, else the current page, then write the URL of the options |
| PostsContext.PostsStore.OnLocationChanged | src/features/post/get-posts/context.tsx:160-171 | the options become those parsed from the new location (the free-text query read under `search`) |
| PostsContext.AddThenDelete | src/features/post/get-posts/context.tsx:127-142 | deleting a post just added, whose id no listed post has, restores the list |
| Pagination.PreviousSkip | src/features/post/get-posts/ui/posts-pagination.tsx:30 | a number exactly when skip and limit are, never negative, and `max(0, skip - limit)` |
| Pagination.PreviousDisabled | src/features/post/get-posts/ui/posts-pagination.tsx:29 | `skip === 0`; a NaN offset is not 0 (stated by `PreviousDisabledAtStart` and `NaNOffsetSticks`) |
| Pagination.NextSkip | src/features/post/get-posts/ui/posts-pagination.tsx:36 | `skip + limit`: a number exactly when both are, then their sum |
| Pagination.NextDisabled | src/features/post/get-posts/ui/posts-pagination.tsx:35 | `skip + limit >= total`, false for NaN (stated by `NextDisabledAtEnd`, `NextStaysInRange` and `NaNOffsetSticks`) |
| Pagination.PreviousPage | src/features/post/get-posts/ui/posts-pagination.tsx:30 | merging the patch sets the offset to `PreviousSkip` and leaves the other five options as they were |
| Pagination.NextPage | src/features/post/get-posts/ui/posts-pagination.tsx:36 | merging the patch sets the offset to `NextSkip` and leaves the other five options as they were |
| Pagination.ChooseLimit | src/features/post/get-posts/ui/posts-pagination.tsx:14-22 | merging the patch into any options sets the page size to the chosen 10, 20 or 30 and leaves the other five as they were |
| Pagination.LimitValue | src/features/post/get-posts/ui/posts-pagination.tsx:14-22 | a choice of the select is 10, 20 or 30, and is the number the choice's text spells |
| Pagination.NextStaysInRange | src/features/post/get-posts/ui/posts-pagination.tsx:35-36 | while "next" is enabled, the offset it moves to is below `total` |
| Pagination.PreviousDisabledAtStart | src/features/post/get-posts/ui/posts-pagination.tsx:29-30 | for a non-negative offset and positive page size, "previous" is disabled exactly when it would not move, and moves back otherwise |
| Pagination.NextDisabledAtEnd | src/features/post/get-posts/ui/posts-pagination.tsx:35 | for numeric offset and size, "next" is disabled exactly when `skip + limit >= total` |
| Pagination.PreviousUndoesNext | src/features/post/get-posts/ui/posts-pagination.tsx:30-36 | "previous" undoes "next" from a non-negative offset, and "next" undoes "previous" when a whole page lies before the offset |
| Pagination.NaNOffsetSticks | src/features/post/get-posts/ui/posts-pagination.tsx:29-36 | a NaN offset stays NaN under both buttons, and neither button is disabled for it, whatever the total |
| CommentReducers.Cached | src/features/comment/get-comments/context.tsx:27 | `comments[postId]` is truthy exactly when the post has an entry, an empty one included |
| CommentReducers.EntryOr | src/features/comment/get-comments/context.tsx:41 | the post's entry when it has one, an empty list otherwise |
| CommentReducers.Loaded | src/features/comment/get-comments/context.tsx:30 | the post's entry becomes the fetched list; every other entry is unchanged |
| CommentReducers.Appended | src/features/comment/get-comments/context.tsx:39-42 | the post's entry (empty if missing) gains the comment at its end and keeps its old elements in order; other entries are unchanged |
| CommentReducers.Updated | src/features/comment/get-comments/context.tsx:48-53 | fails exactly when the post has no entry; else same length, exactly the comments with the id become the server's version, other entries unchanged |
| CommentReducers.Deleted | src/features/comment/get-comments/context.tsx:60-63 | fails exactly when the post has no entry; else the entry is `RemoveById` of the old one: exactly the comments without the id, in their order and with their repeats; other entries unchanged |
| CommentReducers.LikeMerged | src/features/comment/get-comments/context.tsx:79-86 | same length; a matching comment takes the server's fields with the cached count plus one; the others are unchanged |
| CommentReducers.Liked | src/features/comment/get-comments/context.tsx:77-87 | fails exactly when the post has no entry; else only that entry is like-merged |
| CommentReducers.FindComment | src/features/comment/get-comments/context.tsx:72 | absent exactly when the entry holds no comment with the id; otherwise the first comment of the entry with it |
| CommentReducers.AddThenDelete | src/features/comment/get-comments/context.tsx:37-63 | deleting a comment just added with a fresh id restores the cache, except that a post that had no entry keeps an empty one |
| CommentReducers.DeleteIdempotent | src/features/comment/get-comments/context.tsx:60-63 | deleting the same comment twice is deleting it once |
| CommentReducers.UpdateIdempotent | src/features/comment/get-comments/context.tsx:48-53 | applying the same server version twice is applying it once |
| CommentReducers.LikeIgnoresServerCount | src/features/comment/get-comments/context.tsx:80-84 | the like count the server answers with never reaches the cache |
| CommentReducers.LikeOfAbsentIsNoOp | src/features/comment/get-comments/context.tsx:79-86 | merging a like for an id the entry lacks changes nothing |
| CommentReducers.LikeTwice | src/features/comment/get-comments/context.tsx:79-86 | two likes add two to the cached count, whatever the server answers |
| CommentsContext.CommentCache.constructor | src/features/comment/get-comments/context.tsx:23 | nothing is loaded |
| CommentsContext.CommentCache.GetComments | src/features/comment/get-comments/context.tsx:26-34 | a loaded post (even with an empty list) is not fetched; otherwise the answer becomes its entry, and a failure is logged and changes nothing |
| CommentsContext.CommentCache.AddComment | src/features/comment/get-comments/context.tsx:37-43 | the created comment is appended to its post's entry; a rejection escapes and changes nothing |
| CommentsContext.CommentCache.UpdateComment | src/features/comment/get-comments/context.tsx:46-54 | the server's version replaces by id in its post's entry; a rejection, or a post with no entry, escapes and changes nothing |
| CommentsContext.CommentCache.DeleteComment | src/features/comment/get-comments/context.tsx:57-67 | the comment leaves the post's entry; a rejection is logged; a post with no entry throws from the updater; both change nothing |
| CommentsContext.CommentCache.LikeComment | src/features/comment/get-comments/context.tsx:70-91 | a post with no entry is logged, an unknown comment is skipped, a rejection is logged, all changing nothing; else the answer is like-merged |
| CommentsContext.LoadTwice | src/features/comment/get-comments/context.tsx:26-34 | after a load that applied, the next load of that post is skipped; the second is skipped exactly when the first applied or was skipped |
| PostsManagerPage.PostsManager.constructor | src/pages/PostsManagerPage.tsx:27-41 | no comments loaded, the empty draft for user 1, no selected comment, both dialogs closed |
| PostsManagerPage.PostsManager.FetchComments | src/pages/PostsManagerPage.tsx:69-77 | as the provider's `getComments`, leaving the draft, selection and dialogs alone |
| PostsManagerPage.PostsManager.StartComment | src/pages/PostsManagerPage.tsx:185-188 | the draft is addressed to the post and the add dialog opens |
| PostsManagerPage.PostsManager.SelectComment | src/pages/PostsManagerPage.tsx:209-212 | the comment becomes the selected one and the edit dialog opens |
| PostsManagerPage.PostsManager.AddComment | src/pages/PostsManagerPage.tsx:80-94 | skipped while the draft has no post; on success the comment is appended, the dialog closes and the draft resets; a rejection is logged and changes nothing |
| PostsManagerPage.PostsManager.UpdateComment | src/pages/PostsManagerPage.tsx:97-111 | skipped without a selection; on success the server's version replaces by id and the dialog closes; a rejection is logged; a post with no entry throws from the updater |
| PostsManagerPage.PostsManager.DeleteComment | src/pages/PostsManagerPage.tsx:114-124 | as the provider's `deleteComment` |
| PostsManagerPage.PostsManager.LikeComment | src/pages/PostsManagerPage.tsx:127-148 | as the provider's `likeComment` |
| PostsManagerPage.PostsManager.SelectTag | src/pages/PostsManagerPage.tsx:256-260 | the tag fetch and the URL write use the options from before the choice; the tag is merged in afterwards, so the location written is the URL of the old options |
| PostsManagerPage.PostsManager.PreviousPage | src/pages/PostsManagerPage.tsx:324-329 | when enabled, the offset becomes `max(0, skip - limit)` and nothing else changes |
| PostsManagerPage.PostsManager.NextPage | src/pages/PostsManagerPage.tsx:330-335 | when enabled, the offset becomes `skip + limit` and nothing else changes |
| PostsManagerPage.PostsManager.ChooseLimit | src/pages/PostsManagerPage.tsx:308-311 | the page size becomes the chosen 10, 20 or 30 and nothing else changes |

## Left out

- HTTP, paths, JSON and the API client: each endpoint is a function from the request to its settled answer.
- React scheduling: each action is one atomic step. Interleaved requests, stale responses and the order in which effects run are not modelled. The two effects of the post-list provider are modelled as `OnSearchOptionsChanged` and `OnLocationChanged`, to be called by whoever models the scheduler.
- Navigation is the assignment of the location's query string. Percent-encoding and `URLSearchParams.toString` are below the pair-list level of the model.
- Numbers: `skip` and `limit` are integers or NaN. Fractions, infinities, the exponent form of `toString` and 53-bit precision are not modelled, and the white space `parseInt` skips is ASCII white space, U+00A0, U+FEFF, U+2028 and U+2029: the other Unicode space separators (U+1680, U+2000 to U+200A, U+202F, U+205F, U+3000) are not skipped.
- PostsApi.JoinAuthors: when both requests fail, the posts request's error is reported. `Promise.all` reports whichever fails first, which depends on timing.
- PostsContext.FetchPosts: states which endpoint's answer is used and what passes through. The author of each post is stated by `PostsApi.JoinAuthors`.
- A TypeError thrown by a state updater during render is modelled as `Thrown(MissingEntry)` with the state unchanged. The error boundary and the rest of that render, including a dialog flag set in the same batch, are not modelled.
- Logging (`console.error`) is the `Logged` outcome, without the message.
- The page's tag list (`_fetchTags`), post update (`_updatePost`), post detail and user dialogs, search box and all rendering are not part of this model. The comment handlers, tag select and pager are.

## Findings

| source | as written | input that shows it | evidently intended | confidence | as-written member | corrected member |
|---|---|---|---|---|---|---|
| src/features/post/get-posts/context.tsx:166 | re-hydration reads the free-text query under `searchQuery`, but `updateURL` (line 62) and the initial parse (line 51) use `search` | options with query "love": the URL holds `search=love`, and re-hydration sets the query to "" | read it under `search`, so the query survives a location change | high (not executed) | PostSearch.RehydratedAsWritten, PostSearch.RehydrationDropsQuery, PostSearch.RehydrationDropsQueryExample | PostSearch.ParseSearchOptions with PostSearch.UrlRoundTrip, used by PostsContext.PostsStore.OnLocationChanged |
