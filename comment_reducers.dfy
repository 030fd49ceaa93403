/** The state updates of a comment cache: a record from post id to the comments
    loaded for that post. The comments provider and the posts manager page each
    hold one such cache and apply these same updates once the server has
    answered. JavaScript keys the record by the post id's string form; since
    that form is one-to-one on integers, the model keys it by the integer. */
module CommentReducers {
  import opened Wrappers
  import opened Entities
  import ListOps

  type CommentMap = map<int, seq<Comment>>

  /** `comments[postId]` is truthy: any array, an empty one included, counts as
      loaded. */
  predicate Cached(m: CommentMap, postId: int)
  {
    postId in m
  }

  /** `prev[postId] || []`. */
  function EntryOr(m: CommentMap, postId: int): (r: seq<Comment>)
    ensures postId in m ==> r == m[postId]
    ensures postId !in m ==> r == []
  {
    if postId in m then m[postId] else []
  }

  /** Every other post's entry is the same in `r` as in `m`. */
  predicate OthersUnchanged(m: CommentMap, r: CommentMap, postId: int)
  {
    && (forall k :: k in r && k != postId ==> k in m)
    && (forall k :: k in m && k != postId ==> k in r && r[k] == m[k])
  }

  /** `{ ...prev, [postId]: fetched }`: the fetched comments become the entry. */
  function Loaded(m: CommentMap, postId: int, fetched: seq<Comment>): (r: CommentMap)
    ensures Cached(r, postId) && r[postId] == fetched
    ensures OthersUnchanged(m, r, postId)
  {
    m[postId := fetched]
  }

  /** `{ ...prev, [c.postId]: [...(prev[c.postId] || []), c] }`: the created
      comment goes at the end of its post's entry, which is created when
      missing. */
  function Appended(m: CommentMap, c: Comment): (r: CommentMap)
    ensures Cached(r, c.postId)
    ensures |r[c.postId]| == |EntryOr(m, c.postId)| + 1
    ensures r[c.postId][..|EntryOr(m, c.postId)|] == EntryOr(m, c.postId)
    ensures r[c.postId][|EntryOr(m, c.postId)|] == c
    ensures OthersUnchanged(m, r, c.postId)
  {
    var entry := EntryOr(m, c.postId) + [c];
    assert entry[..|entry| - 1] == EntryOr(m, c.postId);
    m[c.postId := entry]
  }

  /** `prev[c.postId].map(x => x.id === c.id ? c : x)`: the server's version
      replaces every comment with its id. None when the post has no entry,
      where indexing it throws. */
  function Updated(m: CommentMap, c: Comment): (r: Option<CommentMap>)
    ensures r.None? <==> !Cached(m, c.postId)
    ensures r.Some? ==> Cached(r.value, c.postId) && OthersUnchanged(m, r.value, c.postId)
    ensures r.Some? ==> |r.value[c.postId]| == |m[c.postId]|
    ensures r.Some? ==> forall i :: 0 <= i < |m[c.postId]| ==>
              r.value[c.postId][i] == if m[c.postId][i].id == c.id then c else m[c.postId][i]
  {
    if c.postId !in m then None
    else Some(m[c.postId := ListOps.ReplaceById(m[c.postId], CommentId, c)])
  }

  /** `prev[postId].filter(x => x.id !== commentId)`. None when the post has no
      entry, where indexing it throws. */
  function Deleted(m: CommentMap, postId: int, commentId: int): (r: Option<CommentMap>)
    ensures r.None? <==> !Cached(m, postId)
    ensures r.Some? ==> Cached(r.value, postId) && OthersUnchanged(m, r.value, postId)
    ensures r.Some? ==> forall i :: 0 <= i < |r.value[postId]| ==>
              r.value[postId][i] in m[postId] && r.value[postId][i].id != commentId
    ensures r.Some? ==> forall i :: 0 <= i < |m[postId]| && m[postId][i].id != commentId ==>
              m[postId][i] in r.value[postId]
    ensures r.Some? ==> r.value[postId] == ListOps.RemoveById(m[postId], CommentId, commentId)
  {
    if postId !in m then None
    else Some(m[postId := ListOps.RemoveById(m[postId], CommentId, commentId)])
  }

  /** `entry.map(x => x.id === liked.id ? { ...liked, likes: x.likes + 1 } : x)`:
      a matching comment takes the server's answer, but its like count is the
      cached count plus one, whatever count the server answered. */
  function LikeMerged(entry: seq<Comment>, liked: Comment): (r: seq<Comment>)
    ensures |r| == |entry|
    ensures forall i :: 0 <= i < |entry| && entry[i].id != liked.id ==> r[i] == entry[i]
    ensures forall i :: 0 <= i < |entry| && entry[i].id == liked.id ==>
              r[i].likes == entry[i].likes + 1 && r[i] == liked.(likes := r[i].likes)
  {
    if entry == [] then []
    else
      var head := if entry[0].id == liked.id then liked.(likes := entry[0].likes + 1) else entry[0];
      [head] + LikeMerged(entry[1..], liked)
  }

  /** The like applied to a post's entry; None when the post has no entry. */
  function Liked(m: CommentMap, postId: int, liked: Comment): (r: Option<CommentMap>)
    ensures r.None? <==> !Cached(m, postId)
    ensures r.Some? ==> Cached(r.value, postId) && OthersUnchanged(m, r.value, postId)
    ensures r.Some? ==> r.value[postId] == LikeMerged(m[postId], liked)
  {
    if postId !in m then None
    else Some(m[postId := LikeMerged(m[postId], liked)])
  }

  /** `comments[postId].find(c => c.id === commentId)` on a loaded post. */
  function FindComment(m: CommentMap, postId: int, commentId: int): (r: Option<Comment>)
    requires Cached(m, postId)
    ensures r.None? <==> forall i :: 0 <= i < |m[postId]| ==> m[postId][i].id != commentId
    ensures r.Some? ==> r.value.id == commentId
    ensures r.Some? ==> exists i :: 0 <= i < |m[postId]| && m[postId][i] == r.value
                                    && forall j :: 0 <= j < i ==> m[postId][j].id != commentId
  {
    ListOps.FindById(m[postId], CommentId, commentId)
  }

  // ---------------------------------------------------------------------------
  // Properties

  /** Deleting a comment just added, whose id its post's entry did not hold yet,
      restores the cache, except that a post without an entry keeps an empty
      one: the next load of that post is then a cache hit. */
  lemma AddThenDelete(m: CommentMap, c: Comment)
    requires forall i :: 0 <= i < |EntryOr(m, c.postId)| ==> EntryOr(m, c.postId)[i].id != c.id
    ensures Deleted(Appended(m, c), c.postId, c.id) == Some(m[c.postId := EntryOr(m, c.postId)])
    ensures Cached(m, c.postId) ==> Deleted(Appended(m, c), c.postId, c.id) == Some(m)
  {
    var before := EntryOr(m, c.postId);
    ListOps.RemoveByIdAppend(before, [c], CommentId, c.id);
    ListOps.RemoveByIdAbsent(before, CommentId, c.id);
    assert ListOps.RemoveById([c], CommentId, c.id) == [];
    assert ListOps.RemoveById(before + [c], CommentId, c.id) == before + [];
    assert before + [] == before;
    assert Appended(m, c) == m[c.postId := before + [c]];
    assert m[c.postId := before + [c]][c.postId := before] == m[c.postId := before];
    assert Cached(m, c.postId) ==> m[c.postId := before] == m;
  }

  /** Deleting twice is deleting once. */
  lemma DeleteIdempotent(m: CommentMap, postId: int, commentId: int)
    requires Cached(m, postId)
    ensures Deleted(Deleted(m, postId, commentId).value, postId, commentId) == Deleted(m, postId, commentId)
  {
    var once := ListOps.RemoveById(m[postId], CommentId, commentId);
    assert forall i :: 0 <= i < |once| ==> CommentId(once[i]) != commentId;
    ListOps.RemoveByIdAbsent(once, CommentId, commentId);
    assert m[postId := once][postId := once] == m[postId := once];
  }

  /** Applying the same server version twice is applying it once. */
  lemma UpdateIdempotent(m: CommentMap, c: Comment)
    requires Cached(m, c.postId)
    ensures Updated(Updated(m, c).value, c) == Updated(m, c)
  {
    var once := ListOps.ReplaceById(m[c.postId], CommentId, c);
    ListOps.ReplaceByIdIdempotent(m[c.postId], CommentId, c);
    assert m[c.postId := once][c.postId := once] == m[c.postId := once];
  }

  /** The like count the server answers with never reaches the cache. */
  lemma {:induction false} LikeIgnoresServerCount(entry: seq<Comment>, liked: Comment, likes: int)
    ensures LikeMerged(entry, liked.(likes := likes)) == LikeMerged(entry, liked)
  {
    if entry != [] {
      LikeIgnoresServerCount(entry[1..], liked, likes);
    }
  }

  /** Liking a comment the entry does not hold changes nothing. */
  lemma {:induction false} LikeOfAbsentIsNoOp(entry: seq<Comment>, liked: Comment)
    requires forall i :: 0 <= i < |entry| ==> entry[i].id != liked.id
    ensures LikeMerged(entry, liked) == entry
  {
    if entry != [] {
      LikeOfAbsentIsNoOp(entry[1..], liked);
    }
  }

  /** Liking twice adds two to the cached count, whatever the server answers. */
  lemma LikeTwice(entry: seq<Comment>, liked: Comment, again: Comment, i: int)
    requires again.id == liked.id
    requires 0 <= i < |entry| && entry[i].id == liked.id
    ensures LikeMerged(LikeMerged(entry, liked), again)[i].likes == entry[i].likes + 2
  {
  }
}
