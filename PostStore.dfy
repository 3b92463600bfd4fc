/**
 * The feed's data layer. The hosted backend is abstracted as three tables of
 * rows (posts, likes, comments); the identity of the caller, the ids and
 * timestamps the backend assigns, and every backend failure the code checks are
 * parameters. Only the decisions written in the data layer are modelled: the
 * authentication and ownership checks, the counts, and the orderings asked for.
 */
module PostStore {
  import opened Common
  import opened Sorting

  /** 'checkin' | 'resultado' | 'nutricao' | 'aviso' | 'momento'. */
  datatype PostType = CheckIn | Outcome | Nutrition | Notice | Moment

  datatype PostRow = PostRow(
    id: string, userId: string, kind: PostType, caption: string,
    imageUrl: Option<string>, imageSecondaryUrl: Option<string>, isVideo: bool,
    nutritionProtein: Option<string>, nutritionCarbs: Option<string>, nutritionKcal: Option<string>,
    createdAt: int)

  datatype LikeRow = LikeRow(id: string, postId: string, userId: string)

  datatype CommentRow = CommentRow(id: string, postId: string, userId: string, content: string, createdAt: int)

  /** The argument of `createPost`; `isVideo` may be left out. */
  datatype NewPost = NewPost(
    caption: string, kind: PostType, imageUrl: Option<string>, imageSecondaryUrl: Option<string>,
    isVideo: Option<bool>, nutritionProtein: Option<string>, nutritionCarbs: Option<string>,
    nutritionKcal: Option<string>)

  /** A post as `getPosts` and `getPost` return it: the row plus three derived values. */
  datatype EnrichedPost = EnrichedPost(post: PostRow, likesCount: nat, commentsCount: nat, userHasLiked: bool)

  /** What the backend can answer instead of data. */
  datatype BackendError =
    | UniqueViolation        // an insert whose primary key is taken
    | NotSingleRow           // `.single()` on a result that is not exactly one row
    | Fault(message: string) // any other failure: network, row-level security, constraints

  /**
   * Which of a post's three follow-up queries failed. Their errors are never
   * looked at: a failed count reads as null and shows as 0, and a failed like
   * lookup yields no row and shows as not liked.
   */
  datatype Lost = Lost(likesCount: bool, commentsCount: bool, likeLookup: bool)

  const NothingLost: Lost := Lost(false, false, false)

  datatype PostsError = NotAuthenticated | NoPermission | Backend(cause: BackendError)

  datatype Status = Done | Failed(error: PostsError)

  const NotAuthenticatedMessage: string := "Usuário não autenticado"
  const NoPermissionMessage: string := "Você não tem permissão para deletar este post"

  /** The message of the thrown error; backend errors are re-thrown as they came. */
  function Message(e: PostsError): string
  {
    match e
    case NotAuthenticated => NotAuthenticatedMessage
    case NoPermission => NoPermissionMessage
    case Backend(Fault(m)) => m
    case Backend(UniqueViolation) => "duplicate key value violates unique constraint"
    case Backend(NotSingleRow) => "JSON object requested, multiple (or no) rows returned"
  }

  predicate HasPost(posts: seq<PostRow>, id: string)
  {
    exists i :: 0 <= i < |posts| && posts[i].id == id
  }

  /** The primary key of the posts table. */
  ghost predicate DistinctIds(posts: seq<PostRow>)
  {
    forall i, j :: 0 <= i < j < |posts| ==> posts[i].id != posts[j].id
  }

  /** `select ... .eq('id', postId)`. */
  function PostsWithId(posts: seq<PostRow>, id: string): (r: seq<PostRow>)
    ensures |r| <= |posts|
    ensures forall k :: 0 <= k < |r| ==> r[k].id == id && r[k] in posts
    ensures |r| == 0 <==> !HasPost(posts, id)
  {
    if posts == [] then []
    else (if posts[0].id == id then [posts[0]] else []) + PostsWithId(posts[1..], id)
  }

  /** With distinct ids, the select by id finds exactly the row that has it. */
  lemma {:induction false} SingleWithDistinctIds(posts: seq<PostRow>, i: int)
    requires DistinctIds(posts) && 0 <= i < |posts|
    ensures PostsWithId(posts, posts[i].id) == [posts[i]]
  {
    if i == 0 {
      NoOtherWithId(posts[1..], posts[0].id);
    } else {
      assert posts[1..][i - 1] == posts[i];
      SingleWithDistinctIds(posts[1..], i - 1);
    }
  }

  /** An id the table holds is found by the select exactly once. */
  lemma HasPostSingle(posts: seq<PostRow>, id: string)
    requires DistinctIds(posts) && HasPost(posts, id)
    ensures |PostsWithId(posts, id)| == 1
  {
    var i :| 0 <= i < |posts| && posts[i].id == id;
    SingleWithDistinctIds(posts, i);
  }

  lemma NoOtherWithId(posts: seq<PostRow>, id: string)
    requires forall k :: 0 <= k < |posts| ==> posts[k].id != id
    ensures PostsWithId(posts, id) == []
  {
  }

  /** `.delete().eq('id', postId)`: every row but the ones carrying the id, in order. */
  function WithoutPost(posts: seq<PostRow>, id: string): (r: seq<PostRow>)
    ensures |r| <= |posts|
    ensures !HasPost(r, id)
    ensures forall k :: 0 <= k < |r| ==> r[k] in posts
    ensures forall p :: p in posts && p.id != id ==> p in r
  {
    if posts == [] then []
    else (if posts[0].id != id then [posts[0]] else []) + WithoutPost(posts[1..], id)
  }

  /** Deleting rows keeps the primary key distinct. */
  lemma {:induction false} WithoutKeepsDistinct(posts: seq<PostRow>, id: string)
    requires DistinctIds(posts)
    ensures DistinctIds(WithoutPost(posts, id))
  {
    if posts != [] {
      WithoutKeepsDistinct(posts[1..], id);
      var rest := WithoutPost(posts[1..], id);
      forall k | 0 <= k < |rest| ensures rest[k].id != posts[0].id {
        var j :| 0 <= j < |posts[1..]| && posts[1..][j] == rest[k];
        assert posts[j + 1] == rest[k];
      }
    }
  }

  /** `count` of `post_likes` rows for the post. */
  function CountLikes(likes: seq<LikeRow>, postId: string): nat
  {
    if likes == [] then 0 else (if likes[0].postId == postId then 1 else 0) + CountLikes(likes[1..], postId)
  }

  /** The rows the viewer's like lookup selects. */
  function CountLikesBy(likes: seq<LikeRow>, postId: string, userId: string): nat
  {
    if likes == [] then 0
    else (if likes[0].postId == postId && likes[0].userId == userId then 1 else 0) + CountLikesBy(likes[1..], postId, userId)
  }

  /** `count` of `post_comments` rows for the post. */
  function CountComments(comments: seq<CommentRow>, postId: string): nat
  {
    if comments == [] then 0 else (if comments[0].postId == postId then 1 else 0) + CountComments(comments[1..], postId)
  }

  /** A like row for the post exists exactly when the count is positive. */
  lemma {:induction false} CountLikesPositive(likes: seq<LikeRow>, postId: string)
    ensures CountLikes(likes, postId) > 0 <==> exists k :: 0 <= k < |likes| && likes[k].postId == postId
  {
    if likes != [] {
      CountLikesPositive(likes[1..], postId);
      if likes[0].postId != postId {
        assert (exists k :: 0 <= k < |likes| && likes[k].postId == postId)
          ==> (exists k :: 0 <= k < |likes[1..]| && likes[1..][k].postId == postId) by {
          if exists k :: 0 <= k < |likes| && likes[k].postId == postId {
            var k :| 0 <= k < |likes| && likes[k].postId == postId;
            assert likes[1..][k - 1] == likes[k];
          }
        }
      }
    }
  }

  /** One more row for the post adds one to its count and nothing to any other's. */
  lemma {:induction false} CountLikesAppend(likes: seq<LikeRow>, row: LikeRow, postId: string)
    ensures CountLikes(likes + [row], postId) == CountLikes(likes, postId) + (if row.postId == postId then 1 else 0)
  {
    if likes != [] {
      assert (likes + [row])[1..] == likes[1..] + [row];
      CountLikesAppend(likes[1..], row, postId);
    }
  }

  lemma {:induction false} CountLikesByAppend(likes: seq<LikeRow>, row: LikeRow, postId: string, userId: string)
    ensures CountLikesBy(likes + [row], postId, userId)
      == CountLikesBy(likes, postId, userId) + (if row.postId == postId && row.userId == userId then 1 else 0)
  {
    if likes != [] {
      assert (likes + [row])[1..] == likes[1..] + [row];
      CountLikesByAppend(likes[1..], row, postId, userId);
    }
  }

  /**
   * The viewer's first like of a post shows as liked; a second like row by the
   * same viewer makes `.single()` fail, so the post reads as not liked again.
   */
  lemma LikeVisibility(p: PostRow, likes: seq<LikeRow>, comments: seq<CommentRow>, userId: string, id1: string, id2: string)
    requires CountLikesBy(likes, p.id, userId) == 0
    ensures var once := likes + [LikeRow(id1, p.id, userId)];
      Enrich(p, once, comments, Some(userId), NothingLost).userHasLiked
      && Enrich(p, once, comments, Some(userId), NothingLost).likesCount == CountLikes(likes, p.id) + 1
      && !Enrich(p, once + [LikeRow(id2, p.id, userId)], comments, Some(userId), NothingLost).userHasLiked
  {
    var once := likes + [LikeRow(id1, p.id, userId)];
    CountLikesByAppend(likes, LikeRow(id1, p.id, userId), p.id, userId);
    CountLikesByAppend(once, LikeRow(id2, p.id, userId), p.id, userId);
    CountLikesAppend(likes, LikeRow(id1, p.id, userId), p.id);
  }

  /** The viewer's likes of a post are among that post's likes. */
  lemma {:induction false} CountLikesByAtMost(likes: seq<LikeRow>, postId: string, userId: string)
    ensures CountLikesBy(likes, postId, userId) <= CountLikes(likes, postId)
  {
    if likes != [] {
      CountLikesByAtMost(likes[1..], postId, userId);
    }
  }

  /** The likes table once the viewer's likes of the post are deleted. */
  function WithoutLikesBy(likes: seq<LikeRow>, postId: string, userId: string): (r: seq<LikeRow>)
    ensures CountLikesBy(r, postId, userId) == 0
    ensures CountLikes(r, postId) + CountLikesBy(likes, postId, userId) == CountLikes(likes, postId)
    ensures forall k :: 0 <= k < |r| ==> r[k] in likes
    ensures forall l :: l in likes && !(l.postId == postId && l.userId == userId) ==> l in r
  {
    if likes == [] then []
    else
      var rest := WithoutLikesBy(likes[1..], postId, userId);
      if likes[0].postId == postId && likes[0].userId == userId then rest
      else
        assert ([likes[0]] + rest)[1..] == rest;
        [likes[0]] + rest
  }

  /** Deleting the viewer's like undoes liking: the table is as before the like. */
  lemma {:induction false} UnlikeUndoesLike(likes: seq<LikeRow>, postId: string, userId: string, id: string)
    requires CountLikesBy(likes, postId, userId) == 0
    ensures WithoutLikesBy(likes + [LikeRow(id, postId, userId)], postId, userId) == likes
  {
    var row := LikeRow(id, postId, userId);
    if likes == [] {
      assert [row][1..] == [];
    } else {
      assert (likes + [row])[0] == likes[0];
      assert (likes + [row])[1..] == likes[1..] + [row];
      UnlikeUndoesLike(likes[1..], postId, userId, id);
      assert [likes[0]] + likes[1..] == likes;
    }
  }

  lemma {:induction false} CountCommentsAppend(comments: seq<CommentRow>, row: CommentRow, postId: string)
    ensures CountComments(comments + [row], postId) == CountComments(comments, postId) + (if row.postId == postId then 1 else 0)
  {
    if comments != [] {
      assert (comments + [row])[1..] == comments[1..] + [row];
      CountCommentsAppend(comments[1..], row, postId);
    }
  }

  /**
   * The derived values of one post. `.single()` yields the like only when
   * exactly one row matches; a follow-up query that failed shows as 0 or false.
   */
  function Enrich(p: PostRow, likes: seq<LikeRow>, comments: seq<CommentRow>, viewer: Option<string>, lost: Lost): (e: EnrichedPost)
    ensures e.post == p
    ensures e.likesCount == if lost.likesCount then 0 else CountLikes(likes, p.id)
    ensures e.commentsCount == if lost.commentsCount then 0 else CountComments(comments, p.id)
    ensures e.userHasLiked <==> !lost.likeLookup && viewer.Some? && CountLikesBy(likes, p.id, viewer.value) == 1
  {
    var like := match viewer { case Some(u) => CountLikesBy(likes, p.id, u) == 1 case None => false };
    EnrichedPost(p,
      if lost.likesCount then 0 else CountLikes(likes, p.id),
      if lost.commentsCount then 0 else CountComments(comments, p.id),
      !lost.likeLookup && like)
  }

  /** A post shown with a failed follow-up query never shows more than the tables hold. */
  lemma LostNeverOverstates(p: PostRow, likes: seq<LikeRow>, comments: seq<CommentRow>, viewer: Option<string>, lost: Lost)
    ensures var e := Enrich(p, likes, comments, viewer, lost); var exact := Enrich(p, likes, comments, viewer, NothingLost);
      e.likesCount <= exact.likesCount && e.commentsCount <= exact.commentsCount
      && (e.userHasLiked ==> exact.userHasLiked)
      && (lost == NothingLost ==> e == exact)
  {
  }

  /** The enrichment of every post; `lost` says, per post id, which follow-up queries failed. */
  function EnrichAll(posts: seq<PostRow>, likes: seq<LikeRow>, comments: seq<CommentRow>, viewer: Option<string>, lost: string -> Lost): (r: seq<EnrichedPost>)
    ensures |r| == |posts|
    ensures forall k :: 0 <= k < |r| ==> r[k] == Enrich(posts[k], likes, comments, viewer, lost(posts[k].id))
  {
    if posts == [] then []
    else [Enrich(posts[0], likes, comments, viewer, lost(posts[0].id))] + EnrichAll(posts[1..], likes, comments, viewer, lost)
  }

  function Rows(enriched: seq<EnrichedPost>): (r: seq<PostRow>)
    ensures |r| == |enriched| && forall k :: 0 <= k < |r| ==> r[k] == enriched[k].post
  {
    seq(|enriched|, k requires 0 <= k < |enriched| => enriched[k].post)
  }

  /** `.order('created_at', { ascending: false })`. */
  function NewestFirst(posts: seq<PostRow>): (r: seq<PostRow>)
    ensures |r| == |posts| && multiset(r) == multiset(posts)
    ensures forall i, j :: 0 <= i < j < |r| ==> r[i].createdAt >= r[j].createdAt
  {
    var r := SortBy(posts, (p: PostRow) => -p.createdAt);
    assert forall i, j :: 0 <= i < j < |r| ==> -r[i].createdAt <= -r[j].createdAt;
    r
  }

  /** `select ... .eq('post_id', postId)` on the comments. */
  function CommentsFor(comments: seq<CommentRow>, postId: string): (r: seq<CommentRow>)
    ensures forall k :: 0 <= k < |r| ==> r[k].postId == postId && r[k] in comments
    ensures forall c :: c in comments && c.postId == postId ==> c in r
    ensures |r| == CountComments(comments, postId)
  {
    if comments == [] then []
    else (if comments[0].postId == postId then [comments[0]] else []) + CommentsFor(comments[1..], postId)
  }

  /** The row `createPost` inserts: the caller owns it and `is_video` defaults to false. */
  function InsertedPost(userId: string, data: NewPost, id: string, now: int): (p: PostRow)
    ensures p.userId == userId && p.id == id && p.createdAt == now
    ensures p.isVideo <==> data.isVideo == Some(true)
    ensures p.caption == data.caption && p.kind == data.kind && p.imageUrl == data.imageUrl
    ensures p.imageSecondaryUrl == data.imageSecondaryUrl
    ensures p.nutritionProtein == data.nutritionProtein && p.nutritionCarbs == data.nutritionCarbs
      && p.nutritionKcal == data.nutritionKcal
  {
    PostRow(id, userId, data.kind, data.caption, data.imageUrl, data.imageSecondaryUrl,
            match data.isVideo { case Some(v) => v case None => false },
            data.nutritionProtein, data.nutritionCarbs, data.nutritionKcal, now)
  }

  class Store {
    var posts: seq<PostRow>
    var likes: seq<LikeRow>
    var comments: seq<CommentRow>

    ghost predicate Valid()
      reads this
    {
      DistinctIds(posts)
    }

    constructor ()
      ensures Valid() && posts == [] && likes == [] && comments == []
    {
      posts, likes, comments := [], [], [];
    }

    /** `createPost`: an authenticated caller inserts one row that it owns. */
    method CreatePost(actor: Option<string>, data: NewPost, newId: string, now: int, fault: Option<BackendError>)
      returns (r: Result<PostRow, PostsError>)
      requires Valid()
      modifies this
      ensures Valid()
      ensures likes == old(likes) && comments == old(comments)
      ensures actor.None? ==> r == Err(NotAuthenticated) && posts == old(posts)
      ensures actor.Some? && fault.Some? ==> r == Err(Backend(fault.value)) && posts == old(posts)
      ensures actor.Some? && fault.None? && HasPost(old(posts), newId) ==>
        r == Err(Backend(UniqueViolation)) && posts == old(posts)
      ensures actor.Some? && fault.None? && !HasPost(old(posts), newId) ==>
        r == Ok(InsertedPost(actor.value, data, newId, now)) && posts == old(posts) + [r.value]
    {
      if actor.None? {
        return Err(NotAuthenticated);
      }
      if fault.Some? {
        return Err(Backend(fault.value));
      }
      if HasPost(posts, newId) {
        return Err(Backend(UniqueViolation));
      }
      var row := InsertedPost(actor.value, data, newId, now);
      posts := posts + [row];
      return Ok(row);
    }

    /**
     * `deletePost`: only the owner may delete. A failed ownership lookup reads as
     * "no post", so it too ends in the permission error.
     */
    method DeletePost(actor: Option<string>, postId: string, lookupFails: bool, fault: Option<BackendError>)
      returns (s: Status)
      requires Valid()
      modifies this
      ensures Valid()
      ensures likes == old(likes) && comments == old(comments)
      ensures actor.None? ==> s == Failed(NotAuthenticated) && posts == old(posts)
      ensures actor.Some? && (lookupFails || !IsOwner(old(posts), postId, actor.value)) ==>
        s == Failed(NoPermission) && posts == old(posts)
      ensures actor.Some? && !lookupFails && IsOwner(old(posts), postId, actor.value) && fault.Some? ==>
        s == Failed(Backend(fault.value)) && posts == old(posts)
      ensures actor.Some? && !lookupFails && IsOwner(old(posts), postId, actor.value) && fault.None? ==>
        s == Done && posts == WithoutPost(old(posts), postId)
    {
      if actor.None? {
        return Failed(NotAuthenticated);
      }
      var found := if lookupFails then [] else PostsWithId(posts, postId);
      if |found| != 1 || found[0].userId != actor.value {
        return Failed(NoPermission);
      }
      if fault.Some? {
        return Failed(Backend(fault.value));
      }
      WithoutKeepsDistinct(posts, postId);
      posts := WithoutPost(posts, postId);
      return Done;
    }

    /** `likePost`: insert one like keyed by the caller; any backend error is re-thrown. */
    method LikePost(actor: Option<string>, postId: string, newId: string, fault: Option<BackendError>)
      returns (s: Status)
      modifies this
      ensures posts == old(posts) && comments == old(comments)
      ensures actor.None? ==> s == Failed(NotAuthenticated) && likes == old(likes)
      ensures actor.Some? && fault.Some? ==> s == Failed(Backend(fault.value)) && likes == old(likes)
      ensures actor.Some? && fault.None? ==> s == Done && likes == old(likes) + [LikeRow(newId, postId, actor.value)]
    {
      if actor.None? {
        return Failed(NotAuthenticated);
      }
      if fault.Some? {
        return Failed(Backend(fault.value));
      }
      likes := likes + [LikeRow(newId, postId, actor.value)];
      return Done;
    }

    /** `addComment`: insert one comment keyed by the caller; any backend error is re-thrown. */
    method AddComment(actor: Option<string>, postId: string, content: string, newId: string, now: int, fault: Option<BackendError>)
      returns (r: Result<CommentRow, PostsError>)
      modifies this
      ensures posts == old(posts) && likes == old(likes)
      ensures actor.None? ==> r == Err(NotAuthenticated) && comments == old(comments)
      ensures actor.Some? && fault.Some? ==> r == Err(Backend(fault.value)) && comments == old(comments)
      ensures actor.Some? && fault.None? ==>
        r == Ok(CommentRow(newId, postId, actor.value, content, now)) && comments == old(comments) + [r.value]
    {
      if actor.None? {
        return Err(NotAuthenticated);
      }
      if fault.Some? {
        return Err(Backend(fault.value));
      }
      var row := CommentRow(newId, postId, actor.value, content, now);
      comments := comments + [row];
      return Ok(row);
    }

    /**
     * `getPosts`: every post, newest first, each with its counts and the
     * viewer's like. `fault` is the main select's error, which is thrown;
     * `lost` gives, per post id, the follow-up queries whose errors are ignored.
     */
    function GetPosts(viewer: Option<string>, fault: Option<BackendError>, lost: string -> Lost): (r: Result<seq<EnrichedPost>, PostsError>)
      reads this
      ensures r.Err? <==> fault.Some?
      ensures r.Err? ==> r.error == Backend(fault.value)
      ensures r.Ok? ==> |r.value| == |posts| && multiset(Rows(r.value)) == multiset(posts)
      ensures r.Ok? ==> forall i, j :: 0 <= i < j < |r.value| ==> r.value[i].post.createdAt >= r.value[j].post.createdAt
      ensures r.Ok? ==> forall k :: 0 <= k < |r.value| ==>
        var id := r.value[k].post.id;
        r.value[k].likesCount == (if lost(id).likesCount then 0 else CountLikes(likes, id))
        && r.value[k].commentsCount == (if lost(id).commentsCount then 0 else CountComments(comments, id))
        && (r.value[k].userHasLiked <==> !lost(id).likeLookup && viewer.Some? && CountLikesBy(likes, id, viewer.value) == 1)
    {
      match fault
      case Some(e) => Err(Backend(e))
      case None =>
        var ordered := NewestFirst(posts);
        var enriched := EnrichAll(ordered, likes, comments, viewer, lost);
        assert Rows(enriched) == ordered;
        Ok(enriched)
    }

    /**
     * `getPost`: the one post with the id, enriched; `.single()` fails when
     * there is none. `lost` says which of its follow-up queries failed unnoticed.
     */
    function GetPost(viewer: Option<string>, postId: string, fault: Option<BackendError>, lost: Lost): (r: Result<EnrichedPost, PostsError>)
      requires Valid()
      reads this
      ensures fault.Some? ==> r == Err(Backend(fault.value))
      ensures fault.None? && !HasPost(posts, postId) ==> r == Err(Backend(NotSingleRow))
      ensures fault.None? && HasPost(posts, postId) ==> r.Ok? && r.value.post in posts && r.value.post.id == postId
      ensures r.Ok? ==> r.value.likesCount == (if lost.likesCount then 0 else CountLikes(likes, postId))
      ensures r.Ok? ==> r.value.commentsCount == (if lost.commentsCount then 0 else CountComments(comments, postId))
      ensures r.Ok? ==> (r.value.userHasLiked <==> !lost.likeLookup && viewer.Some? && CountLikesBy(likes, postId, viewer.value) == 1)
    {
      match fault
      case Some(e) => Err(Backend(e))
      case None =>
        var found := PostsWithId(posts, postId);
        if !HasPost(posts, postId) then Err(Backend(NotSingleRow))
        else
          HasPostSingle(posts, postId);
          Ok(Enrich(found[0], likes, comments, viewer, lost))
    }

    /** `unlikePost`: only looks the like up, never removes it; a failed lookup is thrown. */
    function UnlikePost(actor: Option<string>, postId: string, fault: Option<BackendError>): (s: Status)
      reads this
      ensures actor.None? ==> s == Failed(NotAuthenticated)
      ensures actor.Some? && fault.Some? ==> s == Failed(Backend(fault.value))
      ensures actor.Some? && fault.None? ==>
        (s == Done <==> CountLikesBy(likes, postId, actor.value) == 1)
      ensures s != Done ==> s.error != NoPermission
    {
      match actor
      case None => Failed(NotAuthenticated)
      case Some(u) =>
        match fault
        case Some(e) => Failed(Backend(e))
        case None => if CountLikesBy(likes, postId, u) == 1 then Done else Failed(Backend(NotSingleRow))
    }

    /**
     * The unlike the source's comment and name promise, the inverse of
     * `likePost`: delete the caller's like rows of
     * the post; deleting nothing is not an error.
     */
    method RemoveLike(actor: Option<string>, postId: string, fault: Option<BackendError>) returns (s: Status)
      modifies this
      ensures posts == old(posts) && comments == old(comments)
      ensures actor.None? ==> s == Failed(NotAuthenticated) && likes == old(likes)
      ensures actor.Some? && fault.Some? ==> s == Failed(Backend(fault.value)) && likes == old(likes)
      ensures actor.Some? && fault.None? ==> s == Done && likes == WithoutLikesBy(old(likes), postId, actor.value)
    {
      if actor.None? {
        return Failed(NotAuthenticated);
      }
      if fault.Some? {
        return Failed(Backend(fault.value));
      }
      likes := WithoutLikesBy(likes, postId, actor.value);
      return Done;
    }

    /** `getPostComments`: that post's comments only, oldest first. */
    function GetPostComments(postId: string, fault: Option<BackendError>): (r: Result<seq<CommentRow>, PostsError>)
      reads this
      ensures r.Err? <==> fault.Some?
      ensures r.Ok? ==> |r.value| == CountComments(comments, postId)
      ensures r.Ok? ==> forall k :: 0 <= k < |r.value| ==> r.value[k].postId == postId && r.value[k] in comments
      ensures r.Ok? ==> forall c :: c in comments && c.postId == postId ==> c in r.value
      ensures r.Ok? ==> forall i, j :: 0 <= i < j < |r.value| ==> r.value[i].createdAt <= r.value[j].createdAt
      ensures r.Ok? ==> multiset(r.value) == multiset(CommentsFor(comments, postId))
    {
      match fault
      case Some(e) => Err(Backend(e))
      case None =>
        var mine := CommentsFor(comments, postId);
        var ordered := SortBy(mine, (c: CommentRow) => c.createdAt);
        forall c | c in mine ensures c in ordered {
          SortKeepsMembers(mine, (c: CommentRow) => c.createdAt, c);
        }
        forall k | 0 <= k < |ordered| ensures ordered[k] in mine {
          SortKeepsMembers(mine, (c: CommentRow) => c.createdAt, ordered[k]);
        }
        Ok(ordered)
    }
  }

  /**
   * `unlikePost` as written: for a viewer holding the post's one like it
   * reports success, yet the like is still there, still counted and still
   * shown as the viewer's.
   */
  lemma UnlikeKeepsLike(store: Store, p: PostRow, userId: string)
    requires CountLikesBy(store.likes, p.id, userId) == 1
    ensures store.UnlikePost(Some(userId), p.id, None) == Done
    ensures Enrich(p, store.likes, store.comments, Some(userId), NothingLost).userHasLiked
    ensures Enrich(p, store.likes, store.comments, Some(userId), NothingLost).likesCount >= 1
  {
    CountLikesByAtMost(store.likes, p.id, userId);
  }

  /** Whether the single row with the id belongs to the user, as `deletePost` checks it. */
  predicate IsOwner(posts: seq<PostRow>, postId: string, userId: string)
  {
    var found := PostsWithId(posts, postId);
    |found| == 1 && found[0].userId == userId
  }

  /** With distinct ids, ownership is just "the post exists and the user wrote it". */
  lemma OwnerIsAuthor(posts: seq<PostRow>, i: int, userId: string)
    requires DistinctIds(posts) && 0 <= i < |posts|
    ensures IsOwner(posts, posts[i].id, userId) <==> posts[i].userId == userId
  {
    SingleWithDistinctIds(posts, i);
  }

  /**
   * `getPost` of a post shows it exactly as `getPosts` lists it, when the
   * same follow-up queries fail.
   */
  lemma GetPostAgreesWithFeed(store: Store, viewer: Option<string>, lost: string -> Lost, k: int)
    requires store.Valid()
    requires 0 <= k < |store.posts|
    ensures var feed := store.GetPosts(viewer, None, lost).value;
      store.GetPost(viewer, feed[k].post.id, None, lost(feed[k].post.id)) == Ok(feed[k])
  {
    var feed := store.GetPosts(viewer, None, lost).value;
    var p := feed[k].post;
    assert Rows(feed)[k] == p;
    assert p in multiset(store.posts);
    var r := store.GetPost(viewer, p.id, None, lost(p.id));
    var i :| 0 <= i < |store.posts| && store.posts[i] == p;
    var j :| 0 <= j < |store.posts| && store.posts[j] == r.value.post;
    assert i == j;
  }
}
