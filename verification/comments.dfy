/** The comments slice (src/store/slices/commentsSlice.ts): thunks over the mock
    comment collection `allMockComments`, and the reducer over the per-post cache
    `comments[postId]`. */
module Comments {
  import opened Results
  import opened Text
  import opened Seqs
  import opened Ordering
  import opened Types
  import Seed

  const NotFound := "Comment not found"
  const NotAuthenticated := "User not authenticated"

  /** `allMockComments`: the seed comments followed by three more. */
  const InitialComments: seq<Comment> := Seed.Comments + [
    Comment("3", "This is exactly what our team needed! Thanks for sharing.",
      "1", "3", Seed.Mike, None, 2, false, 1719154800000, 1719154800000),
    Comment("4", "Great point about balance. I always struggle with finding the right amount of detail vs simplicity.",
      "2", "1", Seed.John, None, 1, true, 1719143100000, 1719143100000),
    Comment("5", "Would love to see your package! Do you have a GitHub link?",
      "3", "2", Seed.Sarah, None, 4, false, 1719137700000, 1719137700000)
  ]

  function CreatedAt(c: Comment): int {
    c.createdAt
  }

  function HasId(id: string): Comment -> bool {
    (c: Comment) => c.id == id
  }

  function NotId(id: string): Comment -> bool {
    (c: Comment) => c.id != id
  }

  function OnPost(postId: string): Comment -> bool {
    (c: Comment) => c.postId == postId
  }

  ghost predicate HoldsId(comments: seq<Comment>, id: string) {
    exists i :: 0 <= i < |comments| && comments[i].id == id
  }

  ghost predicate UniqueIds(comments: seq<Comment>) {
    forall i, j :: 0 <= i < j < |comments| ==> comments[i].id != comments[j].id
  }

  ghost predicate LikesNonNegative(comments: seq<Comment>) {
    forall i :: 0 <= i < |comments| ==> comments[i].likesCount >= 0
  }

  /** The comments the mock backend starts from carry distinct ids, non-negative like
      counts and authors drawn from the seed accounts. */
  lemma InitialCommentsWellFormed()
    ensures UniqueIds(InitialComments) && LikesNonNegative(InitialComments)
    ensures Seed.CommentsAuthored(Seed.Users, InitialComments)
  {
  }

  // ---------------------------------------------------------------------------
  // Thunks
  // ---------------------------------------------------------------------------

  /** The payload of `getPostCommentsAsync`. */
  datatype PostComments = PostComments(postId: string, comments: seq<Comment>)

  /** `getPostCommentsAsync`: the post's comments, newest first; comments posted at the
      same instant stay in collection order. */
  function GetPostComments(comments: seq<Comment>, postId: string): (r: PostComments)
    ensures r.postId == postId
    ensures forall c :: c in r.comments <==> c in comments && c.postId == postId
    ensures multiset(r.comments) == multiset(Filter(comments, OnPost(postId)))
    ensures NonIncreasing(r.comments, CreatedAt)
  {
    var mine := Filter(comments, OnPost(postId));
    SortedMembers(mine, CreatedAt);
    PostComments(postId, SortByKeyDesc(mine, CreatedAt))
  }

  /** Among a post's comments with the same timestamp, the fetched list keeps the
      collection's order. */
  lemma FetchIsStable(comments: seq<Comment>, postId: string, t: int)
    ensures Filter(GetPostComments(comments, postId).comments, HasKey(CreatedAt, t))
         == Filter(Filter(comments, OnPost(postId)), HasKey(CreatedAt, t))
  {
    SortIsStable(Filter(comments, OnPost(postId)), CreatedAt, t);
  }

  /** `CreateCommentData`. */
  datatype NewComment = NewComment(content: string, postId: string, parentId: Option<string>)

  /** `createCommentAsync`: appended to the collection (the reducer, in contrast, puts
      it first in the cache). The id is `Date.now().toString()`. */
  function CreateComment(comments: seq<Comment>, currentUser: Option<User>, data: NewComment, now: int)
    : (r: Result<Effect<seq<Comment>, Comment>>)
    ensures r.Err? <==> currentUser.None?
    ensures r.Err? ==> r.error == NotAuthenticated
    ensures r.Ok? ==>
      var c := r.value.payload;
      && c.id == IntToString(now) && c.content == data.content
      && c.postId == data.postId && c.parentId == data.parentId
      && c.authorId == currentUser.value.id && c.author == currentUser.value
      && c.likesCount == 0 && !c.isLiked && c.createdAt == now && c.updatedAt == now
      && r.value.store == comments + [c]
  {
    match currentUser
    case None => Err(NotAuthenticated)
    case Some(user) =>
      var c := Comment(IntToString(now), data.content, data.postId, user.id, user, data.parentId, 0, false, now, now);
      Ok(Effect(comments + [c], c))
  }

  /** `updateCommentAsync`: new content and `updatedAt` on the first comment with the id. */
  function UpdateComment(comments: seq<Comment>, id: string, content: string, now: int)
    : (r: Result<Effect<seq<Comment>, Comment>>)
    ensures r.Err? <==> !HoldsId(comments, id)
    ensures r.Err? ==> r.error == NotFound
    ensures r.Ok? ==>
      var i := FirstIndex(comments, HasId(id)).value;
      && r.value.payload == comments[i].(content := content, updatedAt := now)
      && r.value.store == comments[i := r.value.payload]
  {
    match FirstIndex(comments, HasId(id))
    case None => Err(NotFound)
    case Some(i) =>
      var c := comments[i].(content := content, updatedAt := now);
      Ok(Effect(comments[i := c], c))
  }

  /** The payload of `deleteCommentAsync`. */
  datatype Deleted = Deleted(commentId: string, postId: string)

  /** `deleteCommentAsync`: splices out the first comment with the id and reports the
      post it belonged to. */
  function DeleteComment(comments: seq<Comment>, id: string): (r: Result<Effect<seq<Comment>, Deleted>>)
    ensures r.Err? <==> !HoldsId(comments, id)
    ensures r.Err? ==> r.error == NotFound
    ensures r.Ok? ==>
      var i := FirstIndex(comments, HasId(id)).value;
      && r.value.payload == Deleted(id, comments[i].postId)
      && r.value.store == RemoveAt(comments, i)
  {
    match FirstIndex(comments, HasId(id))
    case None => Err(NotFound)
    case Some(i) => Ok(Effect(RemoveAt(comments, i), Deleted(id, comments[i].postId)))
  }

  /** The like toggle applied to a comment; nothing else about the comment changes. */
  function Toggled(c: Comment): (r: Comment)
    ensures r.isLiked == !c.isLiked && r.likesCount >= 0
    ensures (r.isLiked, r.likesCount) == FlipLike(c.isLiked, c.likesCount)
    ensures r.(isLiked := c.isLiked, likesCount := c.likesCount) == c
  {
    var (liked, count) := FlipLike(c.isLiked, c.likesCount);
    c.(isLiked := liked, likesCount := count)
  }

  /** `toggleLikeCommentAsync`. */
  function ToggleLikeComment(comments: seq<Comment>, id: string): (r: Result<Effect<seq<Comment>, Comment>>)
    ensures r.Err? <==> !HoldsId(comments, id)
    ensures r.Err? ==> r.error == NotFound
    ensures r.Ok? ==>
      var i := FirstIndex(comments, HasId(id)).value;
      && r.value.payload == Toggled(comments[i])
      && r.value.store == comments[i := r.value.payload]
  {
    match FirstIndex(comments, HasId(id))
    case None => Err(NotFound)
    case Some(i) =>
      var c := Toggled(comments[i]);
      Ok(Effect(comments[i := c], c))
  }

  /** Liking and unliking a comment restores the collection, unless it was liked with
      a count of zero (the clamp then leaves it with one like). */
  lemma ToggleLikeCommentTwice(comments: seq<Comment>, id: string)
    requires HoldsId(comments, id) && LikesNonNegative(comments)
    ensures ToggleLikeComment(comments, id).Ok?
    ensures var once := ToggleLikeComment(comments, id).value.store;
      var c := comments[FirstIndex(comments, HasId(id)).value];
      && ToggleLikeComment(once, id).Ok?
      && (ToggleLikeComment(once, id).value.store == comments <==> !(c.isLiked && c.likesCount == 0))
  {
    var i := FirstIndex(comments, HasId(id)).value;
    var once := ToggleLikeComment(comments, id).value.store;
    assert once[i].id == id;
    assert FirstIndex(once, HasId(id)) == Some(i) by {
      forall j | 0 <= j < i ensures !HasId(id)(once[j]) {
        assert once[j] == comments[j];
      }
    }
    var c := comments[i];
    if c.isLiked && c.likesCount == 0 {
      assert ToggleLikeComment(once, id).value.store[i].likesCount == 1;
    } else {
      assert Toggled(Toggled(c)) == c;
    }
  }

  /** `getCommentByIdAsync`: the first comment with the id. */
  function GetCommentById(comments: seq<Comment>, id: string): (r: Result<Comment>)
    ensures r.Ok? <==> HoldsId(comments, id)
    ensures r.Ok? ==> r.value in comments && r.value.id == id
    ensures r.Ok? ==> exists i :: FirstMatch(comments, HasId(id), i) && r.value == comments[i]
    ensures r.Err? ==> r.error == NotFound
  {
    match FirstIndex(comments, HasId(id))
    case None => Err(NotFound)
    case Some(i) => assert FirstMatch(comments, HasId(id), i); Ok(comments[i])
  }

  /** A created comment shows up when its post's comments are fetched, and looking up
      its id yields it when ids were unique before. */
  lemma CreateThenFetch(comments: seq<Comment>, user: User, data: NewComment, now: int)
    ensures var r := CreateComment(comments, Some(user), data, now);
      && r.Ok?
      && r.value.payload in GetPostComments(r.value.store, data.postId).comments
      && (!HoldsId(comments, IntToString(now)) ==> GetCommentById(r.value.store, IntToString(now)) == Ok(r.value.payload))
  {
    var r := CreateComment(comments, Some(user), data, now);
    var c := r.value.payload;
    assert r.value.store[|comments|] == c;
    if !HoldsId(comments, IntToString(now)) {
      assert FirstIndex(r.value.store, HasId(IntToString(now))) == Some(|comments|) by {
        forall j | 0 <= j < |comments| ensures !HasId(IntToString(now))(r.value.store[j]) {
          assert r.value.store[j] == comments[j];
        }
      }
    }
  }

  /** With unique ids a deleted comment is gone from the collection and from every
      post's fetched comments. */
  lemma DeleteThenGone(comments: seq<Comment>, id: string, postId: string)
    requires UniqueIds(comments) && HoldsId(comments, id)
    ensures DeleteComment(comments, id).Ok?
    ensures GetCommentById(DeleteComment(comments, id).value.store, id) == Err(NotFound)
    ensures forall c :: c in GetPostComments(DeleteComment(comments, id).value.store, postId).comments ==> c.id != id
  {
    var i := FirstIndex(comments, HasId(id)).value;
    var rest := DeleteComment(comments, id).value.store;
    assert !HoldsId(rest, id) by {
      forall j | 0 <= j < |rest| ensures rest[j].id != id {
        if j < i {
          assert rest[j] == comments[j];
        } else {
          assert rest[j] == comments[j + 1];
        }
      }
    }
  }

  // ---------------------------------------------------------------------------
  // Slice state and reducer
  // ---------------------------------------------------------------------------

  datatype CommentsState = CommentsState(
    comments: map<string, seq<Comment>>,
    isLoading: bool,
    isCreating: bool,
    error: Option<string>)

  const InitialState := CommentsState(map[], false, false, None)

  /** Every cached list holds only comments of the post it is filed under. */
  ghost predicate Grouped(s: CommentsState) {
    forall k :: k in s.comments ==> forall c :: c in s.comments[k] ==> c.postId == k
  }

  /** `updateCommentInState`: the comment replaces its first copy in its own post's
      list; every other list, and the state outside the cache, is untouched. No list
      is created for a post that has none. */
  function UpdateCommentInState(s: CommentsState, c: Comment): (r: CommentsState)
    ensures r.comments.Keys == s.comments.Keys
    ensures forall k :: k in s.comments && k != c.postId ==> r.comments[k] == s.comments[k]
    ensures c.postId in s.comments ==>
      var before := s.comments[c.postId];
      && |r.comments[c.postId]| == |before|
      && (FirstIndex(before, HasId(c.id)).None? ==> r.comments[c.postId] == before)
      && (FirstIndex(before, HasId(c.id)).Some? ==>
            r.comments[c.postId] == before[FirstIndex(before, HasId(c.id)).value := c])
    ensures r.(comments := s.comments) == s
  {
    if c.postId in s.comments
    then s.(comments := s.comments[c.postId := ReplaceFirst(s.comments[c.postId], HasId(c.id), c)])
    else s
  }

  /** The `deleteCommentAsync.fulfilled` reducer: the id leaves its post's list only. */
  function CommentDeleted(s: CommentsState, d: Deleted): (r: CommentsState)
    ensures r.comments.Keys == s.comments.Keys
    ensures forall k :: k in s.comments && k != d.postId ==> r.comments[k] == s.comments[k]
    ensures d.postId in s.comments ==>
      forall c :: c in r.comments[d.postId] <==> c in s.comments[d.postId] && c.id != d.commentId
    ensures d.postId in s.comments ==> r.comments[d.postId] == Filter(s.comments[d.postId], NotId(d.commentId))
    ensures r.(comments := s.comments) == s
  {
    if d.postId in s.comments
    then s.(comments := s.comments[d.postId := Filter(s.comments[d.postId], NotId(d.commentId))])
    else s
  }

  /** Dropping a comment id works segment by segment and decides each entry on its own,
      so the survivors keep their order and every other comment is kept once. */
  lemma DeleteKeepsOrder(a: seq<Comment>, b: seq<Comment>, x: Comment, id: string)
    ensures Filter(a + b, NotId(id)) == Filter(a, NotId(id)) + Filter(b, NotId(id))
    ensures Filter([x], NotId(id)) == if x.id == id then [] else [x]
  {
    FilterAppend(a, b, NotId(id));
    FilterOne(x, NotId(id));
  }

  /** The actions the comments reducer handles. */
  datatype Action =
    | ClearError
    | ClearCommentsForPost(postId: string)
    | UpdateCommentInStateAction(comment: Comment)
    | FetchPending
    | FetchFulfilled(result: PostComments)
    | FetchRejected(message: string)
    | CreatePending
    | CreateFulfilled(comment: Comment)
    | CreateRejected(message: string)
    | UpdateFulfilled(comment: Comment)
    | DeleteFulfilled(deleted: Deleted)
    | ToggleLikeFulfilled(comment: Comment)

  /** The comments slice reducer. A created comment goes first in its post's list,
      starting one if there is none; a fetch overwrites the post's list; clearing a post
      drops its entry; every rejection records a non-empty error and keeps the cache. */
  function Reduce(s: CommentsState, a: Action): (r: CommentsState)
    ensures a.CreateFulfilled? ==>
      var p := a.comment.postId;
      && p in r.comments
      && r.comments[p] == [a.comment] + (if p in s.comments then s.comments[p] else [])
      && !r.isCreating && r.error.None?
    ensures a.FetchFulfilled? ==> r.comments == s.comments[a.result.postId := a.result.comments]
    ensures a.ClearCommentsForPost? ==>
      && a.postId !in r.comments
      && forall k :: k in s.comments && k != a.postId ==> k in r.comments && r.comments[k] == s.comments[k]
    ensures a.FetchRejected? || a.CreateRejected? ==>
      r.error.Some? && r.error.value != "" && r.comments == s.comments
  {
    match a
    case ClearError => s.(error := None)
    case ClearCommentsForPost(p) => s.(comments := s.comments - {p})
    case UpdateCommentInStateAction(c) => UpdateCommentInState(s, c)
    case FetchPending => s.(isLoading := true, error := None)
    case FetchFulfilled(result) =>
      s.(isLoading := false, comments := s.comments[result.postId := result.comments], error := None)
    case FetchRejected(m) => s.(isLoading := false, error := Some(ErrorOr(m, "Failed to fetch comments")))
    case CreatePending => s.(isCreating := true, error := None)
    case CreateFulfilled(c) =>
      var current := if c.postId in s.comments then s.comments[c.postId] else [];
      s.(isCreating := false, comments := s.comments[c.postId := [c] + current], error := None)
    case CreateRejected(m) => s.(isCreating := false, error := Some(ErrorOr(m, "Failed to create comment")))
    case UpdateFulfilled(c) => UpdateCommentInState(s, c)
    case DeleteFulfilled(d) => CommentDeleted(s, d)
    case ToggleLikeFulfilled(c) => UpdateCommentInState(s, c)
  }

  /** A fetched list is filed under the post it was fetched for. */
  ghost predicate PayloadGrouped(a: Action) {
    a.FetchFulfilled? ==> forall c :: c in a.result.comments ==> c.postId == a.result.postId
  }

  /** Every list is keyed by its comments' post: the reducer files each comment under
      its own `postId`, and fetch payloads are grouped by construction. */
  lemma ReducePreservesGrouped(s: CommentsState, a: Action)
    requires Grouped(s) && PayloadGrouped(a)
    ensures Grouped(Reduce(s, a))
  {
    var r := Reduce(s, a);
    match a
    case UpdateCommentInStateAction(c) => ReplaceKeepsGrouped(s, c);
    case UpdateFulfilled(c) => ReplaceKeepsGrouped(s, c);
    case ToggleLikeFulfilled(c) => ReplaceKeepsGrouped(s, c);
    case _ =>
  }

  lemma ReplaceKeepsGrouped(s: CommentsState, c: Comment)
    requires Grouped(s)
    ensures Grouped(UpdateCommentInState(s, c))
  {
    var r := UpdateCommentInState(s, c);
    if c.postId in s.comments {
      var before := s.comments[c.postId];
      forall x | x in r.comments[c.postId] ensures x.postId == c.postId {
        var j :| 0 <= j < |r.comments[c.postId]| && r.comments[c.postId][j] == x;
        assert x == before[j] || x == c;
      }
    }
  }

  /** The payload `getPostCommentsAsync` resolves with keeps the cache grouped. */
  lemma FetchedPayloadIsGrouped(comments: seq<Comment>, postId: string)
    ensures PayloadGrouped(FetchFulfilled(GetPostComments(comments, postId)))
  {
  }

  /** The mock collection and the slice state together. */
  datatype World = World(comments: seq<Comment>, state: CommentsState)

  /** Dispatching `createCommentAsync`: on success the collection gains the comment at
      its end while the cache shows it first in its post's list; without a user the
      rejection records the message and nothing else changes in the cache. */
  function DispatchCreate(w: World, currentUser: Option<User>, data: NewComment, now: int): (r: World)
    ensures currentUser.Some? ==>
      && |r.comments| == |w.comments| + 1 && r.comments[..|w.comments|] == w.comments
      && var c := r.comments[|w.comments|];
      && c.postId == data.postId && c.id == IntToString(now)
      && data.postId in r.state.comments && |r.state.comments[data.postId]| > 0
      && r.state.comments[data.postId][0] == c
    ensures currentUser.None? ==>
      && r.comments == w.comments && r.state.comments == w.state.comments
      && r.state.error == Some(NotAuthenticated)
  {
    match CreateComment(w.comments, currentUser, data, now)
    case Ok(e) => World(e.store, Reduce(w.state, CreateFulfilled(e.payload)))
    case Err(m) => World(w.comments, Reduce(w.state, CreateRejected(m)))
  }
}
