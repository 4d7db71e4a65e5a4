/** The follows slice (src/store/slices/followsSlice.ts): thunks over the mock follow
    graph `mockFollowRelationships`, the lists derived from it, and the reducer over
    the per-user caches. */
module Follows {
  import opened Results
  import opened Text
  import opened Seqs
  import opened Types

  const NotAuthenticated := "User not authenticated"
  const SelfFollow := "Cannot follow yourself"
  const AlreadyFollowing := "Already following this user"
  const NotFollowing := "Not following this user"

  /** `mockFollowRelationships`: 1 follows 2, 2 follows 3, 3 follows 1, 1 follows 3. */
  const InitialEdges: seq<FollowEdge> := [
    FollowEdge("1", "1", "2", 1717236000000),
    FollowEdge("2", "2", "3", 1717326000000),
    FollowEdge("3", "3", "1", 1717416000000),
    FollowEdge("4", "1", "3", 1717506000000)
  ]

  /** The edge from `a` to `b`. */
  function Pair(a: string, b: string): FollowEdge -> bool {
    (e: FollowEdge) => e.followerId == a && e.followingId == b
  }

  /** Edges into `u` (its followers). */
  function Into(u: string): FollowEdge -> bool {
    (e: FollowEdge) => e.followingId == u
  }

  /** Edges out of `u` (whom it follows). */
  function OutOf(u: string): FollowEdge -> bool {
    (e: FollowEdge) => e.followerId == u
  }

  /** `a` follows `b` in the graph. */
  ghost predicate Follows(edges: seq<FollowEdge>, a: string, b: string) {
    exists i :: 0 <= i < |edges| && edges[i].followerId == a && edges[i].followingId == b
  }

  /** No one follows themselves and no ordered pair appears twice. */
  ghost predicate WellFormed(edges: seq<FollowEdge>) {
    && (forall i :: 0 <= i < |edges| ==> edges[i].followerId != edges[i].followingId)
    && (forall i, j :: 0 <= i < j < |edges| ==>
          edges[i].followerId != edges[j].followerId || edges[i].followingId != edges[j].followingId)
  }

  /** The seed graph is well formed. */
  lemma SeedWellFormed()
    ensures WellFormed(InitialEdges)
  {
  }

  lemma FirstIndexFollows(edges: seq<FollowEdge>, a: string, b: string)
    ensures FirstIndex(edges, Pair(a, b)).Some? <==> Follows(edges, a, b)
  {
    if Follows(edges, a, b) {
      var i :| 0 <= i < |edges| && edges[i].followerId == a && edges[i].followingId == b;
      assert Pair(a, b)(edges[i]);
    }
  }

  // ---------------------------------------------------------------------------
  // Follow and unfollow
  // ---------------------------------------------------------------------------

  /** The payload of the follow and unfollow thunks. */
  datatype FollowResult = FollowResult(userId: string, isFollowing: bool)

  /** `followUserAsync`: the three guards in order, then one new edge at the end. The
      edge id is `Date.now().toString()`. */
  function Follow(edges: seq<FollowEdge>, currentUser: Option<User>, userId: string, now: int)
    : (r: Result<Effect<seq<FollowEdge>, FollowResult>>)
    ensures currentUser.None? ==> r == Err(NotAuthenticated)
    ensures currentUser.Some? && currentUser.value.id == userId ==> r == Err(SelfFollow)
    ensures currentUser.Some? && currentUser.value.id != userId && Follows(edges, currentUser.value.id, userId) ==>
      r == Err(AlreadyFollowing)
    ensures r.Ok? <==>
      currentUser.Some? && currentUser.value.id != userId && !Follows(edges, currentUser.value.id, userId)
    ensures r.Ok? ==>
      && r.value.store == edges + [FollowEdge(IntToString(now), currentUser.value.id, userId, now)]
      && r.value.payload == FollowResult(userId, true)
  {
    FirstIndexFollows(edges, if currentUser.Some? then currentUser.value.id else "", userId);
    match currentUser
    case None => Err(NotAuthenticated)
    case Some(user) =>
      if user.id == userId then Err(SelfFollow)
      else if FirstIndex(edges, Pair(user.id, userId)).Some? then Err(AlreadyFollowing)
      else Ok(Effect(edges + [FollowEdge(IntToString(now), user.id, userId, now)], FollowResult(userId, true)))
  }

  /** `unfollowUserAsync`: splices out the first edge from the current user to the
      target. */
  function Unfollow(edges: seq<FollowEdge>, currentUser: Option<User>, userId: string)
    : (r: Result<Effect<seq<FollowEdge>, FollowResult>>)
    ensures currentUser.None? ==> r == Err(NotAuthenticated)
    ensures currentUser.Some? && !Follows(edges, currentUser.value.id, userId) ==> r == Err(NotFollowing)
    ensures r.Ok? <==> currentUser.Some? && Follows(edges, currentUser.value.id, userId)
    ensures r.Ok? ==>
      && r.value.store == RemoveAt(edges, FirstIndex(edges, Pair(currentUser.value.id, userId)).value)
      && r.value.payload == FollowResult(userId, false)
  {
    FirstIndexFollows(edges, if currentUser.Some? then currentUser.value.id else "", userId);
    match currentUser
    case None => Err(NotAuthenticated)
    case Some(user) =>
      match FirstIndex(edges, Pair(user.id, userId))
      case None => Err(NotFollowing)
      case Some(i) => Ok(Effect(RemoveAt(edges, i), FollowResult(userId, false)))
  }

  /** A follow adds exactly the pair (current user, target) to the graph. */
  lemma FollowAddsPair(edges: seq<FollowEdge>, user: User, userId: string, now: int, a: string, b: string)
    requires Follow(edges, Some(user), userId, now).Ok?
    ensures Follows(Follow(edges, Some(user), userId, now).value.store, a, b) <==>
      Follows(edges, a, b) || (a == user.id && b == userId)
  {
    var after := Follow(edges, Some(user), userId, now).value.store;
    if Follows(after, a, b) {
      var i :| 0 <= i < |after| && after[i].followerId == a && after[i].followingId == b;
      if i < |edges| {
        assert edges[i] == after[i];
      }
    }
    if Follows(edges, a, b) {
      var i :| 0 <= i < |edges| && edges[i].followerId == a && edges[i].followingId == b;
      assert after[i] == edges[i];
    }
    if a == user.id && b == userId {
      assert after[|edges|].followerId == a && after[|edges|].followingId == b;
    }
  }

  /** A follow keeps the graph free of self-edges and duplicate pairs. */
  lemma FollowKeepsWellFormed(edges: seq<FollowEdge>, user: User, userId: string, now: int)
    requires WellFormed(edges) && Follow(edges, Some(user), userId, now).Ok?
    ensures WellFormed(Follow(edges, Some(user), userId, now).value.store)
  {
    var after := Follow(edges, Some(user), userId, now).value.store;
    forall i, j | 0 <= i < j < |after|
      ensures after[i].followerId != after[j].followerId || after[i].followingId != after[j].followingId
    {
      if j == |edges| {
        assert after[i] == edges[i];
      }
    }
  }

  /** Unfollowing only ever removes an edge, whatever the shape of the edge list. */
  lemma UnfollowOnlyRemoves(edges: seq<FollowEdge>, user: User, userId: string, a: string, b: string)
    requires Unfollow(edges, Some(user), userId).Ok?
    ensures Follows(Unfollow(edges, Some(user), userId).value.store, a, b) ==> Follows(edges, a, b)
  {
    var k := FirstIndex(edges, Pair(user.id, userId)).value;
    var after := Unfollow(edges, Some(user), userId).value.store;
    if Follows(after, a, b) {
      var i :| 0 <= i < |after| && after[i].followerId == a && after[i].followingId == b;
      var j := if i < k then i else i + 1;
      assert after[i] == edges[j];
    }
  }

  /** With a well-formed graph an unfollow removes exactly the pair (current user,
      target): every other pair keeps its status. */
  lemma UnfollowRemovesPair(edges: seq<FollowEdge>, user: User, userId: string, a: string, b: string)
    requires WellFormed(edges) && Unfollow(edges, Some(user), userId).Ok?
    ensures Follows(Unfollow(edges, Some(user), userId).value.store, a, b) <==>
      Follows(edges, a, b) && !(a == user.id && b == userId)
  {
    var k := FirstIndex(edges, Pair(user.id, userId)).value;
    var after := Unfollow(edges, Some(user), userId).value.store;
    if Follows(after, a, b) {
      var i :| 0 <= i < |after| && after[i].followerId == a && after[i].followingId == b;
      var j := if i < k then i else i + 1;
      assert after[i] == edges[j];
      assert j != k;
    }
    if Follows(edges, a, b) && !(a == user.id && b == userId) {
      var i :| 0 <= i < |edges| && edges[i].followerId == a && edges[i].followingId == b;
      assert i != k;
      if i < k {
        assert after[i] == edges[i];
      } else {
        assert after[i - 1] == edges[i];
      }
    }
  }

  /** An unfollow keeps the graph well formed. */
  lemma UnfollowKeepsWellFormed(edges: seq<FollowEdge>, user: User, userId: string)
    requires WellFormed(edges) && Unfollow(edges, Some(user), userId).Ok?
    ensures WellFormed(Unfollow(edges, Some(user), userId).value.store)
  {
    var k := FirstIndex(edges, Pair(user.id, userId)).value;
    var after := Unfollow(edges, Some(user), userId).value.store;
    forall i, j | 0 <= i < j < |after|
      ensures after[i].followerId != after[j].followerId || after[i].followingId != after[j].followingId
    {
      var i' := if i < k then i else i + 1;
      var j' := if j < k then j else j + 1;
      assert after[i] == edges[i'] && after[j] == edges[j'];
    }
  }

  /** Following and then unfollowing the same user gives back the original edge list. */
  lemma FollowThenUnfollow(edges: seq<FollowEdge>, user: User, userId: string, now: int)
    requires Follow(edges, Some(user), userId, now).Ok?
    ensures var after := Follow(edges, Some(user), userId, now).value.store;
      Unfollow(after, Some(user), userId) == Ok(Effect(edges, FollowResult(userId, false)))
  {
    var after := Follow(edges, Some(user), userId, now).value.store;
    FollowAddsPair(edges, user, userId, now, user.id, userId);
    FirstIndexFollows(edges, user.id, userId);
    assert FirstIndex(after, Pair(user.id, userId)) == Some(|edges|) by {
      forall j | 0 <= j < |edges| ensures !Pair(user.id, userId)(after[j]) {
        assert after[j] == edges[j];
      }
    }
    assert RemoveAt(after, |edges|) == edges;
  }

  /** `toggleFollowUserAsync`: delegates to unfollow when the pair exists and to follow
      otherwise. */
  function ToggleFollow(edges: seq<FollowEdge>, currentUser: Option<User>, userId: string, now: int)
    : (r: Result<Effect<seq<FollowEdge>, FollowResult>>)
    ensures currentUser.None? ==> r == Err(NotAuthenticated)
    ensures currentUser.Some? && Follows(edges, currentUser.value.id, userId) ==> r == Unfollow(edges, currentUser, userId)
    ensures currentUser.Some? && !Follows(edges, currentUser.value.id, userId) ==> r == Follow(edges, currentUser, userId, now)
  {
    FirstIndexFollows(edges, if currentUser.Some? then currentUser.value.id else "", userId);
    match currentUser
    case None => Err(NotAuthenticated)
    case Some(user) =>
      if FirstIndex(edges, Pair(user.id, userId)).Some? then Unfollow(edges, currentUser, userId)
      else Follow(edges, currentUser, userId, now)
  }

  /** A successful toggle flips whether the current user follows the target, and its
      payload reports the new state; it fails only without a user or when a user who
      does not follow themselves tries to. */
  lemma ToggleFlips(edges: seq<FollowEdge>, user: User, userId: string, now: int)
    requires WellFormed(edges)
    ensures var r := ToggleFollow(edges, Some(user), userId, now);
      && (r.Err? <==> user.id == userId)
      && (r.Ok? ==>
            && (Follows(r.value.store, user.id, userId) <==> !Follows(edges, user.id, userId))
            && r.value.payload.isFollowing == Follows(r.value.store, user.id, userId))
  {
    var r := ToggleFollow(edges, Some(user), userId, now);
    if Follows(edges, user.id, userId) {
      var i :| 0 <= i < |edges| && edges[i].followerId == user.id && edges[i].followingId == userId;
      assert user.id != userId;
      UnfollowRemovesPair(edges, user, userId, user.id, userId);
    } else if user.id != userId {
      FollowAddsPair(edges, user, userId, now, user.id, userId);
    }
  }

  // ---------------------------------------------------------------------------
  // Status, lists and counts derived from the graph
  // ---------------------------------------------------------------------------

  /** The payload of `getFollowStatusAsync`. */
  datatype StatusResult = StatusResult(userId: string, status: FollowStatus)

  /** `getFollowStatusAsync`: all false for a visitor, otherwise both directions of the
      relation and their conjunction. */
  function GetFollowStatus(edges: seq<FollowEdge>, currentUser: Option<User>, userId: string): (r: StatusResult)
    ensures r.userId == userId
    ensures currentUser.None? ==> r.status == FollowStatus(false, false, false)
    ensures currentUser.Some? ==>
      && (r.status.isFollowing <==> Follows(edges, currentUser.value.id, userId))
      && (r.status.isFollower <==> Follows(edges, userId, currentUser.value.id))
    ensures r.status.isMutual <==> r.status.isFollowing && r.status.isFollower
  {
    match currentUser
    case None => StatusResult(userId, FollowStatus(false, false, false))
    case Some(user) =>
      FirstIndexFollows(edges, user.id, userId);
      FirstIndexFollows(edges, userId, user.id);
      var following := FirstIndex(edges, Pair(user.id, userId)).Some?;
      var follower := FirstIndex(edges, Pair(userId, user.id)).Some?;
      StatusResult(userId, FollowStatus(following, follower, following && follower))
  }

  /** The ids at one end of the edges selected by `p`: `filter(p).map(end)`. */
  function Ends(edges: seq<FollowEdge>, p: FollowEdge -> bool, end: FollowEdge -> string): (ids: seq<string>)
    ensures forall x :: x in ids <==> exists e :: e in edges && p(e) && end(e) == x
  {
    var chosen := Filter(edges, p);
    var ids := Map(chosen, end);
    assert forall x :: x in ids ==> exists e :: e in edges && p(e) && end(e) == x by {
      forall x | x in ids ensures exists e :: e in edges && p(e) && end(e) == x {
        var i :| 0 <= i < |ids| && ids[i] == x;
        assert chosen[i] in edges && p(chosen[i]);
      }
    }
    assert forall x :: (exists e :: e in edges && p(e) && end(e) == x) ==> x in ids by {
      forall x | exists e :: e in edges && p(e) && end(e) == x ensures x in ids {
        var e :| e in edges && p(e) && end(e) == x;
        assert e in chosen;
        var i :| 0 <= i < |chosen| && chosen[i] == e;
        assert ids[i] == x;
      }
    }
    ids
  }

  function Follower(e: FollowEdge): string {
    e.followerId
  }

  function Followee(e: FollowEdge): string {
    e.followingId
  }

  function IdIn(ids: seq<string>): User -> bool {
    (u: User) => u.id in ids
  }

  /** The accounts the lists keep, stated through the follow relation itself. */
  ghost function FollowerOf(edges: seq<FollowEdge>, userId: string): User -> bool {
    (u: User) => Follows(edges, u.id, userId)
  }

  ghost function FollowedBy(edges: seq<FollowEdge>, userId: string): User -> bool {
    (u: User) => Follows(edges, userId, u.id)
  }

  ghost function FollowedByBoth(edges: seq<FollowEdge>, a: string, b: string): User -> bool {
    (u: User) => Follows(edges, a, u.id) && Follows(edges, b, u.id)
  }

  lemma EdgeFollows(edges: seq<FollowEdge>, e: FollowEdge)
    requires e in edges
    ensures Follows(edges, e.followerId, e.followingId)
  {
    var i :| 0 <= i < |edges| && edges[i] == e;
  }

  /** `getUserFollowersAsync`: the accounts following `userId`, in account order. */
  function Followers(users: seq<User>, edges: seq<FollowEdge>, userId: string): (r: seq<User>)
    ensures |r| <= |users|
    ensures forall x :: x in r <==> x in users && Follows(edges, x.id, userId)
    ensures r == Filter(users, FollowerOf(edges, userId))
  {
    var ids := Ends(edges, Into(userId), Follower);
    forall x: User ensures x.id in ids <==> Follows(edges, x.id, userId) {
      if Follows(edges, x.id, userId) {
        var i :| 0 <= i < |edges| && edges[i].followerId == x.id && edges[i].followingId == userId;
        assert edges[i] in edges && Into(userId)(edges[i]) && Follower(edges[i]) == x.id;
      }
      if x.id in ids {
        var e :| e in edges && Into(userId)(e) && Follower(e) == x.id;
        EdgeFollows(edges, e);
      }
    }
    FilterAgree(users, IdIn(ids), FollowerOf(edges, userId));
    Filter(users, IdIn(ids))
  }

  /** `getUserFollowingAsync`: the accounts `userId` follows, in account order. */
  function Following(users: seq<User>, edges: seq<FollowEdge>, userId: string): (r: seq<User>)
    ensures |r| <= |users|
    ensures forall x :: x in r <==> x in users && Follows(edges, userId, x.id)
    ensures r == Filter(users, FollowedBy(edges, userId))
  {
    var ids := Ends(edges, OutOf(userId), Followee);
    forall x: User ensures x.id in ids <==> Follows(edges, userId, x.id) {
      if Follows(edges, userId, x.id) {
        var i :| 0 <= i < |edges| && edges[i].followerId == userId && edges[i].followingId == x.id;
        assert edges[i] in edges && OutOf(userId)(edges[i]) && Followee(edges[i]) == x.id;
      }
      if x.id in ids {
        var e :| e in edges && OutOf(userId)(e) && Followee(e) == x.id;
        EdgeFollows(edges, e);
      }
    }
    FilterAgree(users, IdIn(ids), FollowedBy(edges, userId));
    Filter(users, IdIn(ids))
  }

  /** `getMutualFollowsAsync`: the accounts both the current user and `userId` follow;
      empty for a visitor. */
  function MutualFollows(users: seq<User>, edges: seq<FollowEdge>, currentUser: Option<User>, userId: string)
    : (r: seq<User>)
    ensures |r| <= |users|
    ensures currentUser.None? ==> r == []
    ensures currentUser.Some? ==>
      forall x :: x in r <==> x in users && Follows(edges, currentUser.value.id, x.id) && Follows(edges, userId, x.id)
    ensures currentUser.Some? ==> r == Filter(users, FollowedByBoth(edges, currentUser.value.id, userId))
  {
    match currentUser
    case None => []
    case Some(user) =>
      var mine := Ends(edges, OutOf(user.id), Followee);
      var theirs := Ends(edges, OutOf(userId), Followee);
      var both := Filter(mine, (id: string) => id in theirs);
      forall x: User ensures x.id in both <==> Follows(edges, user.id, x.id) && Follows(edges, userId, x.id) {
        if Follows(edges, user.id, x.id) && Follows(edges, userId, x.id) {
          var i :| 0 <= i < |edges| && edges[i].followerId == user.id && edges[i].followingId == x.id;
          assert edges[i] in edges && OutOf(user.id)(edges[i]) && Followee(edges[i]) == x.id;
          var j :| 0 <= j < |edges| && edges[j].followerId == userId && edges[j].followingId == x.id;
          assert edges[j] in edges && OutOf(userId)(edges[j]) && Followee(edges[j]) == x.id;
        }
        if x.id in both {
          var e :| e in edges && OutOf(user.id)(e) && Followee(e) == x.id;
          EdgeFollows(edges, e);
          var f :| f in edges && OutOf(userId)(f) && Followee(f) == x.id;
          EdgeFollows(edges, f);
        }
      }
      FilterAgree(users, IdIn(both), FollowedByBoth(edges, user.id, userId));
      Filter(users, IdIn(both))
  }

  /** No edge points into `u` exactly when no one follows `u`. */
  lemma NoEdgesInto(edges: seq<FollowEdge>, userId: string)
    ensures (forall i :: 0 <= i < |edges| ==> !Into(userId)(edges[i])) <==> forall a :: !Follows(edges, a, userId)
  {
    if exists a :: Follows(edges, a, userId) {
      var a :| Follows(edges, a, userId);
      var i :| 0 <= i < |edges| && edges[i].followerId == a && edges[i].followingId == userId;
      assert Into(userId)(edges[i]);
    }
    if exists i :: 0 <= i < |edges| && Into(userId)(edges[i]) {
      var i :| 0 <= i < |edges| && Into(userId)(edges[i]);
      assert Follows(edges, edges[i].followerId, userId);
    }
  }

  /** No edge leaves `u` exactly when `u` follows no one. */
  lemma NoEdgesOutOf(edges: seq<FollowEdge>, userId: string)
    ensures (forall i :: 0 <= i < |edges| ==> !OutOf(userId)(edges[i])) <==> forall b :: !Follows(edges, userId, b)
  {
    if exists b :: Follows(edges, userId, b) {
      var b :| Follows(edges, userId, b);
      var i :| 0 <= i < |edges| && edges[i].followerId == userId && edges[i].followingId == b;
      assert OutOf(userId)(edges[i]);
    }
    if exists i :: 0 <= i < |edges| && OutOf(userId)(edges[i]) {
      var i :| 0 <= i < |edges| && OutOf(userId)(edges[i]);
      assert Follows(edges, userId, edges[i].followingId);
    }
  }

  /** The payload of `getFollowCountsAsync`. */
  datatype FollowCounts = FollowCounts(userId: string, followersCount: int, followingCount: int)

  /** `getFollowCountsAsync`: the number of edges into and out of `userId`. */
  function GetFollowCounts(edges: seq<FollowEdge>, userId: string): (r: FollowCounts)
    ensures r.userId == userId
    ensures 0 <= r.followersCount <= |edges| && 0 <= r.followingCount <= |edges|
    ensures r.followersCount == 0 <==> forall a :: !Follows(edges, a, userId)
    ensures r.followingCount == 0 <==> forall b :: !Follows(edges, userId, b)
    ensures r.followersCount == |set i | 0 <= i < |edges| && edges[i].followingId == userId|
    ensures r.followingCount == |set i | 0 <= i < |edges| && edges[i].followerId == userId|
  {
    assert Count(edges, Into(userId)) == |set i | 0 <= i < |edges| && edges[i].followingId == userId| by {
      assert Positions(edges, Into(userId)) == set i | 0 <= i < |edges| && edges[i].followingId == userId;
    }
    assert Count(edges, OutOf(userId)) == |set i | 0 <= i < |edges| && edges[i].followerId == userId| by {
      assert Positions(edges, OutOf(userId)) == set i | 0 <= i < |edges| && edges[i].followerId == userId;
    }
    NoEdgesInto(edges, userId);
    NoEdgesOutOf(edges, userId);
    FollowCounts(userId, Count(edges, Into(userId)), Count(edges, OutOf(userId)))
  }

  /** A follow raises the target's follower count and the current user's following
      count by one and leaves every other count as it was. */
  lemma FollowChangesCounts(edges: seq<FollowEdge>, user: User, userId: string, now: int, u: string)
    requires Follow(edges, Some(user), userId, now).Ok?
    ensures var after := Follow(edges, Some(user), userId, now).value.store;
      && GetFollowCounts(after, u).followersCount == GetFollowCounts(edges, u).followersCount + (if u == userId then 1 else 0)
      && GetFollowCounts(after, u).followingCount == GetFollowCounts(edges, u).followingCount + (if u == user.id then 1 else 0)
  {
    var e := FollowEdge(IntToString(now), user.id, userId, now);
    CountAppend(edges, [e], Into(u));
    CountAppend(edges, [e], OutOf(u));
    assert Filter([e], Into(u)) == (if u == userId then [e] else []);
    assert Filter([e], OutOf(u)) == (if u == user.id then [e] else []);
  }

  /** An unfollow lowers the two counts it touches by one and leaves the rest. */
  lemma UnfollowChangesCounts(edges: seq<FollowEdge>, user: User, userId: string, u: string)
    requires Unfollow(edges, Some(user), userId).Ok?
    ensures var after := Unfollow(edges, Some(user), userId).value.store;
      && GetFollowCounts(after, u).followersCount == GetFollowCounts(edges, u).followersCount - (if u == userId then 1 else 0)
      && GetFollowCounts(after, u).followingCount == GetFollowCounts(edges, u).followingCount - (if u == user.id then 1 else 0)
  {
    var k := FirstIndex(edges, Pair(user.id, userId)).value;
    var e := edges[k];
    assert edges == edges[..k] + [e] + edges[k + 1..];
    assert RemoveAt(edges, k) == edges[..k] + edges[k + 1..];
    CountAppend(edges[..k] + [e], edges[k + 1..], Into(u));
    CountAppend(edges[..k], [e], Into(u));
    CountAppend(edges[..k], edges[k + 1..], Into(u));
    CountAppend(edges[..k] + [e], edges[k + 1..], OutOf(u));
    CountAppend(edges[..k], [e], OutOf(u));
    CountAppend(edges[..k], edges[k + 1..], OutOf(u));
    assert Filter([e], Into(u)) == (if u == userId then [e] else []);
    assert Filter([e], OutOf(u)) == (if u == user.id then [e] else []);
  }

  // ---------------------------------------------------------------------------
  // Slice state and reducer
  // ---------------------------------------------------------------------------

  /** A cached follow status. The reducers spread into a possibly missing entry, so a
      cached entry can lack fields: each is optional. */
  datatype CachedStatus = CachedStatus(isFollowing: Option<bool>, isFollower: Option<bool>, isMutual: Option<bool>)

  const NoStatus := CachedStatus(None, None, None)

  datatype FollowsState = FollowsState(
    followers: map<string, seq<User>>,
    following: map<string, seq<User>>,
    followStatus: map<string, CachedStatus>,
    mutualFollows: map<string, seq<User>>,
    isLoading: bool,
    error: Option<string>)

  const InitialState := FollowsState(map[], map[], map[], map[], false, None)

  /** `state.followStatus[userId]`, an empty object when absent (spreading `undefined`
      adds nothing). */
  function StatusOf(s: FollowsState, userId: string): CachedStatus {
    if userId in s.followStatus then s.followStatus[userId] else NoStatus
  }

  /** `{ ...current, ...patch }` on cached statuses. */
  function MergeStatus(current: CachedStatus, patch: CachedStatus): CachedStatus {
    CachedStatus(
      OrKeepOptional(patch.isFollowing, current.isFollowing),
      OrKeepOptional(patch.isFollower, current.isFollower),
      OrKeepOptional(patch.isMutual, current.isMutual))
  }

  /** A cached status never claims a mutual follow that one of its directions denies. */
  ghost predicate Coherent(c: CachedStatus) {
    c.isMutual == Some(true) ==> c.isFollowing == Some(true) && c.isFollower == Some(true)
  }

  ghost predicate AllCoherent(s: FollowsState) {
    forall k :: k in s.followStatus ==> Coherent(s.followStatus[k])
  }

  datatype Action =
    | ClearError
    | ClearFollowData(userId: string)
    | UpdateFollowStatus(userId: string, status: CachedStatus)
    | FollowPending
    | FollowFulfilled(result: FollowResult)
    | FollowRejected(message: string)
    | UnfollowPending
    | UnfollowFulfilled(result: FollowResult)
    | UnfollowRejected(message: string)
    | StatusFulfilled(fetched: StatusResult)
    | FollowersFulfilled(userId: string, users: seq<User>)
    | FollowingFulfilled(userId: string, users: seq<User>)
    | MutualFulfilled(userId: string, users: seq<User>)

  /** The follows slice reducer. A followed user's entry says "following" and is mutual
      exactly when it already recorded them as a follower; an unfollowed user's entry
      says neither; `clearFollowData` forgets the user in all four caches; every
      rejection records a non-empty error. The follower direction of an entry is never
      touched by follow or unfollow. */
  function Reduce(s: FollowsState, a: Action): (r: FollowsState)
    ensures a.FollowFulfilled? ==>
      var u := a.result.userId;
      && u in r.followStatus
      && r.followStatus[u].isFollowing == Some(true)
      && r.followStatus[u].isFollower == StatusOf(s, u).isFollower
      && (r.followStatus[u].isMutual == Some(true) <==> StatusOf(s, u).isFollower == Some(true))
      && r.followStatus[u].isMutual.Some?
    ensures a.UnfollowFulfilled? ==>
      var u := a.result.userId;
      && u in r.followStatus
      && r.followStatus[u].isFollowing == Some(false) && r.followStatus[u].isMutual == Some(false)
      && r.followStatus[u].isFollower == StatusOf(s, u).isFollower
    ensures a.FollowFulfilled? || a.UnfollowFulfilled? ==>
      && r.followStatus.Keys == s.followStatus.Keys + {a.result.userId}
      && (forall k :: k in s.followStatus && k != a.result.userId ==> r.followStatus[k] == s.followStatus[k])
      && !r.isLoading && r.error.None?
    ensures a.ClearFollowData? ==>
      && a.userId !in r.followers && a.userId !in r.following
      && a.userId !in r.followStatus && a.userId !in r.mutualFollows
      && (forall k :: k in s.followStatus && k != a.userId ==> k in r.followStatus && r.followStatus[k] == s.followStatus[k])
      && (forall k :: k in s.followers && k != a.userId ==> k in r.followers && r.followers[k] == s.followers[k])
    ensures a.FollowRejected? || a.UnfollowRejected? ==>
      && r.error.Some? && r.error.value != "" && !r.isLoading
      && r.followStatus == s.followStatus
  {
    match a
    case ClearError => s.(error := None)
    case ClearFollowData(u) =>
      s.(followers := s.followers - {u}, following := s.following - {u},
         followStatus := s.followStatus - {u}, mutualFollows := s.mutualFollows - {u})
    case UpdateFollowStatus(u, patch) => s.(followStatus := s.followStatus[u := MergeStatus(StatusOf(s, u), patch)])
    case FollowPending => s.(isLoading := true, error := None)
    case FollowFulfilled(result) =>
      var current := StatusOf(s, result.userId);
      var entry := MergeStatus(current, CachedStatus(Some(true), None, Some(current.isFollower == Some(true))));
      s.(isLoading := false, followStatus := s.followStatus[result.userId := entry], error := None)
    case FollowRejected(m) => s.(isLoading := false, error := Some(ErrorOr(m, "Failed to follow user")))
    case UnfollowPending => s.(isLoading := true, error := None)
    case UnfollowFulfilled(result) =>
      var entry := MergeStatus(StatusOf(s, result.userId), CachedStatus(Some(false), None, Some(false)));
      s.(isLoading := false, followStatus := s.followStatus[result.userId := entry], error := None)
    case UnfollowRejected(m) => s.(isLoading := false, error := Some(ErrorOr(m, "Failed to unfollow user")))
    case StatusFulfilled(st) =>
      var entry := CachedStatus(Some(st.status.isFollowing), Some(st.status.isFollower), Some(st.status.isMutual));
      s.(followStatus := s.followStatus[st.userId := entry])
    case FollowersFulfilled(u, users) => s.(followers := s.followers[u := users])
    case FollowingFulfilled(u, users) => s.(following := s.following[u := users])
    case MutualFulfilled(u, users) => s.(mutualFollows := s.mutualFollows[u := users])
  }

  /** What an action carries keeps statuses coherent: a fetched status is mutual only
      when both directions hold, and a manual patch leaves the entry coherent. */
  ghost predicate PayloadCoherent(s: FollowsState, a: Action) {
    match a
    case StatusFulfilled(st) => st.status.isMutual ==> st.status.isFollowing && st.status.isFollower
    case UpdateFollowStatus(u, patch) => Coherent(MergeStatus(StatusOf(s, u), patch))
    case _ => true
  }

  /** Cached statuses stay coherent under every action whose payload is. */
  lemma ReducePreservesCoherent(s: FollowsState, a: Action)
    requires AllCoherent(s) && PayloadCoherent(s, a)
    ensures AllCoherent(Reduce(s, a))
  {
    var r := Reduce(s, a);
    match a
    case FollowFulfilled(result) =>
      assert Coherent(r.followStatus[result.userId]);
    case _ =>
  }

  /** The status `getFollowStatusAsync` resolves with is coherent. */
  lemma FetchedStatusIsCoherent(s: FollowsState, edges: seq<FollowEdge>, currentUser: Option<User>, userId: string)
    ensures PayloadCoherent(s, StatusFulfilled(GetFollowStatus(edges, currentUser, userId)))
  {
  }

  // ---------------------------------------------------------------------------
  // Dispatch: a thunk step followed by the reducer for its outcome
  // ---------------------------------------------------------------------------

  datatype World = World(edges: seq<FollowEdge>, state: FollowsState)

  /** Dispatching `followUserAsync`: pending, then fulfilled or rejected. */
  function DispatchFollow(w: World, currentUser: Option<User>, userId: string, now: int)
    : (r: Effect<World, Result<FollowResult>>)
    ensures r.payload.Ok? <==> Follow(w.edges, currentUser, userId, now).Ok?
    ensures r.payload.Ok? ==>
      && r.store.edges == Follow(w.edges, currentUser, userId, now).value.store
      && r.payload.value == FollowResult(userId, true)
      && userId in r.store.state.followStatus
      && r.store.state.followStatus[userId].isFollowing == Some(true)
    ensures r.payload.Err? ==>
      && r.store.edges == w.edges
      && r.payload.error == Follow(w.edges, currentUser, userId, now).error
      && r.store.state.error == Some(r.payload.error)
  {
    var pending := Reduce(w.state, FollowPending);
    match Follow(w.edges, currentUser, userId, now)
    case Ok(e) => Effect(World(e.store, Reduce(pending, FollowFulfilled(e.payload))), Ok(e.payload))
    case Err(m) => Effect(World(w.edges, Reduce(pending, FollowRejected(m))), Err(m))
  }

  /** Dispatching `unfollowUserAsync`. */
  function DispatchUnfollow(w: World, currentUser: Option<User>, userId: string)
    : (r: Effect<World, Result<FollowResult>>)
    ensures r.payload.Ok? <==> Unfollow(w.edges, currentUser, userId).Ok?
    ensures r.payload.Ok? ==>
      && r.store.edges == Unfollow(w.edges, currentUser, userId).value.store
      && r.payload.value == FollowResult(userId, false)
      && userId in r.store.state.followStatus
      && r.store.state.followStatus[userId].isFollowing == Some(false)
    ensures r.payload.Err? ==>
      && r.store.edges == w.edges
      && r.payload.error == Unfollow(w.edges, currentUser, userId).error
      && r.store.state.error == Some(r.payload.error)
  {
    var pending := Reduce(w.state, UnfollowPending);
    match Unfollow(w.edges, currentUser, userId)
    case Ok(e) => Effect(World(e.store, Reduce(pending, UnfollowFulfilled(e.payload))), Ok(e.payload))
    case Err(m) => Effect(World(w.edges, Reduce(pending, UnfollowRejected(m))), Err(m))
  }

  /** `bulkFollowUsersAsync`: follows each id in turn (each step goes through the
      follow reducer), skips failures and collects the successes. `stamps` are the
      successive `Date.now()` values. */
  function BulkFollow(w: World, currentUser: Option<User>, userIds: seq<string>, stamps: seq<int>)
    : (r: Effect<World, seq<FollowResult>>)
    requires |stamps| == |userIds|
    ensures |r.payload| <= |userIds|
    ensures forall x :: x in r.payload ==> x.isFollowing && x.userId in userIds
    ensures currentUser.None? ==> r.payload == [] && r.store.edges == w.edges
    ensures currentUser.Some? ==> forall x :: x in r.payload ==>
      x.userId != currentUser.value.id && !Follows(w.edges, currentUser.value.id, x.userId)
    ensures WellFormed(w.edges) ==> WellFormed(r.store.edges)
    ensures currentUser.Some? ==>
      forall a, b :: Follows(w.edges, a, b) ==> Follows(r.store.edges, a, b)
    ensures currentUser.Some? ==>
      forall u :: u in userIds && u != currentUser.value.id ==> Follows(r.store.edges, currentUser.value.id, u)
    decreases |userIds|, 1
  {
    if |userIds| == 0 then Effect(w, [])
    else
      var step := DispatchFollow(w, currentUser, userIds[0], stamps[0]);
      var rest := BulkFollow(step.store, currentUser, userIds[1..], stamps[1..]);
      BulkFollowStep(w, currentUser, userIds, stamps, step, rest);
      Effect(rest.store, (if step.payload.Ok? then [step.payload.value] else []) + rest.payload)
  }

  lemma BulkFollowStep(w: World, currentUser: Option<User>, userIds: seq<string>, stamps: seq<int>,
                       step: Effect<World, Result<FollowResult>>, rest: Effect<World, seq<FollowResult>>)
    requires |stamps| == |userIds| > 0
    requires step == DispatchFollow(w, currentUser, userIds[0], stamps[0])
    requires rest == BulkFollow(step.store, currentUser, userIds[1..], stamps[1..])
    ensures currentUser.Some? ==>
      forall x :: x in (if step.payload.Ok? then [step.payload.value] else []) + rest.payload ==>
        x.userId != currentUser.value.id && !Follows(w.edges, currentUser.value.id, x.userId)
    ensures WellFormed(w.edges) ==> WellFormed(rest.store.edges)
    ensures currentUser.Some? ==> forall a, b :: Follows(w.edges, a, b) ==> Follows(rest.store.edges, a, b)
    ensures currentUser.Some? ==>
      forall u :: u in userIds && u != currentUser.value.id ==> Follows(rest.store.edges, currentUser.value.id, u)
    decreases |userIds|, 0
  {
    if currentUser.Some? {
      var user := currentUser.value;
      var u0 := userIds[0];
      if step.payload.Ok? {
        forall a, b ensures Follows(w.edges, a, b) ==> Follows(step.store.edges, a, b) {
          FollowAddsPair(w.edges, user, u0, stamps[0], a, b);
        }
        FollowAddsPair(w.edges, user, u0, stamps[0], user.id, u0);
        if WellFormed(w.edges) {
          FollowKeepsWellFormed(w.edges, user, u0, stamps[0]);
        }
      }
      assert u0 != user.id ==> Follows(step.store.edges, user.id, u0);
      forall u | u in userIds && u != user.id ensures Follows(rest.store.edges, user.id, u) {
        if u != u0 {
          assert u in userIds[1..];
        }
      }
      forall x | x in (if step.payload.Ok? then [step.payload.value] else []) + rest.payload
        ensures x.userId != user.id && !Follows(w.edges, user.id, x.userId)
      {
        if x in rest.payload {
          assert !Follows(step.store.edges, user.id, x.userId);
        }
      }
    }
  }

  /** `bulkUnfollowUsersAsync`: unfollows each id in turn, skipping failures. */
  function BulkUnfollow(w: World, currentUser: Option<User>, userIds: seq<string>)
    : (r: Effect<World, seq<FollowResult>>)
    ensures |r.payload| <= |userIds|
    ensures forall x :: x in r.payload ==> !x.isFollowing && x.userId in userIds
    ensures currentUser.None? ==> r.payload == [] && r.store.edges == w.edges
    ensures currentUser.Some? ==> forall x :: x in r.payload ==> Follows(w.edges, currentUser.value.id, x.userId)
    ensures WellFormed(w.edges) ==> WellFormed(r.store.edges)
    ensures currentUser.Some? && WellFormed(w.edges) ==>
      forall u :: u in userIds ==> !Follows(r.store.edges, currentUser.value.id, u)
    decreases |userIds|, 1
  {
    if |userIds| == 0 then Effect(w, [])
    else
      var step := DispatchUnfollow(w, currentUser, userIds[0]);
      var rest := BulkUnfollow(step.store, currentUser, userIds[1..]);
      BulkUnfollowStep(w, currentUser, userIds, step, rest);
      Effect(rest.store, (if step.payload.Ok? then [step.payload.value] else []) + rest.payload)
  }

  lemma BulkUnfollowStep(w: World, currentUser: Option<User>, userIds: seq<string>,
                         step: Effect<World, Result<FollowResult>>, rest: Effect<World, seq<FollowResult>>)
    requires |userIds| > 0
    requires step == DispatchUnfollow(w, currentUser, userIds[0])
    requires rest == BulkUnfollow(step.store, currentUser, userIds[1..])
    ensures currentUser.Some? ==>
      forall x :: x in (if step.payload.Ok? then [step.payload.value] else []) + rest.payload ==>
        Follows(w.edges, currentUser.value.id, x.userId)
    ensures WellFormed(w.edges) ==> WellFormed(rest.store.edges)
    ensures currentUser.Some? && WellFormed(w.edges) ==>
      forall u :: u in userIds ==> !Follows(rest.store.edges, currentUser.value.id, u)
    decreases |userIds|, 0
  {
    if currentUser.Some? {
      var user := currentUser.value;
      forall x | x in (if step.payload.Ok? then [step.payload.value] else []) + rest.payload
        ensures Follows(w.edges, user.id, x.userId)
      {
        if x in rest.payload && step.payload.Ok? {
          UnfollowOnlyRemoves(w.edges, user, userIds[0], user.id, x.userId);
        }
      }
    }
    if currentUser.Some? && WellFormed(w.edges) {
      var user := currentUser.value;
      var u0 := userIds[0];
      if step.payload.Ok? {
        UnfollowKeepsWellFormed(w.edges, user, u0);
        UnfollowRemovesPair(w.edges, user, u0, user.id, u0);
      }
      assert !Follows(step.store.edges, user.id, u0);
      UnfollowedStaysUnfollowed(step.store, currentUser, userIds[1..], u0);
      forall u | u in userIds ensures !Follows(rest.store.edges, user.id, u) {
        if u != u0 {
          assert u in userIds[1..];
        }
      }
    }
  }

  /** Unfollowing never creates an edge. */
  lemma {:induction false} UnfollowedStaysUnfollowed(w: World, currentUser: Option<User>, userIds: seq<string>, u: string)
    requires currentUser.Some? && !Follows(w.edges, currentUser.value.id, u)
    ensures !Follows(BulkUnfollow(w, currentUser, userIds).store.edges, currentUser.value.id, u)
    decreases |userIds|, 2
  {
    if |userIds| > 0 {
      var step := DispatchUnfollow(w, currentUser, userIds[0]);
      if step.payload.Ok? {
        UnfollowOnlyRemoves(w.edges, currentUser.value, userIds[0], currentUser.value.id, u);
      }
      UnfollowedStaysUnfollowed(step.store, currentUser, userIds[1..], u);
    }
  }
}
