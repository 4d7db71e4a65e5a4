/** The entities of the client state layer. Timestamps are milliseconds since the epoch
    (the source keeps ISO-8601 strings and compares them through `new Date(...)`), and
    optional fields are `Option`s. */
module Types {
  import opened Results

  datatype User = User(
    id: string,
    username: string,
    email: string,
    firstName: Option<string>,
    lastName: Option<string>,
    bio: Option<string>,
    avatar: Option<string>,
    isVerified: bool,
    followersCount: int,
    followingCount: int,
    postsCount: int,
    createdAt: int,
    updatedAt: int)

  /** `Partial<User>`: a field that is present overrides, an absent one keeps the old value. */
  datatype UserPatch = UserPatch(
    id: Option<string>,
    username: Option<string>,
    email: Option<string>,
    firstName: Option<string>,
    lastName: Option<string>,
    bio: Option<string>,
    avatar: Option<string>,
    isVerified: Option<bool>,
    followersCount: Option<int>,
    followingCount: Option<int>,
    postsCount: Option<int>,
    createdAt: Option<int>,
    updatedAt: Option<int>)

  const NoChanges := UserPatch(None, None, None, None, None, None, None, None, None, None, None, None, None)

  function OrKeep<T>(change: Option<T>, current: T): T {
    change.GetOr(current)
  }

  function OrKeepOptional<T>(change: Option<T>, current: Option<T>): Option<T> {
    if change.Some? then change else current
  }

  /** `{ ...user, ...patch }`. */
  function Merge(u: User, p: UserPatch): User {
    User(
      OrKeep(p.id, u.id),
      OrKeep(p.username, u.username),
      OrKeep(p.email, u.email),
      OrKeepOptional(p.firstName, u.firstName),
      OrKeepOptional(p.lastName, u.lastName),
      OrKeepOptional(p.bio, u.bio),
      OrKeepOptional(p.avatar, u.avatar),
      OrKeep(p.isVerified, u.isVerified),
      OrKeep(p.followersCount, u.followersCount),
      OrKeep(p.followingCount, u.followingCount),
      OrKeep(p.postsCount, u.postsCount),
      OrKeep(p.createdAt, u.createdAt),
      OrKeep(p.updatedAt, u.updatedAt))
  }

  /** Spreading an empty patch copies the record, and spreading the same patch twice is
      the same as spreading it once. */
  lemma MergeLaws(u: User, p: UserPatch)
    ensures Merge(u, NoChanges) == u
    ensures Merge(Merge(u, p), p) == Merge(u, p)
    ensures p.username.Some? ==> Merge(u, p).username == p.username.value
    ensures p.id.None? ==> Merge(u, p).id == u.id
  {
  }

  /** `UserProfile`: a user plus the viewer-relative fields. */
  datatype UserProfile = UserProfile(
    user: User,
    isFollowing: Option<bool>,
    isFollower: Option<bool>,
    mutualFollows: Option<int>)

  /** `Partial<UserProfile>`. */
  datatype ProfilePatch = ProfilePatch(
    user: UserPatch,
    isFollowing: Option<bool>,
    isFollower: Option<bool>,
    mutualFollows: Option<int>)

  function MergeProfile(p: UserProfile, d: ProfilePatch): UserProfile {
    UserProfile(
      Merge(p.user, d.user),
      OrKeepOptional(d.isFollowing, p.isFollowing),
      OrKeepOptional(d.isFollower, p.isFollower),
      OrKeepOptional(d.mutualFollows, p.mutualFollows))
  }

  datatype UserStats = UserStats(
    postsCount: int,
    followersCount: int,
    followingCount: int,
    likesReceived: int,
    commentsReceived: int)

  /** A post, with a denormalised snapshot of its author. */
  datatype Post = Post(
    id: string,
    content: string,
    authorId: string,
    author: User,
    likesCount: int,
    commentsCount: int,
    isLiked: bool,
    createdAt: int,
    updatedAt: int)

  /** The like toggle posts and comments share: the flag flips and the count moves one
      step in the new direction, clamped at zero by `Math.max(0, ...)`. */
  function FlipLike(liked: bool, count: int): (r: (bool, int))
    ensures r.0 == !liked && r.1 >= 0
    ensures !liked ==> r.1 == if count + 1 < 0 then 0 else count + 1
    ensures liked ==> r.1 == if count - 1 < 0 then 0 else count - 1
  {
    var moved := if liked then count - 1 else count + 1;
    (!liked, if moved < 0 then 0 else moved)
  }

  /** Flipping twice gives back the pair exactly when the clamp did not bite: a liked
      item with no likes comes back with one. */
  lemma FlipLikeTwice(liked: bool, count: int)
    requires count >= 0
    ensures var once := FlipLike(liked, count);
      FlipLike(once.0, once.1) == (liked, count) <==> !(liked && count == 0)
  {
  }

  datatype PostStats = PostStats(likesCount: int, commentsCount: int, sharesCount: int)

  datatype Comment = Comment(
    id: string,
    content: string,
    postId: string,
    authorId: string,
    author: User,
    parentId: Option<string>,
    likesCount: int,
    isLiked: bool,
    createdAt: int,
    updatedAt: int)

  /** A directed follow edge: `followerId` follows `followingId`. */
  datatype FollowEdge = FollowEdge(id: string, followerId: string, followingId: string, createdAt: int)

  datatype FollowStatus = FollowStatus(isFollowing: bool, isFollower: bool, isMutual: bool)

  datatype Phase = Pending | Approved | Rejected | NotSubmitted

  datatype VerificationStatus = VerificationStatus(
    status: Phase,
    submittedAt: Option<int>,
    reviewedAt: Option<int>,
    reason: Option<string>)

  datatype VerificationRequirements = VerificationRequirements(
    minFollowers: int,
    minPosts: int,
    accountAge: int,
    hasProfilePicture: bool,
    hasBio: bool)

  datatype NoticeKind = Success | Error | Warning | Info

  datatype Notification = Notification(
    id: string,
    kind: NoticeKind,
    title: string,
    message: string,
    duration: Option<int>,
    createdAt: int)

  datatype SearchResults<T> = SearchResults(results: seq<T>, total: int, query: string)
}
