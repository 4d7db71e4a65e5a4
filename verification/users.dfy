/** The users slice (src/store/slices/usersSlice.ts): profile lookups, profile update,
    stats, search, recommendations and availability checks over the mock accounts
    `mockUsers`, and the reducer over the profile cache. `mockUsers` is never written by
    the client. */
module Users {
  import opened Results
  import opened Text
  import opened Seqs
  import opened Paging
  import opened Types
  import opened Storage
  import Seed
  import Auth

  const NotFound := "User not found"
  const DefaultLimit := 10
  /** `getRecommendedUsersAsync` keeps at most this many accounts. */
  const RecommendedCount := 5

  function HasId(id: string): User -> bool {
    (u: User) => u.id == id
  }

  function HasUsername(username: string): User -> bool {
    (u: User) => u.username == username
  }

  function HasEmail(email: string): User -> bool {
    (u: User) => u.email == email
  }

  // ---------------------------------------------------------------------------
  // Profile lookups
  // ---------------------------------------------------------------------------

  /** The three viewer-relative fields the profile thunks draw at random:
      `Math.random() > 0.5` twice and `Math.floor(Math.random() * 10)`. */
  datatype Draw = Draw(isFollowing: bool, isFollower: bool, mutualFollows: int)

  predicate ValidDraw(d: Draw) {
    0 <= d.mutualFollows < 10
  }

  /** The first account `p` selects, as a profile with the drawn fields. */
  function Lookup(users: seq<User>, p: User -> bool, d: Draw): (r: Result<UserProfile>)
    ensures r.Err? <==> forall i :: 0 <= i < |users| ==> !p(users[i])
    ensures r.Err? ==> r.error == NotFound
    ensures r.Ok? ==>
      && r.value.user in users && p(r.value.user)
      && r.value.user == users[FirstIndex(users, p).value]
      && (exists i :: FirstMatch(users, p, i) && r.value.user == users[i])
      && r.value.isFollowing == Some(d.isFollowing) && r.value.isFollower == Some(d.isFollower)
      && r.value.mutualFollows == Some(d.mutualFollows)
  {
    match FirstIndex(users, p)
    case None => Err(NotFound)
    case Some(i) => assert FirstMatch(users, p, i); Ok(UserProfile(users[i], Some(d.isFollowing), Some(d.isFollower), Some(d.mutualFollows)))
  }

  /** `getUserProfileAsync`: the account with the id. */
  function GetUserProfile(users: seq<User>, userId: string, d: Draw): (r: Result<UserProfile>)
    requires ValidDraw(d)
    ensures r.Err? <==> forall i :: 0 <= i < |users| ==> users[i].id != userId
    ensures r.Err? ==> r.error == NotFound
    ensures r.Ok? ==> r.value.user in users && r.value.user.id == userId
    ensures r.Ok? ==> exists i :: FirstMatch(users, HasId(userId), i) && r.value.user == users[i]
    ensures r.Ok? ==> r.value.isFollowing == Some(d.isFollowing) && r.value.isFollower == Some(d.isFollower)
    ensures r.Ok? ==> r.value.mutualFollows == Some(d.mutualFollows) && 0 <= r.value.mutualFollows.value < 10
  {
    Lookup(users, HasId(userId), d)
  }

  /** `getUserByUsernameAsync`: the account with the username. */
  function GetUserByUsername(users: seq<User>, username: string, d: Draw): (r: Result<UserProfile>)
    requires ValidDraw(d)
    ensures r.Err? <==> forall i :: 0 <= i < |users| ==> users[i].username != username
    ensures r.Err? ==> r.error == NotFound
    ensures r.Ok? ==> r.value.user in users && r.value.user.username == username
    ensures r.Ok? ==> exists i :: FirstMatch(users, HasUsername(username), i) && r.value.user == users[i]
    ensures r.Ok? ==> r.value.isFollowing == Some(d.isFollowing) && r.value.isFollower == Some(d.isFollower)
    ensures r.Ok? ==> r.value.mutualFollows == Some(d.mutualFollows) && 0 <= r.value.mutualFollows.value < 10
  {
    Lookup(users, HasUsername(username), d)
  }

  /** With distinct ids and usernames, looking an account up by its username finds
      what looking it up by its id finds. */
  lemma LookupsAgree(users: seq<User>, u: User, d: Draw)
    requires Seed.UniqueAccounts(users) && u in users && ValidDraw(d)
    ensures GetUserByUsername(users, u.username, d) == GetUserProfile(users, u.id, d)
    ensures GetUserProfile(users, u.id, d).Ok? && GetUserProfile(users, u.id, d).value.user == u
  {
    var k :| 0 <= k < |users| && users[k] == u;
    assert HasId(u.id)(users[k]) && HasUsername(u.username)(users[k]);
    assert FirstIndex(users, HasId(u.id)) == Some(k);
    assert FirstIndex(users, HasUsername(u.username)) == Some(k);
  }

  /** `updateUserProfileAsync`: the edit always lands on the first seed account, which
      the thunk assumes is the signed-in user; `updatedAt` is the clock reading even if
      the edit names one. The result is written to storage. */
  function UpdateUserProfile(st: LocalStorage, patch: UserPatch, now: int): (r: Effect<LocalStorage, User>)
    ensures r.payload.updatedAt == now
    ensures r.payload.id == OrKeep(patch.id, Seed.John.id)
    ensures r.payload.username == OrKeep(patch.username, Seed.John.username)
    ensures r.payload.bio == OrKeepOptional(patch.bio, Seed.John.bio)
    ensures r.payload.email == OrKeep(patch.email, Seed.John.email)
    ensures r.payload.firstName == OrKeepOptional(patch.firstName, Seed.John.firstName)
    ensures r.payload.lastName == OrKeepOptional(patch.lastName, Seed.John.lastName)
    ensures r.payload.avatar == OrKeepOptional(patch.avatar, Seed.John.avatar)
    ensures r.payload.isVerified == OrKeep(patch.isVerified, Seed.John.isVerified)
    ensures r.payload.followersCount == OrKeep(patch.followersCount, Seed.John.followersCount)
    ensures r.payload.followingCount == OrKeep(patch.followingCount, Seed.John.followingCount)
    ensures r.payload.postsCount == OrKeep(patch.postsCount, Seed.John.postsCount)
    ensures r.payload.createdAt == OrKeep(patch.createdAt, Seed.John.createdAt)
    ensures patch == NoChanges ==> r.payload == Seed.John.(updatedAt := now)
    ensures Merge(r.payload, patch.(updatedAt := None)) == r.payload
    ensures r.store.user == Some(r.payload) && r.store.entries == st.entries
  {
    var u := Merge(Seed.Users[0], patch).(updatedAt := now);
    Effect(PutUser(st, u), u)
  }

  /** `getUserStatsAsync`; `likes` and `comments` stand for the two random draws. */
  function GetUserStats(users: seq<User>, userId: string, likes: int, comments: int): (r: Result<UserStats>)
    requires 0 <= likes < 1000 && 0 <= comments < 500
    ensures r.Err? <==> forall i :: 0 <= i < |users| ==> users[i].id != userId
    ensures r.Err? ==> r.error == NotFound
    ensures r.Ok? ==>
      exists i :: FirstMatch(users, HasId(userId), i)
        && r.value.postsCount == users[i].postsCount
        && r.value.followersCount == users[i].followersCount
        && r.value.followingCount == users[i].followingCount
    ensures r.Ok? ==> 0 <= r.value.likesReceived < 1000 && 0 <= r.value.commentsReceived < 500
  {
    match FirstIndex(users, HasId(userId))
    case None => Err(NotFound)
    case Some(i) =>
      assert FirstMatch(users, HasId(userId), i);
      var u := users[i];
      Ok(UserStats(u.postsCount, u.followersCount, u.followingCount, likes, comments))
  }

  // ---------------------------------------------------------------------------
  // Search, recommendations, availability
  // ---------------------------------------------------------------------------

  predicate FieldMatches(field: Option<string>, query: string) {
    field.Some? && Includes(Lower(field.value), Lower(query))
  }

  /** The search filter: username, first name, last name or bio contains the query,
      ignoring ASCII case. */
  predicate UserMatches(u: User, query: string) {
    || Includes(Lower(u.username), Lower(query))
    || FieldMatches(u.firstName, query)
    || FieldMatches(u.lastName, query)
    || FieldMatches(u.bio, query)
  }

  function MatchesQuery(query: string): User -> bool {
    (u: User) => UserMatches(u, query)
  }

  /** `searchUsersAsync`: the total counts every match; the results are one page of the
      matches in account order. */
  function SearchUsers(users: seq<User>, query: string, args: PageArgs): (r: SearchResults<User>)
    ensures r.query == query
    ensures 0 <= r.total <= |users|
    ensures r.total == 0 <==> forall i :: 0 <= i < |users| ==> !UserMatches(users[i], query)
    ensures forall u :: u in r.results ==> u in users && UserMatches(u, query)
    ensures r.total == |set i | 0 <= i < |users| && UserMatches(users[i], query)|
    ensures r.total == |Filter(users, MatchesQuery(query))|
    ensures IsWindow(r.results, Filter(users, MatchesQuery(query)))
    ensures args.Limit(DefaultLimit) >= 0 ==> |r.results| <= args.Limit(DefaultLimit)
    ensures args.Page() >= 1 && args.Limit(DefaultLimit) >= 0 ==>
      var matches := Filter(users, MatchesQuery(query));
      && args.StartIndex(DefaultLimit) >= 0
      && r.results == matches[Min(args.StartIndex(DefaultLimit), |matches|)..Min(args.EndIndex(DefaultLimit), |matches|)]
  {
    var matches := Filter(users, MatchesQuery(query));
    var page := Page(matches, args, DefaultLimit);
    WindowMembers(page, matches);
    assert Count(users, MatchesQuery(query)) == |set i | 0 <= i < |users| && UserMatches(users[i], query)| by {
      assert Positions(users, MatchesQuery(query)) == set i | 0 <= i < |users| && UserMatches(users[i], query);
    }
    FilterSize(users, MatchesQuery(query));
    SearchResults(page, Count(users, MatchesQuery(query)), query)
  }

  /** Walking the pages of a search from the first one visits every match exactly
      once, in order, as soon as the pages span all matches. */
  lemma SearchPagesCoverMatches(users: seq<User>, query: string, limit: nat, k: nat)
    requires k * limit >= |Filter(users, MatchesQuery(query))|
    ensures PagesUpTo(Filter(users, MatchesQuery(query)), k, limit) == Filter(users, MatchesQuery(query))
  {
    var matches := Filter(users, MatchesQuery(query));
    PagesCoverPrefix(matches, k, limit);
    assert matches[..|matches|] == matches;
  }

  /** `getRecommendedUsersAsync`: the first five of a shuffle of the accounts. The
      shuffle's order comes from `Math.random`, so it is a parameter: any permutation. */
  function RecommendedUsers(users: seq<User>, shuffled: seq<User>): (r: seq<User>)
    requires multiset(shuffled) == multiset(users)
    ensures |r| == Min(RecommendedCount, |users|)
    ensures multiset(r) <= multiset(users)
    ensures forall u :: u in r ==> u in users
  {
    assert |shuffled| == |users| by {
      assert |multiset(shuffled)| == |multiset(users)|;
    }
    var r := JsSlice(shuffled, 0, RecommendedCount);
    assert r == shuffled[..Min(RecommendedCount, |shuffled|)];
    assert shuffled == r + shuffled[|r|..];
    assert multiset(shuffled) == multiset(r) + multiset(shuffled[|r|..]);
    forall u | u in r ensures u in users {
      assert u in multiset(r);
      assert u in multiset(users);
    }
    r
  }

  datatype UsernameCheck = UsernameCheck(username: string, isAvailable: bool)

  datatype EmailCheck = EmailCheck(email: string, isAvailable: bool)

  /** `checkUsernameAvailabilityAsync`: available exactly when no account has that
      username. */
  function CheckUsername(users: seq<User>, username: string): (r: UsernameCheck)
    ensures r.username == username
    ensures r.isAvailable <==> forall i :: 0 <= i < |users| ==> users[i].username != username
  {
    UsernameCheck(username, FirstIndex(users, HasUsername(username)).None?)
  }

  /** `checkEmailAvailabilityAsync`: available exactly when no account has that email. */
  function CheckEmail(users: seq<User>, email: string): (r: EmailCheck)
    ensures r.email == email
    ensures r.isAvailable <==> forall i :: 0 <= i < |users| ==> users[i].email != email
  {
    EmailCheck(email, FirstIndex(users, HasEmail(email)).None?)
  }

  /** The availability checks predict registration: it is refused exactly when the
      username or the email is reported as taken. */
  lemma AvailabilityPredictsRegister(users: seq<User>, st: LocalStorage, d: Auth.Registration, now: int)
    ensures Auth.Register(users, st, d, now).Err? <==>
      !CheckUsername(users, d.username).isAvailable || !CheckEmail(users, d.email).isAvailable
  {
  }

  // ---------------------------------------------------------------------------
  // Slice state and reducer
  // ---------------------------------------------------------------------------

  datatype UsersState = UsersState(
    profiles: map<string, UserProfile>,
    searchResults: Option<SearchResults<User>>,
    recommendedUsers: seq<User>,
    isLoading: bool,
    error: Option<string>)

  const InitialState := UsersState(map[], None, [], false, None)

  /** `updateUserInProfiles`: merges into a cached profile, and only into that one; a
      missing profile is not created. */
  function UpdateUserInProfiles(s: UsersState, userId: string, updates: ProfilePatch): (r: UsersState)
    ensures userId !in s.profiles ==> r == s
    ensures userId in s.profiles ==>
      && r.profiles == s.profiles[userId := MergeProfile(s.profiles[userId], updates)]
      && r.(profiles := s.profiles) == s
    ensures r.profiles.Keys == s.profiles.Keys
  {
    if userId in s.profiles
    then s.(profiles := s.profiles[userId := MergeProfile(s.profiles[userId], updates)])
    else s
  }

  /** A user record as the profile cache stores it after `updateUserProfileAsync`: the
      payload is a bare user, without viewer-relative fields. */
  function BareProfile(u: User): UserProfile {
    UserProfile(u, None, None, None)
  }

  datatype Action =
    | ClearSearchResults
    | ClearError
    | UpdateUserInProfilesAction(userId: string, updates: ProfilePatch)
    | ProfilePending
    | ProfileFulfilled(profile: UserProfile)
    | ProfileRejected(message: string)
    | ByUsernamePending
    | ByUsernameFulfilled(profile: UserProfile)
    | ByUsernameRejected(message: string)
    | UpdateProfilePending
    | UpdateProfileFulfilled(user: User)
    | UpdateProfileRejected(message: string)
    | SearchPending
    | SearchFulfilled(results: SearchResults<User>)
    | SearchRejected(message: string)
    | RecommendedFulfilled(users: seq<User>)

  /** The users slice reducer: a fetched or updated profile is filed under its user's
      id, and other profiles are kept; a rejection records a non-empty error and keeps
      the cache. */
  function Reduce(s: UsersState, a: Action): (r: UsersState)
    ensures a.ProfileFulfilled? || a.ByUsernameFulfilled? ==>
      r.profiles == s.profiles[a.profile.user.id := a.profile] && r.error.None? && !r.isLoading
    ensures a.UpdateProfileFulfilled? ==> r.profiles == s.profiles[a.user.id := BareProfile(a.user)]
    ensures a.ProfileRejected? || a.ByUsernameRejected? || a.UpdateProfileRejected? || a.SearchRejected? ==>
      r.error.Some? && r.error.value != "" && r.profiles == s.profiles && !r.isLoading
    ensures a.RecommendedFulfilled? ==> r == s.(recommendedUsers := a.users)
  {
    match a
    case ClearSearchResults => s.(searchResults := None)
    case ClearError => s.(error := None)
    case UpdateUserInProfilesAction(id, updates) => UpdateUserInProfiles(s, id, updates)
    case ProfilePending => s.(isLoading := true, error := None)
    case ProfileFulfilled(p) => s.(isLoading := false, profiles := s.profiles[p.user.id := p], error := None)
    case ProfileRejected(m) => s.(isLoading := false, error := Some(ErrorOr(m, "Failed to fetch user profile")))
    case ByUsernamePending => s.(isLoading := true, error := None)
    case ByUsernameFulfilled(p) => s.(isLoading := false, profiles := s.profiles[p.user.id := p], error := None)
    case ByUsernameRejected(m) => s.(isLoading := false, error := Some(ErrorOr(m, "Failed to fetch user profile")))
    case UpdateProfilePending => s.(isLoading := true, error := None)
    case UpdateProfileFulfilled(u) => s.(isLoading := false, profiles := s.profiles[u.id := BareProfile(u)], error := None)
    case UpdateProfileRejected(m) => s.(isLoading := false, error := Some(ErrorOr(m, "Failed to update profile")))
    case SearchPending => s.(isLoading := true, error := None)
    case SearchFulfilled(results) => s.(isLoading := false, searchResults := Some(results), error := None)
    case SearchRejected(m) => s.(isLoading := false, error := Some(ErrorOr(m, "Search failed")))
    case RecommendedFulfilled(users) => s.(recommendedUsers := users)
  }

  /** Every cached profile is filed under its own user's id. */
  ghost predicate KeyedById(s: UsersState) {
    forall k :: k in s.profiles ==> s.profiles[k].user.id == k
  }

  /** Keying by id survives every action except an `updateUserInProfiles` whose patch
      renames the user. */
  lemma ReducePreservesKeyedById(s: UsersState, a: Action)
    requires KeyedById(s)
    requires a.UpdateUserInProfilesAction? ==> a.updates.user.id.None?
    ensures KeyedById(Reduce(s, a))
  {
  }

  /** An `updateUserInProfiles` patch that sets `id` can break the keying. */
  lemma RenameBreaksKeying(u: User)
    ensures var s := InitialState.(profiles := map[u.id := BareProfile(u)]);
      var patch := ProfilePatch(NoChanges.(id := Some(u.id + "x")), None, None, None);
      KeyedById(s) && !KeyedById(Reduce(s, UpdateUserInProfilesAction(u.id, patch)))
  {
    var s := InitialState.(profiles := map[u.id := BareProfile(u)]);
    var patch := ProfilePatch(NoChanges.(id := Some(u.id + "x")), None, None, None);
    var r := Reduce(s, UpdateUserInProfilesAction(u.id, patch));
    assert r.profiles[u.id].user.id == u.id + "x";
    assert |u.id + "x"| != |u.id|;
  }
}
