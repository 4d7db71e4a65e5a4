/** The posts slice (src/store/slices/postsSlice.ts): thunks over the mock post
    collection `allMockPosts`, and the reducer over the cached views of it (feed,
    explore, per-author lists, the current post). */
module Posts {
  import opened Results
  import opened Text
  import opened Seqs
  import opened Paging
  import opened Ordering
  import opened Types
  import Seed

  const DefaultLimit := 10
  const NotFound := "Post not found"
  const NotAuthenticated := "User not authenticated"

  /** `allMockPosts`: the seed posts followed by three more. */
  const InitialPosts: seq<Post> := Seed.Posts + [
    Post("4", "Beautiful sunset at the beach today! Sometimes you need to step away from the code and enjoy nature \U{1F305}",
      "1", Seed.John, 23, 4, true, 1719081000000, 1719081000000),
    Post("5", "Pro tip: Use CSS Grid for complex layouts and Flexbox for component-level alignment. They work beautifully together! \U{1F4A1}",
      "2", Seed.Sarah, 56, 9, false, 1719069600000, 1719069600000),
    Post("6", "Just launched my first npm package! It's a small utility for handling date formatting, but I'm proud of it. Every journey starts with a single step \U{1F680}",
      "3", Seed.Mike, 78, 16, true, 1719058200000, 1719058200000)
  ]

  function CreatedAt(p: Post): int {
    p.createdAt
  }

  function Likes(p: Post): int {
    p.likesCount
  }

  function HasId(id: string): Post -> bool {
    (p: Post) => p.id == id
  }

  function NotId(id: string): Post -> bool {
    (p: Post) => p.id != id
  }

  function ByAuthor(userId: string): Post -> bool {
    (p: Post) => p.authorId == userId
  }

  /** No two posts share an id (ids come from `Date.now()`). */
  ghost predicate UniqueIds(posts: seq<Post>) {
    forall i, j :: 0 <= i < j < |posts| ==> posts[i].id != posts[j].id
  }

  ghost predicate HoldsId(posts: seq<Post>, id: string) {
    exists i :: 0 <= i < |posts| && posts[i].id == id
  }

  ghost predicate LikesNonNegative(posts: seq<Post>) {
    forall i :: 0 <= i < |posts| ==> posts[i].likesCount >= 0
  }

  /** The posts the slice starts from carry distinct ids, non-negative like counts and
      authors drawn from the seed accounts. */
  lemma InitialPostsWellFormed()
    ensures UniqueIds(InitialPosts) && LikesNonNegative(InitialPosts)
    ensures Seed.PostsAuthored(Seed.Users, InitialPosts)
  {
  }

  // ---------------------------------------------------------------------------
  // Listing thunks
  // ---------------------------------------------------------------------------

  /** A page of a listing plus its `pagination` fields. */
  datatype FeedPage = FeedPage(posts: seq<Post>, hasNextPage: bool, nextCursor: Option<string>)

  /** What every sorted listing promises: its posts are consecutive entries of the whole
      collection ordered by `key` (a permutation with non-increasing keys), at most
      `limit` of them, starting at offset `(page - 1) * limit` for a page of at least
      one, and the cursor rule of `Paging.NextPage`. */
  ghost predicate ListingSpec(posts: seq<Post>, key: Post -> int, args: PageArgs, r: FeedPage) {
    && IsWindow(r.posts, SortByKeyDesc(posts, key))
    && (args.Page() >= 1 && args.Limit(DefaultLimit) >= 0 ==>
          var sorted := SortByKeyDesc(posts, key);
          && args.StartIndex(DefaultLimit) >= 0
          && r.posts == sorted[Min(args.StartIndex(DefaultLimit), |sorted|)..Min(args.EndIndex(DefaultLimit), |sorted|)])
    && NonIncreasing(r.posts, key)
    && (forall p :: p in r.posts ==> p in posts)
    && (args.Limit(DefaultLimit) >= 0 ==> |r.posts| <= args.Limit(DefaultLimit))
    && (r.hasNextPage <==> args.EndIndex(DefaultLimit) < |posts|)
    && (r.nextCursor.Some? <==> r.hasNextPage)
    && (r.nextCursor.Some? ==> ParseInt(r.nextCursor.value) == Some(args.EndIndex(DefaultLimit)))
  }

  function Listing(posts: seq<Post>, key: Post -> int, args: PageArgs): (r: FeedPage)
    ensures ListingSpec(posts, key, args, r)
  {
    var sorted := SortByKeyDesc(posts, key);
    assert |sorted| == |posts| by {
      assert |multiset(sorted)| == |multiset(posts)|;
    }
    var page := Page(sorted, args, DefaultLimit);
    var info := NextPage(|sorted|, args, DefaultLimit);
    WindowKeepsOrder(page, sorted, key);
    WindowMembers(page, sorted);
    SortedMembers(posts, key);
    FeedPage(page, info.hasNextPage, info.nextCursor)
  }

  /** `getFeedAsync`: newest first. */
  function GetFeed(posts: seq<Post>, args: PageArgs): (r: FeedPage)
    ensures ListingSpec(posts, CreatedAt, args, r)
  {
    Listing(posts, CreatedAt, args)
  }

  /** `getExplorePostsAsync`: most liked first, ties in collection order. */
  function GetExplore(posts: seq<Post>, args: PageArgs): (r: FeedPage)
    ensures ListingSpec(posts, Likes, args, r)
  {
    Listing(posts, Likes, args)
  }

  /** A first page that is large enough is a permutation of the whole collection, and
      posts with equal keys appear in collection order. */
  lemma ListingIsPermutation(posts: seq<Post>, key: Post -> int, args: PageArgs, k: int)
    requires args.Page() == 1 && args.Limit(DefaultLimit) >= |posts|
    ensures multiset(Listing(posts, key, args).posts) == multiset(posts)
    ensures Filter(Listing(posts, key, args).posts, HasKey(key, k)) == Filter(posts, HasKey(key, k))
    ensures !Listing(posts, key, args).hasNextPage
  {
    var sorted := SortByKeyDesc(posts, key);
    assert |sorted| == |posts| by {
      assert |multiset(sorted)| == |multiset(posts)|;
    }
    FirstPageIsAll(sorted, args, DefaultLimit);
    SortIsStable(posts, key, k);
  }

  /** On a collection already in newest-first order the feed is a plain slice of it. */
  lemma FeedOfOrdered(posts: seq<Post>, args: PageArgs)
    requires NonIncreasing(posts, CreatedAt)
    requires args.Page() >= 1 && args.Limit(DefaultLimit) >= 0
    ensures GetFeed(posts, args).posts ==
      posts[Min(args.StartIndex(DefaultLimit), |posts|)..Min(args.EndIndex(DefaultLimit), |posts|)]
  {
    SortOrderedIsIdentity(posts, CreatedAt);
  }

  /** The mock collection is stored newest first. */
  lemma InitialPostsNewestFirst()
    ensures NonIncreasing(InitialPosts, CreatedAt)
  {
    var s := InitialPosts;
    assert |s| == 6;
    assert s[0].createdAt == 1719153000000 && s[1].createdAt == 1719141300000 && s[2].createdAt == 1719135900000;
    assert s[3].createdAt == 1719081000000 && s[4].createdAt == 1719069600000 && s[5].createdAt == 1719058200000;
  }

  /** The first feed page of two posts over the mock collection: posts "1" and "2",
      and a cursor "2" pointing at the next page. */
  lemma FeedScenario()
    ensures var r := GetFeed(InitialPosts, PageArgs(Some(1), Some(2)));
      && |r.posts| == 2 && r.posts[0].id == "1" && r.posts[1].id == "2"
      && r.hasNextPage && r.nextCursor == Some("2")
  {
    var s := InitialPosts;
    var args := PageArgs(Some(1), Some(2));
    InitialPostsNewestFirst();
    FeedOfOrdered(s, args);
    var r := GetFeed(s, args);
    assert r.posts == s[0..2];
    assert s[0].id == "1" && s[1].id == "2";
    assert r.nextCursor.Some?;
    ParseIntToString(2);
    IntToStringInjective(2, 2);
    assert IntToString(2) == "2";
  }

  datatype UserPosts = UserPosts(userId: string, posts: seq<Post>)

  /** `getUserPostsAsync`: one author's posts, newest first, paged. */
  function GetUserPosts(posts: seq<Post>, userId: string, args: PageArgs): (r: UserPosts)
    ensures r.userId == userId
    ensures forall p :: p in r.posts ==> p in posts && p.authorId == userId
    ensures NonIncreasing(r.posts, CreatedAt)
    ensures args.Limit(DefaultLimit) >= 0 ==> |r.posts| <= args.Limit(DefaultLimit)
    ensures args.Page() == 1 && args.Limit(DefaultLimit) >= |posts| ==>
      multiset(r.posts) == multiset(Filter(posts, ByAuthor(userId)))
    ensures args.Page() >= 1 && args.Limit(DefaultLimit) >= 0 ==>
      var sorted := SortByKeyDesc(Filter(posts, ByAuthor(userId)), CreatedAt);
      && args.StartIndex(DefaultLimit) >= 0
      && r.posts == sorted[Min(args.StartIndex(DefaultLimit), |sorted|)..Min(args.EndIndex(DefaultLimit), |sorted|)]
  {
    var mine := Filter(posts, ByAuthor(userId));
    var sorted := SortByKeyDesc(mine, CreatedAt);
    var page := Page(sorted, args, DefaultLimit);
    WindowKeepsOrder(page, sorted, CreatedAt);
    WindowMembers(page, sorted);
    SortedMembers(mine, CreatedAt);
    assert args.Page() == 1 && args.Limit(DefaultLimit) >= |posts| ==> page == sorted by {
      if args.Page() == 1 && args.Limit(DefaultLimit) >= |posts| {
        assert |sorted| == |mine| by {
          assert |multiset(sorted)| == |multiset(mine)|;
        }
        FirstPageIsAll(sorted, args, DefaultLimit);
      }
    }
    UserPosts(userId, page)
  }

  /** Page j of one author's posts, as a function of j. */
  function UserPageAt(posts: seq<Post>, userId: string, limit: nat): nat -> seq<Post> {
    (j: nat) => GetUserPosts(posts, userId, PageArgs(Some(j), Some(limit))).posts
  }

  /** Page k of an author's posts is page k of their sorted posts. */
  lemma UserPageIsPage(posts: seq<Post>, userId: string, k: nat, limit: nat)
    requires k >= 1
    ensures UserPageAt(posts, userId, limit)(k) ==
      Page(SortByKeyDesc(Filter(posts, ByAuthor(userId)), CreatedAt), PageArgs(Some(k), Some(limit)), limit)
  {
    var args := PageArgs(Some(k), Some(limit));
    PageIgnoresDefault(SortByKeyDesc(Filter(posts, ByAuthor(userId)), CreatedAt), args, DefaultLimit, limit);
  }

  lemma UserPagesArePages(posts: seq<Post>, userId: string, limit: nat, k: nat)
    ensures forall j :: 1 <= j <= k ==>
      UserPageAt(posts, userId, limit)(j) == Page(SortByKeyDesc(Filter(posts, ByAuthor(userId)), CreatedAt), PageArgs(Some(j), Some(limit)), limit)
  {
    forall j | 1 <= j <= k ensures UserPageAt(posts, userId, limit)(j) ==
      Page(SortByKeyDesc(Filter(posts, ByAuthor(userId)), CreatedAt), PageArgs(Some(j), Some(limit)), limit)
    {
      UserPageIsPage(posts, userId, j, limit);
    }
  }

  /** Pages 1..k of an author's posts, once they span them, are all of the author's
      posts sorted newest first. */
  lemma UserPagesCoverSorted(posts: seq<Post>, userId: string, limit: nat, k: nat)
    requires k * limit >= |SortByKeyDesc(Filter(posts, ByAuthor(userId)), CreatedAt)|
    ensures Concat(UserPageAt(posts, userId, limit), k) == SortByKeyDesc(Filter(posts, ByAuthor(userId)), CreatedAt)
  {
    UserPagesArePages(posts, userId, limit, k);
    ConcatCovers(UserPageAt(posts, userId, limit), SortByKeyDesc(Filter(posts, ByAuthor(userId)), CreatedAt), k, limit);
  }

  /** Walking an author's pages from the first one, once they span all the author's
      posts, yields every one of those posts exactly once, newest first. */
  lemma UserPostsPagesCoverAuthor(posts: seq<Post>, userId: string, limit: nat, k: nat)
    requires k * limit >= |Filter(posts, ByAuthor(userId))|
    ensures multiset(Concat(UserPageAt(posts, userId, limit), k)) == multiset(Filter(posts, ByAuthor(userId)))
    ensures NonIncreasing(Concat(UserPageAt(posts, userId, limit), k), CreatedAt)
  {
    var mine := Filter(posts, ByAuthor(userId));
    var sorted := SortByKeyDesc(mine, CreatedAt);
    assert |sorted| == |mine| by {
      assert |multiset(sorted)| == |multiset(mine)|;
    }
    UserPagesCoverSorted(posts, userId, limit, k);
  }

  // ---------------------------------------------------------------------------
  // Single-post thunks
  // ---------------------------------------------------------------------------

  /** `getPostByIdAsync`: the first post with the id. */
  function GetPostById(posts: seq<Post>, id: string): (r: Result<Post>)
    ensures r.Ok? <==> HoldsId(posts, id)
    ensures r.Ok? ==> r.value in posts && r.value.id == id
    ensures r.Ok? ==> exists i :: FirstMatch(posts, HasId(id), i) && r.value == posts[i]
    ensures r.Err? ==> r.error == NotFound
  {
    match FirstIndex(posts, HasId(id))
    case None => Err(NotFound)
    case Some(i) => assert FirstMatch(posts, HasId(id), i); Ok(posts[i])
  }

  /** `createPostAsync`. There is no length check on `content`: the 280-character limit
      exists only in the post form. The id is `Date.now().toString()`. */
  function CreatePost(posts: seq<Post>, currentUser: Option<User>, content: string, now: int): (r: Result<Effect<seq<Post>, Post>>)
    ensures r.Err? <==> currentUser.None?
    ensures r.Err? ==> r.error == NotAuthenticated
    ensures r.Ok? ==>
      var p := r.value.payload;
      && p.id == IntToString(now) && p.content == content
      && p.authorId == currentUser.value.id && p.author == currentUser.value
      && p.likesCount == 0 && p.commentsCount == 0 && !p.isLiked
      && p.createdAt == now && p.updatedAt == now
      && r.value.store == [p] + posts
  {
    match currentUser
    case None => Err(NotAuthenticated)
    case Some(user) =>
      var p := Post(IntToString(now), content, user.id, user, 0, 0, false, now, now);
      Ok(Effect([p] + posts, p))
  }

  /** `updatePostAsync`: replaces the content of the first post with the id and stamps
      `updatedAt`; every other field and every other post is untouched. */
  function UpdatePost(posts: seq<Post>, id: string, content: string, now: int): (r: Result<Effect<seq<Post>, Post>>)
    ensures r.Err? <==> !HoldsId(posts, id)
    ensures r.Err? ==> r.error == NotFound
    ensures r.Ok? ==>
      var i := FirstIndex(posts, HasId(id)).value;
      && r.value.payload == posts[i].(content := content, updatedAt := now)
      && r.value.store == posts[i := r.value.payload]
  {
    match FirstIndex(posts, HasId(id))
    case None => Err(NotFound)
    case Some(i) =>
      var p := posts[i].(content := content, updatedAt := now);
      Ok(Effect(posts[i := p], p))
  }

  /** `deletePostAsync`: splices out the first post with the id; resolves with the id. */
  function DeletePost(posts: seq<Post>, id: string): (r: Result<Effect<seq<Post>, string>>)
    ensures r.Err? <==> !HoldsId(posts, id)
    ensures r.Err? ==> r.error == NotFound
    ensures r.Ok? ==>
      && r.value.payload == id
      && r.value.store == RemoveAt(posts, FirstIndex(posts, HasId(id)).value)
  {
    match FirstIndex(posts, HasId(id))
    case None => Err(NotFound)
    case Some(i) => Ok(Effect(RemoveAt(posts, i), id))
  }

  /** The like toggle applied to a post; nothing else about the post changes. */
  function Toggled(p: Post): (r: Post)
    ensures r.isLiked == !p.isLiked && r.likesCount >= 0
    ensures (r.isLiked, r.likesCount) == FlipLike(p.isLiked, p.likesCount)
    ensures r.(isLiked := p.isLiked, likesCount := p.likesCount) == p
  {
    var (liked, count) := FlipLike(p.isLiked, p.likesCount);
    p.(isLiked := liked, likesCount := count)
  }

  /** Toggling twice gives back the post exactly when the clamp at zero did not bite:
      a post that starts liked with no likes comes back with one. */
  lemma ToggleTwice(p: Post)
    requires p.likesCount >= 0
    ensures Toggled(Toggled(p)) == p <==> !(p.isLiked && p.likesCount == 0)
  {
    FlipLikeTwice(p.isLiked, p.likesCount);
  }

  /** `toggleLikePostAsync`. */
  function ToggleLike(posts: seq<Post>, id: string): (r: Result<Effect<seq<Post>, Post>>)
    ensures r.Err? <==> !HoldsId(posts, id)
    ensures r.Err? ==> r.error == NotFound
    ensures r.Ok? ==>
      var i := FirstIndex(posts, HasId(id)).value;
      && r.value.payload == Toggled(posts[i])
      && r.value.store == posts[i := r.value.payload]
    ensures r.Ok? && LikesNonNegative(posts) ==> LikesNonNegative(r.value.store)
  {
    match FirstIndex(posts, HasId(id))
    case None => Err(NotFound)
    case Some(i) =>
      var p := Toggled(posts[i]);
      Ok(Effect(posts[i := p], p))
  }

  /** Liking and unliking the same post restores the collection, unless the post was
      liked with a count of zero. */
  lemma ToggleLikeTwice(posts: seq<Post>, id: string)
    requires HoldsId(posts, id) && LikesNonNegative(posts)
    requires !posts[FirstIndex(posts, HasId(id)).value].isLiked || posts[FirstIndex(posts, HasId(id)).value].likesCount > 0
    ensures ToggleLike(posts, id).Ok?
    ensures ToggleLike(ToggleLike(posts, id).value.store, id).Ok?
    ensures ToggleLike(ToggleLike(posts, id).value.store, id).value.store == posts
  {
    var i := FirstIndex(posts, HasId(id)).value;
    var once := ToggleLike(posts, id).value.store;
    assert once[i].id == id;
    assert FirstIndex(once, HasId(id)) == Some(i) by {
      forall j | 0 <= j < i ensures !HasId(id)(once[j]) {
        assert once[j] == posts[j];
      }
    }
    ToggleTwice(posts[i]);
  }

  /** A freshly created post is what looking up its id yields, and deleting it gives
      back the collection as it was. */
  lemma CreateThenLookupAndDelete(posts: seq<Post>, user: User, content: string, now: int)
    ensures var r := CreatePost(posts, Some(user), content, now);
      && r.Ok?
      && GetPostById(r.value.store, IntToString(now)) == Ok(r.value.payload)
      && DeletePost(r.value.store, IntToString(now)) == Ok(Effect(posts, IntToString(now)))
  {
    var r := CreatePost(posts, Some(user), content, now);
    assert FirstIndex(r.value.store, HasId(IntToString(now))) == Some(0);
    assert RemoveAt(r.value.store, 0) == posts;
  }

  /** With unique ids, a deleted post is gone: it cannot be looked up and no feed page
      contains it. */
  lemma DeleteThenGone(posts: seq<Post>, id: string, args: PageArgs)
    requires UniqueIds(posts) && HoldsId(posts, id)
    ensures DeletePost(posts, id).Ok?
    ensures GetPostById(DeletePost(posts, id).value.store, id) == Err(NotFound)
    ensures forall p :: p in GetFeed(DeletePost(posts, id).value.store, args).posts ==> p.id != id
  {
    var i := FirstIndex(posts, HasId(id)).value;
    var rest := DeletePost(posts, id).value.store;
    assert !HoldsId(rest, id) by {
      forall j | 0 <= j < |rest| ensures rest[j].id != id {
        if j < i {
          assert rest[j] == posts[j];
        } else {
          assert rest[j] == posts[j + 1];
        }
      }
    }
    forall p | p in GetFeed(rest, args).posts ensures p.id != id {
      assert p in rest;
    }
  }

  /** Every thunk that writes the collection keeps ids unique, given a fresh id for a
      created post. */
  lemma WritesKeepIdsUnique(posts: seq<Post>, id: string, content: string, user: User, now: int)
    requires UniqueIds(posts)
    ensures UpdatePost(posts, id, content, now).Ok? ==> UniqueIds(UpdatePost(posts, id, content, now).value.store)
    ensures ToggleLike(posts, id).Ok? ==> UniqueIds(ToggleLike(posts, id).value.store)
    ensures DeletePost(posts, id).Ok? ==> UniqueIds(DeletePost(posts, id).value.store)
    ensures !HoldsId(posts, IntToString(now)) ==> UniqueIds(CreatePost(posts, Some(user), content, now).value.store)
  {
  }

  // ---------------------------------------------------------------------------
  // Search and stats
  // ---------------------------------------------------------------------------

  /** `field?.toLowerCase().includes(query.toLowerCase())`, false when the field is absent. */
  predicate FieldMatches(field: Option<string>, query: string) {
    field.Some? && Includes(Lower(field.value), Lower(query))
  }

  /** The search filter: content, author username, first name or last name contains the
      query, ignoring ASCII case. */
  predicate PostMatches(p: Post, query: string) {
    || Includes(Lower(p.content), Lower(query))
    || Includes(Lower(p.author.username), Lower(query))
    || FieldMatches(p.author.firstName, query)
    || FieldMatches(p.author.lastName, query)
  }

  function MatchesQuery(query: string): Post -> bool {
    (p: Post) => PostMatches(p, query)
  }

  /** `searchPostsAsync`: the total counts every match; the results are one page of the
      matches in collection order. */
  function SearchPosts(posts: seq<Post>, query: string, args: PageArgs): (r: SearchResults<Post>)
    ensures r.query == query
    ensures 0 <= r.total <= |posts|
    ensures r.total == 0 <==> forall i :: 0 <= i < |posts| ==> !PostMatches(posts[i], query)
    ensures forall p :: p in r.results ==> p in posts && PostMatches(p, query)
    ensures r.total == |set i | 0 <= i < |posts| && PostMatches(posts[i], query)|
    ensures r.total == |Filter(posts, MatchesQuery(query))|
    ensures IsWindow(r.results, Filter(posts, MatchesQuery(query)))
    ensures args.Limit(DefaultLimit) >= 0 ==> |r.results| <= args.Limit(DefaultLimit)
    ensures args.Page() >= 1 && args.Limit(DefaultLimit) >= 0 ==>
      var matches := Filter(posts, MatchesQuery(query));
      && args.StartIndex(DefaultLimit) >= 0
      && r.results == matches[Min(args.StartIndex(DefaultLimit), |matches|)..Min(args.EndIndex(DefaultLimit), |matches|)]
  {
    var matches := Filter(posts, MatchesQuery(query));
    var page := Page(matches, args, DefaultLimit);
    WindowMembers(page, matches);
    assert Count(posts, MatchesQuery(query)) == |set i | 0 <= i < |posts| && PostMatches(posts[i], query)| by {
      assert Positions(posts, MatchesQuery(query)) == set i | 0 <= i < |posts| && PostMatches(posts[i], query);
    }
    FilterSize(posts, MatchesQuery(query));
    SearchResults(page, Count(posts, MatchesQuery(query)), query)
  }

  /** Page j of a search, as a function of j. */
  function SearchPageAt(posts: seq<Post>, query: string, limit: nat): nat -> seq<Post> {
    (j: nat) => SearchPosts(posts, query, PageArgs(Some(j), Some(limit))).results
  }

  /** Page k of a search is page k of the matches. */
  lemma SearchPageIsPage(posts: seq<Post>, query: string, k: nat, limit: nat)
    requires k >= 1
    ensures SearchPageAt(posts, query, limit)(k) ==
      Page(Filter(posts, MatchesQuery(query)), PageArgs(Some(k), Some(limit)), limit)
  {
    PageIgnoresDefault(Filter(posts, MatchesQuery(query)), PageArgs(Some(k), Some(limit)), DefaultLimit, limit);
  }

  lemma SearchPagesArePages(posts: seq<Post>, query: string, limit: nat, k: nat)
    ensures forall j :: 1 <= j <= k ==>
      SearchPageAt(posts, query, limit)(j) == Page(Filter(posts, MatchesQuery(query)), PageArgs(Some(j), Some(limit)), limit)
  {
    forall j | 1 <= j <= k ensures SearchPageAt(posts, query, limit)(j) ==
      Page(Filter(posts, MatchesQuery(query)), PageArgs(Some(j), Some(limit)), limit)
    {
      SearchPageIsPage(posts, query, j, limit);
    }
  }

  /** Walking the pages of a search from the first one, once they span all the matches
      (as many as `total` announces), visits every match exactly once, in collection
      order. */
  lemma SearchPagesCoverMatches(posts: seq<Post>, query: string, limit: nat, k: nat)
    requires k * limit >= |Filter(posts, MatchesQuery(query))|
    ensures Concat(SearchPageAt(posts, query, limit), k) == Filter(posts, MatchesQuery(query))
  {
    SearchPagesArePages(posts, query, limit, k);
    ConcatCovers(SearchPageAt(posts, query, limit), Filter(posts, MatchesQuery(query)), k, limit);
  }

  /** Every post matches the empty query. */
  lemma EmptyQueryMatchesAll(posts: seq<Post>, args: PageArgs)
    ensures SearchPosts(posts, "", args).total == |posts|
  {
    forall i | 0 <= i < |posts| ensures MatchesQuery("")(posts[i]) {
      IncludesEmpty(Lower(posts[i].content));
    }
    FilterAll(posts, MatchesQuery(""));
  }

  /** `getPostStatsAsync`; `shares` stands for `Math.floor(Math.random() * 20)`. */
  function GetPostStats(posts: seq<Post>, id: string, shares: int): (r: Result<PostStats>)
    requires 0 <= shares < 20
    ensures r.Err? <==> !HoldsId(posts, id)
    ensures r.Err? ==> r.error == NotFound
    ensures r.Ok? ==>
      exists i :: FirstMatch(posts, HasId(id), i) &&
        r.value == PostStats(posts[i].likesCount, posts[i].commentsCount, shares)
  {
    match FirstIndex(posts, HasId(id))
    case None => Err(NotFound)
    case Some(i) => assert FirstMatch(posts, HasId(id), i); Ok(PostStats(posts[i].likesCount, posts[i].commentsCount, shares))
  }

  // ---------------------------------------------------------------------------
  // Slice state and reducer
  // ---------------------------------------------------------------------------

  datatype Pagination = Pagination(hasNextPage: bool, nextCursor: Option<string>)

  datatype PostsState = PostsState(
    feed: seq<Post>,
    explorePosts: seq<Post>,
    userPosts: map<string, seq<Post>>,
    currentPost: Option<Post>,
    searchResults: Option<SearchResults<Post>>,
    isLoading: bool,
    isCreating: bool,
    error: Option<string>,
    pagination: Pagination)

  const InitialState := PostsState([], [], map[], None, None, false, false, None, Pagination(false, None))

  /** `after` is `before` with its first entry carrying `p`'s id replaced by `p`, and
      `before` itself when no entry carries that id. */
  ghost predicate ReplacedById(before: seq<Post>, after: seq<Post>, p: Post) {
    match FirstIndex(before, HasId(p.id))
    case None => after == before
    case Some(i) => after == before[i := p]
  }

  /** `after` holds exactly the entries of `before` whose id is not `id`. */
  ghost predicate Purged(before: seq<Post>, after: seq<Post>, id: string) {
    && |after| <= |before|
    && (forall x :: x in after ==> x in before && x.id != id)
    && (forall x :: x in before && x.id != id ==> x in after)
  }

  /** The `findIndex` / assign step of `updatePostInState` on one list: the length is
      kept, `p` is present whenever its id was, and every other entry stays. */
  function ReplaceById(posts: seq<Post>, p: Post): (r: seq<Post>)
    ensures ReplacedById(posts, r, p)
    ensures |r| == |posts|
    ensures HoldsId(posts, p.id) ==> p in r
    ensures forall i :: 0 <= i < |posts| ==> r[i] == posts[i] || (posts[i].id == p.id && r[i] == p)
  {
    assert HoldsId(posts, p.id) ==> FirstIndex(posts, HasId(p.id)).Some? by {
      if HoldsId(posts, p.id) {
        var i :| 0 <= i < |posts| && posts[i].id == p.id;
        assert HasId(p.id)(posts[i]);
      }
    }
    var r := ReplaceFirst(posts, HasId(p.id), p);
    assert FirstIndex(posts, HasId(p.id)).Some? ==> r[FirstIndex(posts, HasId(p.id)).value] == p;
    r
  }

  /** The `filter(p => p.id !== postId)` step of the delete reducer on one list. */
  function Purge(posts: seq<Post>, id: string): (r: seq<Post>)
    ensures Purged(posts, r, id)
    ensures !HoldsId(posts, id) ==> r == posts
  {
    assert !HoldsId(posts, id) ==> Filter(posts, NotId(id)) == posts by {
      if !HoldsId(posts, id) {
        FilterAll(posts, NotId(id));
      }
    }
    Filter(posts, NotId(id))
  }

  /** The purge works segment by segment and drops or keeps each entry on its own, so
      the survivors keep their relative order. */
  lemma PurgeKeepsOrder(a: seq<Post>, b: seq<Post>, x: Post, id: string)
    ensures Purge(a + b, id) == Purge(a, id) + Purge(b, id)
    ensures Purge([x], id) == if x.id == id then [] else [x]
  {
    FilterAppend(a, b, NotId(id));
    FilterOne(x, NotId(id));
  }

  /** `updatePostInState`: the updated post replaces its first copy in the feed, in the
      explore list and in its author's list, and the current post if ids match. Other
      authors' lists, list lengths and the rest of the state are untouched. */
  function UpdatePostInState(s: PostsState, p: Post): (r: PostsState)
    ensures ReplacedById(s.feed, r.feed, p)
    ensures ReplacedById(s.explorePosts, r.explorePosts, p)
    ensures r.userPosts.Keys == s.userPosts.Keys
    ensures forall k :: k in s.userPosts && k != p.authorId ==> r.userPosts[k] == s.userPosts[k]
    ensures p.authorId in s.userPosts ==> ReplacedById(s.userPosts[p.authorId], r.userPosts[p.authorId], p)
    ensures s.currentPost.Some? && s.currentPost.value.id == p.id ==> r.currentPost == Some(p)
    ensures !(s.currentPost.Some? && s.currentPost.value.id == p.id) ==> r.currentPost == s.currentPost
    ensures r.(feed := s.feed, explorePosts := s.explorePosts, userPosts := s.userPosts, currentPost := s.currentPost) == s
  {
    var users := if p.authorId in s.userPosts
      then s.userPosts[p.authorId := ReplaceById(s.userPosts[p.authorId], p)]
      else s.userPosts;
    var current := if s.currentPost.Some? && s.currentPost.value.id == p.id then Some(p) else s.currentPost;
    s.(feed := ReplaceById(s.feed, p), explorePosts := ReplaceById(s.explorePosts, p),
       userPosts := users, currentPost := current)
  }

  /** The `deletePostAsync.fulfilled` reducer: the id disappears from the feed, the
      explore list and every author's list (the rest keep their order), and the current
      post is cleared only when it is the deleted one. */
  function PostDeleted(s: PostsState, id: string): (r: PostsState)
    ensures Purged(s.feed, r.feed, id) && r.feed == Purge(s.feed, id)
    ensures Purged(s.explorePosts, r.explorePosts, id) && r.explorePosts == Purge(s.explorePosts, id)
    ensures r.userPosts.Keys == s.userPosts.Keys
    ensures forall k :: k in s.userPosts ==> Purged(s.userPosts[k], r.userPosts[k], id)
    ensures forall k :: k in s.userPosts ==> r.userPosts[k] == Purge(s.userPosts[k], id)
    ensures r.currentPost.None? <==> s.currentPost.None? || s.currentPost.value.id == id
    ensures r.currentPost.Some? ==> r.currentPost == s.currentPost
    ensures r.(feed := s.feed, explorePosts := s.explorePosts, userPosts := s.userPosts, currentPost := s.currentPost) == s
  {
    var users := map k | k in s.userPosts :: Purge(s.userPosts[k], id);
    var current := if s.currentPost.Some? && s.currentPost.value.id == id then None else s.currentPost;
    s.(feed := Purge(s.feed, id), explorePosts := Purge(s.explorePosts, id), userPosts := users, currentPost := current)
  }

  /** Deleting an id no cache holds changes no cache. */
  lemma DeleteAbsentIsNoOp(s: PostsState, id: string)
    requires !HoldsId(s.feed, id) && !HoldsId(s.explorePosts, id)
    requires forall k :: k in s.userPosts ==> !HoldsId(s.userPosts[k], id)
    requires s.currentPost.None? || s.currentPost.value.id != id
    ensures PostDeleted(s, id) == s
  {
    var r := PostDeleted(s, id);
    assert r.userPosts == s.userPosts;
  }

  /** Updating with a post no cache holds changes nothing. */
  lemma UpdateAbsentIsNoOp(s: PostsState, p: Post)
    requires !HoldsId(s.feed, p.id) && !HoldsId(s.explorePosts, p.id)
    requires p.authorId in s.userPosts ==> !HoldsId(s.userPosts[p.authorId], p.id)
    requires s.currentPost.None? || s.currentPost.value.id != p.id
    ensures UpdatePostInState(s, p) == s
  {
    var r := UpdatePostInState(s, p);
    assert r.feed == s.feed;
    assert r.explorePosts == s.explorePosts;
    assert r.userPosts == s.userPosts;
  }

  /** The actions the posts reducer handles: its own reducers and the pending /
      fulfilled / rejected outcomes of the thunks. */
  datatype Action =
    | ClearError
    | ClearSearchResults
    | ClearCurrentPost
    | UpdatePostInStateAction(post: Post)
    | FeedPending
    | FeedFulfilled(page: FeedPage)
    | FeedRejected(message: string)
    | ExplorePending
    | ExploreFulfilled(page: FeedPage)
    | ExploreRejected(message: string)
    | UserPostsFulfilled(result: UserPosts)
    | PostByIdFulfilled(post: Post)
    | CreatePending
    | CreateFulfilled(post: Post)
    | CreateRejected(message: string)
    | UpdateFulfilled(post: Post)
    | DeleteFulfilled(postId: string)
    | ToggleLikeFulfilled(post: Post)
    | SearchPending
    | SearchFulfilled(results: SearchResults<Post>)
    | SearchRejected(message: string)

  /** No cached copy has a negative like count. */
  ghost predicate CachesLikesNonNegative(s: PostsState) {
    && LikesNonNegative(s.feed)
    && LikesNonNegative(s.explorePosts)
    && (forall k :: k in s.userPosts ==> LikesNonNegative(s.userPosts[k]))
    && (s.currentPost.Some? ==> s.currentPost.value.likesCount >= 0)
    && (s.searchResults.Some? ==> LikesNonNegative(s.searchResults.value.results))
  }

  /** The posts an action carries have non-negative like counts. */
  ghost predicate PayloadLikesNonNegative(a: Action) {
    match a
    case UpdatePostInStateAction(p) => p.likesCount >= 0
    case FeedFulfilled(page) => LikesNonNegative(page.posts)
    case ExploreFulfilled(page) => LikesNonNegative(page.posts)
    case UserPostsFulfilled(result) => LikesNonNegative(result.posts)
    case PostByIdFulfilled(p) => p.likesCount >= 0
    case CreateFulfilled(p) => p.likesCount >= 0
    case UpdateFulfilled(p) => p.likesCount >= 0
    case ToggleLikeFulfilled(p) => p.likesCount >= 0
    case SearchFulfilled(results) => LikesNonNegative(results.results)
    case _ => true
  }

  /** The posts slice reducer: the create reducer prepends to the feed, and every
      rejection records a non-empty error and leaves the feed alone. */
  function Reduce(s: PostsState, a: Action): (r: PostsState)
    ensures a.CreateFulfilled? ==> r.feed == [a.post] + s.feed && !r.isCreating
    ensures a.FeedRejected? || a.ExploreRejected? || a.CreateRejected? || a.SearchRejected? ==>
      r.error.Some? && r.error.value != "" && r.feed == s.feed
  {
    match a
    case ClearError => s.(error := None)
    case ClearSearchResults => s.(searchResults := None)
    case ClearCurrentPost => s.(currentPost := None)
    case UpdatePostInStateAction(p) => UpdatePostInState(s, p)
    case FeedPending => s.(isLoading := true, error := None)
    case FeedFulfilled(page) =>
      s.(isLoading := false, feed := page.posts,
         pagination := Pagination(page.hasNextPage, page.nextCursor), error := None)
    case FeedRejected(m) => s.(isLoading := false, error := Some(ErrorOr(m, "Failed to fetch feed")))
    case ExplorePending => s.(isLoading := true, error := None)
    case ExploreFulfilled(page) => s.(isLoading := false, explorePosts := page.posts, error := None)
    case ExploreRejected(m) => s.(isLoading := false, error := Some(ErrorOr(m, "Failed to fetch explore posts")))
    case UserPostsFulfilled(result) => s.(userPosts := s.userPosts[result.userId := result.posts])
    case PostByIdFulfilled(p) => s.(currentPost := Some(p))
    case CreatePending => s.(isCreating := true, error := None)
    case CreateFulfilled(p) => s.(isCreating := false, feed := [p] + s.feed, error := None)
    case CreateRejected(m) => s.(isCreating := false, error := Some(ErrorOr(m, "Failed to create post")))
    case UpdateFulfilled(p) => UpdatePostInState(s, p)
    case DeleteFulfilled(id) => PostDeleted(s, id)
    case ToggleLikeFulfilled(p) => UpdatePostInState(s, p)
    case SearchPending => s.(isLoading := true, error := None)
    case SearchFulfilled(results) => s.(isLoading := false, searchResults := Some(results), error := None)
    case SearchRejected(m) => s.(isLoading := false, error := Some(ErrorOr(m, "Search failed")))
  }

  lemma ReplacedKeepsLikes(before: seq<Post>, after: seq<Post>, p: Post)
    requires ReplacedById(before, after, p) && LikesNonNegative(before) && p.likesCount >= 0
    ensures LikesNonNegative(after)
  {
    forall i | 0 <= i < |after| ensures after[i].likesCount >= 0 {
      assert after[i] == before[i] || after[i] == p;
    }
  }

  lemma PurgedKeepsLikes(before: seq<Post>, after: seq<Post>, id: string)
    requires Purged(before, after, id) && LikesNonNegative(before)
    ensures LikesNonNegative(after)
  {
    forall i | 0 <= i < |after| ensures after[i].likesCount >= 0 {
      assert after[i] in before;
    }
  }

  /** Caches only ever receive posts from actions, so "like counts are never negative"
      carries over from the payloads to every cached copy. */
  lemma ReducePreservesLikes(s: PostsState, a: Action)
    requires CachesLikesNonNegative(s) && PayloadLikesNonNegative(a)
    ensures CachesLikesNonNegative(Reduce(s, a))
  {
    var r := Reduce(s, a);
    match a
    case UpdatePostInStateAction(p) => UpdateKeepsLikes(s, p);
    case UpdateFulfilled(p) => UpdateKeepsLikes(s, p);
    case ToggleLikeFulfilled(p) => UpdateKeepsLikes(s, p);
    case DeleteFulfilled(id) =>
      PurgedKeepsLikes(s.feed, r.feed, id);
      PurgedKeepsLikes(s.explorePosts, r.explorePosts, id);
      forall k | k in r.userPosts ensures LikesNonNegative(r.userPosts[k]) {
        PurgedKeepsLikes(s.userPosts[k], r.userPosts[k], id);
      }
    case CreateFulfilled(p) =>
      assert forall i :: 1 <= i < |r.feed| ==> r.feed[i] == s.feed[i - 1];
    case _ =>
  }

  lemma UpdateKeepsLikes(s: PostsState, p: Post)
    requires CachesLikesNonNegative(s) && p.likesCount >= 0
    ensures CachesLikesNonNegative(UpdatePostInState(s, p))
  {
    var r := UpdatePostInState(s, p);
    ReplacedKeepsLikes(s.feed, r.feed, p);
    ReplacedKeepsLikes(s.explorePosts, r.explorePosts, p);
    forall k | k in r.userPosts ensures LikesNonNegative(r.userPosts[k]) {
      if k == p.authorId {
        ReplacedKeepsLikes(s.userPosts[k], r.userPosts[k], p);
      }
    }
  }

  /** The mock collection and the slice state together: one thunk step followed by the
      reducer for its outcome. */
  datatype World = World(posts: seq<Post>, state: PostsState)

  /** Dispatching `toggleLikePostAsync`: on success the collection and every cached copy
      converge on the same toggled post; the slice has no rejected case for this thunk,
      so a failure changes nothing. */
  function DispatchToggleLike(w: World, id: string): (r: World)
    ensures HoldsId(w.posts, id) ==>
      var p := Toggled(w.posts[FirstIndex(w.posts, HasId(id)).value]);
      && p in r.posts
      && (HoldsId(w.state.feed, id) ==> p in r.state.feed)
      && (HoldsId(w.state.explorePosts, id) ==> p in r.state.explorePosts)
      && (p.authorId in w.state.userPosts && HoldsId(w.state.userPosts[p.authorId], id) ==>
            p.authorId in r.state.userPosts && p in r.state.userPosts[p.authorId])
      && (w.state.currentPost.Some? && w.state.currentPost.value.id == id ==> r.state.currentPost == Some(p))
    ensures !HoldsId(w.posts, id) ==> r == w
  {
    match ToggleLike(w.posts, id)
    case Ok(e) =>
      var i := FirstIndex(w.posts, HasId(id)).value;
      assert e.store[i] == e.payload;
      World(e.store, Reduce(w.state, ToggleLikeFulfilled(e.payload)))
    case Err(_) => w
  }
}
