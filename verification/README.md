# VieTick client state layer in Dafny

This project models the client-side state layer of VieTick, a social network front end built on React and Redux Toolkit. The model covers:

- the seven Redux slices: posts, comments, follows, auth, users, verification and ui;
- the in-memory mock backend that their async thunks query and mutate;
- the request and response interceptors of the shared HTTP client.

Modelling choices:

- Each thunk is a pure function. It takes the mock collection and, where the source reads it, the signed-in user and `localStorage`. It returns a `Result`: either an `Effect` holding the new collection and the payload, or the error message the thunk throws.
- Each slice reducer is a function `Reduce(state, action)`. Its actions are the slice's own reducers plus the `pending` / `fulfilled` / `rejected` cases it handles.
- `Dispatch*` functions chain a thunk with the reducer cases it triggers.
- Clock readings (`Date.now()`, `new Date()`) become the integer parameter `now`, in milliseconds since the epoch.
- `Math.random()` draws become parameters, restricted to their range.
- Seed timestamps are converted from their ISO strings to milliseconds.

Files:

- `results.dfy`: `Option`, `Result` and `Effect`.
- `text.dfy`: string helpers. It covers number printing and parsing, JavaScript truthiness of strings, ASCII `toLowerCase`, `includes`, and `message || fallback`.
- `seqs.dfy`: the array operations the slices use.
- `paging.dfy`: `Array.prototype.slice` and the `(page - 1) * limit` pagination.
- `ordering.dfy`: the stable descending sort that `Array.prototype.sort` performs with the slices' comparators.
- `types.dfy`: the entities, and `{ ...a, ...b }` as `Merge`.
- `seed.dfy`: the seed accounts, posts and comments of `src/api/config.ts`.
- `persist.dfy`: `localStorage`.
- `posts.dfy`, `comments.dfy`, `follows.dfy`, `auth.dfy`, `users.dfy`, `verification.dfy`, `ui.dfy`: one module per slice.
- `gateway.dfy`: the HTTP client's interceptors.

Behaviour of the code that the model keeps, although its own comments or names suggest otherwise:

- The verification slice keeps `canSubmit` as computed at the last eligibility check. The submit reducer's comment says a pending application cannot be submitted again (`src/store/slices/verificationSlice.ts:181`), but the status reducer (`:195-199`) stores a status fetched later without lowering `canSubmit`. `Verification.StaleCanSubmit` exhibits a state that holds `canSubmit` while the application is pending; the model follows the code.
- `registerAsync` does not add the new account to `mockUsers`. A freshly registered user therefore cannot log in (`Auth.RegisteredCannotLogIn`).
- The 401 handler decides whether to refresh by looking at the refresh token in the Redux state. The refresh thunk then reads the one in `localStorage`. When only the first is present, the refresh fails and the session ends with "Session expired".
- `updateUserProfileAsync` always edits the first seed account.

## Model

| member | source | states |
|---|---|---|
| Seed.SeedInvariants | src/api/config.ts:91-198 | Seed account ids, usernames and emails are pairwise distinct; every seed post's and comment's author is a seed account whose id is the `authorId` |
| Posts.InitialPostsWellFormed | src/store/slices/postsSlice.ts:23-63 | The slice's post collection (seed plus three more) has distinct ids, non-negative like counts and seed authors |
| Comments.InitialCommentsWellFormed | src/store/slices/commentsSlice.ts:15-50 | The comment collection has distinct ids, non-negative like counts and seed authors |
| Types.MergeLaws | src/store/slices/usersSlice.ts:58-62 | Object spread with an empty patch copies the record; spreading the same patch twice equals spreading it once; a present field overrides |
| Paging.JsSlice | src/store/slices/postsSlice.ts:76-78 | `slice(start, end)` returns a run of consecutive elements; for non-negative bounds it is exactly the clamped range |
| Paging.Page | src/store/slices/postsSlice.ts:76-78 | A page is a window of at most `limit` elements starting at `(page - 1) * limit` |
| Paging.NextPage | src/store/slices/postsSlice.ts:80-84 | `hasNextPage` holds iff the end index is below the length; the cursor is present exactly then and parses back to the end index |
| Seqs.Count | src/store/slices/followsSlice.ts:240-246 | `filter(...).length` is the number of positions whose element satisfies the predicate; zero iff none does |
| Paging.PagesCoverPrefix | src/store/slices/postsSlice.ts:76-78 | Pages 1..k concatenated are the first `k * limit` elements: paging neither loses nor repeats anything |
| Paging.LastPageReachesEnd | src/store/slices/postsSlice.ts:80-84 | Without a next page the current page reaches the end; with one, the current page is full |
| Ordering.SortByKeyDesc | src/store/slices/postsSlice.ts:72-74 | The sort result is a permutation of its input and is non-increasing in the key |
| Ordering.SortIsStable | src/store/slices/postsSlice.ts:94-96 | Elements with equal keys keep their relative input order |
| Ordering.SortOrderedIsIdentity | src/store/slices/postsSlice.ts:72-74 | Sorting an already ordered list changes nothing |
| Posts.GetFeed | src/store/slices/postsSlice.ts:66-86 | For a page of at least one, the feed page is exactly the entries `(page - 1) * limit` up to `page * limit` of the posts sorted newest first (stably); in every case a run of that sorted list of at most `limit` posts; the pagination flags agree with the window |
| Posts.GetExplore | src/store/slices/postsSlice.ts:88-106 | For a page of at least one, exactly the entries `(page - 1) * limit` up to `page * limit` of the posts sorted by likes, descending and stable; in every case a run of that list of at most `limit` posts |
| Posts.ListingIsPermutation | src/store/slices/postsSlice.ts:66-106 | A single page covering everything is a permutation of the collection, keeps equal-key posts in store order, and has no next page |
| Posts.FeedOfOrdered | src/store/slices/postsSlice.ts:66-86 | For a collection already newest first, the feed page is the plain slice of it |
| Posts.FeedScenario | src/store/slices/postsSlice.ts:66-86 | On the initial collection, page 1 of size 2 holds posts 1 and 2, has a next page and cursor "2" |
| Posts.GetUserPosts | src/store/slices/postsSlice.ts:108-124 | Only posts by the author, newest first, at most `limit`; for a page of at least one, exactly the entries `(page - 1) * limit` up to `page * limit` of the author's posts sorted newest first |
| Posts.UserPostsPagesCoverAuthor | src/store/slices/postsSlice.ts:108-124 | Reading an author's pages 1..k, once they span the author's posts, yields each of those posts exactly once (a permutation), newest first |
| Posts.GetPostById | src/store/slices/postsSlice.ts:126-138 | Succeeds iff a post has the id, returning the first post with that id, as `find` does; otherwise "Post not found" |
| Posts.CreatePost | src/store/slices/postsSlice.ts:140-169 | Fails iff signed out; otherwise prepends a post by the current user with id `now`, zero counts, not liked |
| Posts.UpdatePost | src/store/slices/postsSlice.ts:171-191 | Fails iff the id is unknown; otherwise replaces the first match's content and `updatedAt`, nothing else |
| Posts.DeletePost | src/store/slices/postsSlice.ts:193-207 | Fails iff the id is unknown; otherwise removes exactly the first match |
| Types.FlipLike | src/store/slices/postsSlice.ts:220-227 | Flips the liked flag and moves the count one step in the new direction, clamped at zero |
| Types.FlipLikeTwice | src/store/slices/commentsSlice.ts:150-157 | Flipping twice restores the pair iff it was not liked with zero likes |
| Posts.Toggled | src/store/slices/postsSlice.ts:220-227 | Applies the like flip to a post and changes no other field |
| Posts.ToggleTwice | src/store/slices/postsSlice.ts:220-227 | Toggling twice restores the post iff it is not a liked post with zero likes |
| Posts.ToggleLike | src/store/slices/postsSlice.ts:209-233 | Fails iff the id is unknown; otherwise replaces the first match with its toggled copy and keeps like counts non-negative |
| Posts.ToggleLikeTwice | src/store/slices/postsSlice.ts:209-233 | Liking and unliking the same post gives back the collection |
| Posts.CreateThenLookupAndDelete | src/store/slices/postsSlice.ts:126-207 | A created post can be fetched by its id and then deleted |
| Posts.DeleteThenGone | src/store/slices/postsSlice.ts:193-207 | After a delete, with unique ids, the post is neither fetchable nor in any feed page |
| Posts.WritesKeepIdsUnique | src/store/slices/postsSlice.ts:140-233 | Update, toggle and delete keep ids unique, and so does create when the clock reading is a fresh id |
| Posts.SearchPosts | src/store/slices/postsSlice.ts:235-257 | `total` is the number of positions in the collection holding a matching post; for a page of at least one the results are exactly that page of the matches in collection order |
| Posts.SearchPagesCoverMatches | src/store/slices/postsSlice.ts:235-257 | Reading the search pages 1..k, once they span the announced total, yields every match exactly once, in collection order |
| Posts.EmptyQueryMatchesAll | src/store/slices/postsSlice.ts:241-245 | The empty query matches every post |
| Posts.GetPostStats | src/store/slices/postsSlice.ts:259-275 | Fails iff the id is unknown; otherwise reports the like and comment counts of the first post with the id, and the drawn share count |
| Posts.ReplaceById | src/store/slices/postsSlice.ts:309-318 | The first entry with the post's id becomes the post and every other entry stays; a list without the id is unchanged |
| Posts.Purge | src/store/slices/postsSlice.ts:406-427 | Keeps exactly the entries whose id differs; a list without the id is unchanged |
| Posts.PurgeKeepsOrder | src/store/slices/postsSlice.ts:406-427 | Purging distributes over concatenation and drops or keeps a single entry by its id alone, so the survivors keep their relative order |
| Posts.UpdatePostInState | src/store/slices/postsSlice.ts:305-333 | Feed, explore list, the author's list and the current post all take the new copy; other authors' lists and other fields are unchanged |
| Posts.PostDeleted | src/store/slices/postsSlice.ts:406-427 | The feed, the explore list and every author's list are purged of the id, in order; the current post is cleared iff it was that post; nothing else changes |
| Posts.DeleteAbsentIsNoOp | src/store/slices/postsSlice.ts:406-427 | Deleting a post no cache holds leaves the state as it was |
| Posts.UpdateAbsentIsNoOp | src/store/slices/postsSlice.ts:305-333 | Updating a post no cache holds leaves the state as it was |
| Posts.Reduce | src/store/slices/postsSlice.ts:292-448 | A created post goes to the head of the feed; every rejection stores a non-empty error |
| Posts.ReducePreservesLikes | src/store/slices/postsSlice.ts:292-448 | Given payloads with non-negative likes, no action makes a cached like count negative |
| Posts.DispatchToggleLike | src/store/slices/postsSlice.ts:209-233 | After a toggle the collection, the feed, the explore list, the author's list and the current post, whichever held the post, contain the same toggled copy; an unknown id changes nothing |
| Comments.GetPostComments | src/store/slices/commentsSlice.ts:53-67 | Returns exactly the post's comments, as a permutation of the filtered list, newest first |
| Comments.FetchIsStable | src/store/slices/commentsSlice.ts:53-67 | Comments with the same timestamp keep their store order |
| Comments.CreateComment | src/store/slices/commentsSlice.ts:69-99 | Fails iff signed out; otherwise appends a comment by the current user with id `now` on the given post |
| Comments.UpdateComment | src/store/slices/commentsSlice.ts:101-121 | Fails iff the id is unknown; otherwise changes only the first match's content and `updatedAt` |
| Comments.DeleteComment | src/store/slices/commentsSlice.ts:123-138 | Fails iff the id is unknown; otherwise removes the first match and reports its id and post |
| Comments.Toggled | src/store/slices/commentsSlice.ts:150-157 | Applies the like flip to a comment and changes no other field |
| Comments.ToggleLikeComment | src/store/slices/commentsSlice.ts:140-164 | Fails iff the id is unknown; otherwise replaces the first match by its toggled copy |
| Comments.ToggleLikeCommentTwice | src/store/slices/commentsSlice.ts:140-164 | Toggling twice restores the collection iff the comment is not liked with zero likes |
| Comments.GetCommentById | src/store/slices/commentsSlice.ts:166-178 | Succeeds iff a comment has the id, returning the first comment with that id; otherwise "Comment not found" |
| Comments.CreateThenFetch | src/store/slices/commentsSlice.ts:53-99 | A created comment appears among its post's fetched comments |
| Comments.DeleteThenGone | src/store/slices/commentsSlice.ts:123-138 | After a delete, with unique ids, the comment is neither fetchable nor listed |
| Comments.UpdateCommentInState | src/store/slices/commentsSlice.ts:197-207 | Only the list of the comment's post changes, and only its first same-id entry |
| Comments.CommentDeleted | src/store/slices/commentsSlice.ts:258-267 | Only the list of the post changes: it becomes its order-preserving filter without the id; other lists and fields are unchanged |
| Comments.DeleteKeepsOrder | src/store/slices/commentsSlice.ts:258-263 | Dropping an id splits over concatenation and decides each comment on its own, so the survivors keep their order |
| Comments.Reduce | src/store/slices/commentsSlice.ts:209-271 | A created comment heads its post's list, which is created if absent; a fetch overwrites the post's list; clearing removes the key; rejections store a non-empty error |
| Comments.ReducePreservesGrouped | src/store/slices/commentsSlice.ts:187-271 | Every cached list holds only comments of the post it is filed under |
| Comments.DispatchCreate | src/store/slices/commentsSlice.ts:69-99 | A created comment is both at the end of the store and at the head of its post's cached list; signed out, the error is "User not authenticated" |
| Follows.SeedWellFormed | src/store/slices/followsSlice.ts:17-42 | The seed edges have no self-follow and no duplicate ordered pair |
| Follows.Follow | src/store/slices/followsSlice.ts:45-82 | Guards in the source's order (signed out, self, already following); success appends the one new edge |
| Follows.Unfollow | src/store/slices/followsSlice.ts:84-109 | Succeeds iff the pair is present; removes its first edge |
| Follows.FollowAddsPair | src/store/slices/followsSlice.ts:45-82 | After a follow, a pair is followed iff it was followed before or is the new pair |
| Follows.FollowKeepsWellFormed | src/store/slices/followsSlice.ts:45-82 | Follow keeps the edge set free of self-edges and duplicates |
| Follows.UnfollowRemovesPair | src/store/slices/followsSlice.ts:84-109 | On a well-formed set, after an unfollow a pair is followed iff it was before and is not the removed one |
| Follows.UnfollowOnlyRemoves | src/store/slices/followsSlice.ts:84-109 | An unfollow never creates a pair, whatever the shape of the edge list |
| Follows.UnfollowKeepsWellFormed | src/store/slices/followsSlice.ts:84-109 | Unfollow keeps the set well formed |
| Follows.FollowThenUnfollow | src/store/slices/followsSlice.ts:45-109 | Unfollowing right after a follow gives back the original edges |
| Follows.ToggleFollow | src/store/slices/followsSlice.ts:111-132 | Delegates to unfollow when the pair exists and to follow otherwise |
| Follows.ToggleFlips | src/store/slices/followsSlice.ts:111-132 | On a well-formed set, a toggle fails only for self-follow and otherwise flips whether the pair is followed |
| Follows.GetFollowStatus | src/store/slices/followsSlice.ts:134-166 | Reports both directions; mutual iff both hold; all false when signed out |
| Follows.Followers | src/store/slices/followsSlice.ts:168-183 | The accounts list filtered to those that follow the user: account order, each account once per occurrence |
| Follows.Following | src/store/slices/followsSlice.ts:185-200 | The accounts list filtered to those the user follows, in account order |
| Follows.MutualFollows | src/store/slices/followsSlice.ts:202-233 | The accounts list filtered to those both users follow, in account order; empty when signed out |
| Follows.GetFollowCounts | src/store/slices/followsSlice.ts:235-254 | `followersCount` is the number of edges into the user and `followingCount` the number out of it; each is zero iff no edge points that way |
| Follows.FollowChangesCounts | src/store/slices/followsSlice.ts:45-82 | A follow adds one to the target's follower count and one to the actor's following count, nothing else |
| Follows.UnfollowChangesCounts | src/store/slices/followsSlice.ts:84-109 | An unfollow takes one off both counts |
| Follows.Reduce | src/store/slices/followsSlice.ts:303-406 | Follow and unfollow update the target's cached status (mutual computed from the prior follower flag); clearing drops the user's lists; rejections store a non-empty error |
| Follows.ReducePreservesCoherent | src/store/slices/followsSlice.ts:303-406 | Every cached status stays coherent: mutual implies following and follower |
| Follows.FetchedStatusIsCoherent | src/store/slices/followsSlice.ts:376-386 | A fetched status is coherent |
| Follows.DispatchFollow | src/store/slices/followsSlice.ts:45-82 | The dispatch succeeds iff the thunk does; the edge store and the cached status move together |
| Follows.DispatchUnfollow | src/store/slices/followsSlice.ts:84-109 | Same for unfollow |
| Follows.BulkFollow | src/store/slices/followsSlice.ts:256-273 | Afterwards every listed user other than oneself is followed, no earlier follow is lost and the set stays well formed; every reported id is a listed user, not oneself, who was not followed before |
| Follows.BulkUnfollow | src/store/slices/followsSlice.ts:275-292 | On a well-formed edge list, no listed user is followed afterwards; every reported id is a listed user who was followed before |
| Follows.UnfollowedStaysUnfollowed | src/store/slices/followsSlice.ts:275-292 | A bulk unfollow never creates a follow, for any edge list |
| Storage.Put | src/store/slices/authSlice.ts:25-27 | `setItem` changes exactly one key |
| Storage.Delete | src/store/slices/authSlice.ts:170-172 | `removeItem` removes exactly one key |
| Auth.Persist | src/store/slices/authSlice.ts:25-28 | Login persists both tokens and the user and leaves other keys alone |
| Auth.Login | src/store/slices/authSlice.ts:9-36 | Succeeds iff the email is known and the password is the mock one; the session holds that account and tokens stamped `now` |
| Auth.NewAccount | src/store/slices/authSlice.ts:49-63 | A new account has id `now`, the given names, empty bio and avatar, zero counts, and is not verified |
| Auth.Register | src/store/slices/authSlice.ts:38-81 | Fails iff the email or username is taken; otherwise persists a new session |
| Auth.RegisteredCannotLogIn | src/store/slices/authSlice.ts:9-81 | Registration does not add to the account list, so logging in as the new user fails |
| Auth.Refresh | src/store/slices/authSlice.ts:83-98 | Succeeds iff a non-empty refresh token is stored; writes only the new access token |
| Auth.GetCurrentUser | src/store/slices/authSlice.ts:100-119 | Succeeds iff storage holds a user and a non-empty access token, and returns them |
| Auth.ChangePassword | src/store/slices/authSlice.ts:121-133 | Fails iff the current password is not the mock one |
| Auth.Reduce | src/store/slices/authSlice.ts:164-276 | Logout signs out and removes both tokens and the user from storage; updateUser merges into a present user only; fulfilled login or register starts a session; refresh failure ends it; only logout and updateUser write storage |
| Auth.ReducePreservesConsistent | src/store/slices/authSlice.ts:164-276 | Authenticated iff a user is present, and never without an access token, after every action |
| Auth.ReduceAllConsistent | src/store/slices/authSlice.ts:164-276 | The same for any sequence of actions |
| Auth.LogoutIdempotent | src/store/slices/authSlice.ts:168-179 | Logging out twice is logging out once |
| Auth.DispatchLogin | src/store/slices/authSlice.ts:9-36 | Success leaves state and storage signed in to the account; failure stores the error and keeps the session |
| Auth.DispatchRegister | src/store/slices/authSlice.ts:38-81 | Same for registration |
| Auth.DispatchRefresh | src/store/slices/authSlice.ts:83-98 | Success swaps only the access token; failure ends the session in state and leaves storage |
| Auth.DispatchGetCurrentUser | src/store/slices/authSlice.ts:100-119 | The client is authenticated afterwards iff storage held a user and an access token; then user, access token and refresh token come from storage, otherwise all three are cleared |
| Auth.SeedLogin | src/store/slices/authSlice.ts:9-36 | The seed account logs in with the mock password and not with another |
| Users.GetUserProfile | src/store/slices/usersSlice.ts:16-33 | Fails with "User not found" iff no account has the id; otherwise the first account with the id, with the three drawn viewer fields as given |
| Users.GetUserByUsername | src/store/slices/usersSlice.ts:35-52 | Fails iff no account has the username; otherwise the first account with it, with the drawn viewer fields as given |
| Users.LookupsAgree | src/store/slices/usersSlice.ts:16-52 | With unique accounts, looking up by username and by id return the same profile |
| Users.UpdateUserProfile | src/store/slices/usersSlice.ts:54-71 | The first seed account with the patch applied field by field (each field the patch leaves out keeps the seed value) and `updatedAt` now; re-applying the patch changes nothing; stored as the user |
| Users.GetUserStats | src/store/slices/usersSlice.ts:73-91 | Fails iff the id is unknown; otherwise the counts of the first account with the id plus the drawn likes and comments |
| Users.SearchUsers | src/store/slices/usersSlice.ts:93-115 | `total` is the number of positions holding a matching account; for a page of at least one the results are exactly that page of the matches in account order |
| Users.SearchPagesCoverMatches | src/store/slices/usersSlice.ts:93-115 | Walking enough pages yields every match exactly once, in order |
| Users.RecommendedUsers | src/store/slices/usersSlice.ts:117-126 | min(5, n) picks from the n accounts, none picked more often than it occurs |
| Users.CheckUsername | src/store/slices/usersSlice.ts:128-136 | Available iff no account has the username |
| Users.CheckEmail | src/store/slices/usersSlice.ts:138-146 | Available iff no account has the email |
| Users.AvailabilityPredictsRegister | src/store/slices/usersSlice.ts:128-146 | Registration fails iff the username or the email check reports unavailable |
| Users.UpdateUserInProfiles | src/store/slices/usersSlice.ts:166-171 | Merges into a cached profile and does nothing for an uncached user |
| Users.Reduce | src/store/slices/usersSlice.ts:156-244 | Fetched profiles are cached by id; rejections store a non-empty error; recommendations replace the list |
| Users.ReducePreservesKeyedById | src/store/slices/usersSlice.ts:156-244 | Profiles stay filed under their own id unless a patch renames the id |
| Users.RenameBreaksKeying | src/store/slices/usersSlice.ts:166-171 | A patch that changes the id leaves a profile filed under its old id |
| Verification.AccountAgeDays | src/store/slices/verificationSlice.ts:107-109 | The whole number of days since creation, by floor division |
| Verification.AgeThreshold | src/store/slices/verificationSlice.ts:107-114 | At least d whole days old iff d days of milliseconds have passed |
| Verification.CheckCanSubmit | src/store/slices/verificationSlice.ts:94-120 | False when signed out; otherwise 100 followers, 10 posts, 30 days, non-empty avatar and bio |
| Verification.EligibilityPersists | src/store/slices/verificationSlice.ts:94-120 | Eligibility does not expire as time passes |
| Verification.SeedEligibility | src/store/slices/verificationSlice.ts:94-120 | The first seed account is eligible exactly from 30 days after creation |
| Verification.Submit | src/store/slices/verificationSlice.ts:25-45 | Fails iff signed out; otherwise a pending application stamped now |
| Verification.GetStatus | src/store/slices/verificationSlice.ts:47-92 | Approved iff verified; otherwise the draw picks pending, rejected or not submitted at 0.3 and 0.6; every status carries the timestamps its phase implies |
| Verification.GetVerifiedUsers | src/store/slices/verificationSlice.ts:130-148 | Only verified accounts, at most `limit` (20 by default); for a page of at least one exactly that page of the verified accounts in account order |
| Verification.VerifiedPagesCoverAll | src/store/slices/verificationSlice.ts:130-148 | Reading pages 1..k, once they span the verified accounts, lists each of them exactly once, in account order |
| Verification.SeedVerifiedUsers | src/store/slices/verificationSlice.ts:130-148 | With the seed accounts the first page lists John Doe then Mike Chen |
| Verification.Reduce | src/store/slices/verificationSlice.ts:159-223 | A check raises `canSubmit` iff eligible and the status allows an application; a submission lowers it; reset clears status and flag; rejections store a non-empty error |
| Verification.ReduceKeepsGated | src/store/slices/verificationSlice.ts:159-223 | Every action other than a fetched status keeps `canSubmit` only where an application is possible |
| Verification.StaleCanSubmit | src/store/slices/verificationSlice.ts:195-199 | A fetched pending status leaves a raised `canSubmit` in place |
| Verification.RecheckRestoresGate | src/store/slices/verificationSlice.ts:206-209 | A fresh eligibility check restores the gate |
| Verification.DispatchSubmit | src/store/slices/verificationSlice.ts:173-187 | Signed in, the status becomes pending and `canSubmit` false; signed out, the error is "User not authenticated" |
| Verification.DispatchCheck | src/store/slices/verificationSlice.ts:94-120 | `canSubmit` afterwards is eligibility and an open status |
| Verification.NoSecondSubmission | src/store/slices/verificationSlice.ts:178-209 | After a submission no eligibility check allows another |
| Ui.ThemeName | src/store/slices/uiSlice.ts:20-27 | The stored theme is "light" or "dark" |
| Ui.SetThemeIn | src/store/slices/uiSlice.ts:20-23 | Sets the theme and stores its name under `theme`, leaving other keys alone |
| Ui.ToggleThemeIn | src/store/slices/uiSlice.ts:24-27 | Switches to the other theme and persists it |
| Ui.ToggleTwice | src/store/slices/uiSlice.ts:24-27 | Toggling twice restores the state and stores the original theme |
| Ui.Stamp | src/store/slices/uiSlice.ts:31-38 | A notification gets id `now` as a string and creation time `now`, with its content kept |
| Ui.Duration | src/store/slices/uiSlice.ts:58-101 | Error 7000 ms, warning 6000 ms, success and info 5000 ms |
| Ui.RemoveId | src/store/slices/uiSlice.ts:39-43 | Removes every notification with the id and keeps all others |
| Ui.RemoveKeepsOrder | src/store/slices/uiSlice.ts:39-43 | Removal keeps the survivors in their original order |
| Ui.RemoveIdempotent | src/store/slices/uiSlice.ts:39-43 | Removing twice is removing once |
| Ui.AddThenRemove | src/store/slices/uiSlice.ts:31-43 | Removing a just-added notification with a fresh id restores the list |
| Ui.Reduce | src/store/slices/uiSlice.ts:16-103 | Open or close sets one modal and keeps the other three; close-all closes all; each add or show appends exactly one stamped notification with the draft's kind, title and message; `show*` gives its kind's duration, `addNotification` keeps the payload's own; only theme actions touch storage |
| Ui.CloseAllIdempotent | src/store/slices/uiSlice.ts:53-57 | Closing all modals is idempotent and leaves none open |
| Ui.OpenThenClose | src/store/slices/uiSlice.ts:47-52 | Opening then closing a closed modal restores the flags |
| Gateway.Authorize | src/api/config.ts:19-36 | Adds `Authorization: Bearer <token>` iff the access token is non-empty; otherwise the request is unchanged |
| Gateway.ErrorMessage | src/api/config.ts:76-82 | Server message, else the error's own message, else "An unexpected error occurred"; never empty |
| Gateway.HandleFailure | src/api/config.ts:43-85 | A 401 on a request not yet retried: with a state refresh token it refreshes and re-sends with the new bearer, or logs out with "Session expired" and rejects with the refresh error; without one it logs out, shows "Please log in to continue." then the message, and rejects. Any other failure only toasts and rejects |
| Gateway.Send | src/api/config.ts:19-86 | A success passes through untouched; at most two requests reach the server, the second exactly after a refreshable 401, carrying the refreshed token and marked as retried |
| Gateway.NoSecondRefresh | src/api/config.ts:46-47 | An already retried request is sent once and a failure only toasts and rejects |
| Gateway.OtherFailuresKeepSession | src/api/config.ts:75-84 | A non-401 failure leaves the session untouched |

## Left out

- JSON serialisation of the `user` storage entry: storage holds the user value itself.
- axios transport, base URL, timeout and headers other than `Authorization`: the server is a parameter.
- react-hot-toast: toasts are returned as the list of messages shown, not rendered.
- `mockDelay` and all asynchrony: thunks run atomically, one after another, with no interleaving of concurrent dispatches.
- `Math.random()`: draws become parameters (profile flags, user stats, share counts, the recommendation shuffle as a permutation, the verification status roll).
- ISO-8601 date strings: timestamps are integer milliseconds, so `new Date(...)` parsing of malformed strings (NaN) is not modelled.
- Auth.Login: `Date.now()` is read twice, once per token (`src/store/slices/authSlice.ts:21-22`); the model uses one reading `now` for both.
- Auth.Register: the id, both timestamps and the two tokens each read the clock (`authSlice.ts:50-67`); the model uses one reading for all five.
- Posts.CreatePost: the id and both timestamps each read the clock (`postsSlice.ts:153-161`); the model uses one reading for all three.
- Comments.CreateComment: the id and both timestamps each read the clock (`commentsSlice.ts:82-91`); the model uses one reading for all three.
- Follows.Follow: the edge id and its timestamp each read the clock (`followsSlice.ts:72-75`); the model uses one reading for both.
- Ui.Stamp: a notification's id and creation time each read the clock (`uiSlice.ts:34-35`, and the `show*Notification` reducers at `:60-98`); the model uses one reading for both.
- `verifyEmailAsync` and `resendVerificationAsync` (src/store/slices/authSlice.ts:135-153): they return fixed messages and no reducer handles them.
- Text.IntToString: `Number.prototype.toString` is modelled for integers only; exponent notation for very large values is not.
- Paging.Page: page and limit are integers; fractional page arguments are not modelled.
- `String.prototype.toLowerCase` beyond ASCII letters: search lowercases A–Z only.
- The `replies` field of comments, which no thunk or reducer reads.
- Reducer cases the slices do not handle (for example the pending and rejected cases of the eligibility check) leave the state unchanged and are not listed as actions.
- Users.GetUserStats: requires the two draws to lie in the ranges `Math.random()` produces them in.
- Posts.GetPostStats: requires the share draw to lie in its range.
