/** The verification slice (src/store/slices/verificationSlice.ts): the blue-badge
    application. A signed-in user who meets the fixed requirements may submit one; the
    mock backend answers status queries from the user's `isVerified` flag or, for an
    unverified user, from a random draw. */
module Verification {
  import opened Results
  import opened Text
  import opened Seqs
  import opened Paging
  import opened Types
  import Seed

  const NotAuthenticated := "User not authenticated"
  const DefaultLimit := 20
  /** `1000 * 60 * 60 * 24`: one day in milliseconds. */
  const DayMs := 86400000

  /** `mockRequirements`. */
  const Requirements := VerificationRequirements(100, 10, 30, true, true)

  /** The fixed statuses the mock backend reports (2024-06-01T10:00Z, 2024-06-05T14:30Z,
      2024-06-20T08:00Z, 2024-06-15T12:00Z, 2024-06-18T16:45Z). */
  const ApprovedStatus := VerificationStatus(Approved, Some(1717236000000), Some(1717597800000), None)
  const PendingStatus := VerificationStatus(Pending, Some(1718870400000), None, None)
  const RejectionReason := "Insufficient documentation provided. Please submit clear, valid government-issued ID."
  const RejectedStatus := VerificationStatus(Rejected, Some(1718452800000), Some(1718729100000), Some(RejectionReason))
  const NotSubmittedStatus := VerificationStatus(NotSubmitted, None, None, None)

  // ---------------------------------------------------------------------------
  // Eligibility
  // ---------------------------------------------------------------------------

  /** `Math.floor((now - createdAt) / DayMs)`: whole days since the account was created. */
  function AccountAgeDays(createdAt: int, now: int): (days: int)
    ensures DayMs * days <= now - createdAt < DayMs * (days + 1)
  {
    (now - createdAt) / DayMs
  }

  /** The account is at least `days` whole days old exactly when `days` days of
      milliseconds have passed since its creation. */
  lemma AgeThreshold(createdAt: int, now: int, days: int)
    ensures AccountAgeDays(createdAt, now) >= days <==> now - createdAt >= days * DayMs
  {
    var a := AccountAgeDays(createdAt, now);
    if a >= days {
      assert DayMs * days <= DayMs * a;
    } else {
      assert DayMs * (a + 1) <= DayMs * days;
    }
  }

  /** The requirement test as the thunk writes it, for any set of requirements. */
  predicate Meets(u: User, req: VerificationRequirements, now: int) {
    && u.followersCount >= req.minFollowers
    && u.postsCount >= req.minPosts
    && AccountAgeDays(u.createdAt, now) >= req.accountAge
    && (if req.hasProfilePicture then Truthy(u.avatar) else true)
    && (if req.hasBio then Truthy(u.bio) else true)
  }

  /** `checkCanSubmitVerificationAsync`: false for a signed-out client; otherwise at
      least 100 followers, 10 posts, 30 days of age, a non-empty avatar and bio. */
  function CheckCanSubmit(currentUser: Option<User>, now: int): (r: bool)
    ensures currentUser.None? ==> !r
    ensures currentUser.Some? ==>
      var u := currentUser.value;
      (r <==> && u.followersCount >= 100 && u.postsCount >= 10
              && now - u.createdAt >= 30 * DayMs
              && u.avatar.Some? && u.avatar.value != ""
              && u.bio.Some? && u.bio.value != "")
  {
    match currentUser
    case None => false
    case Some(u) =>
      AgeThreshold(u.createdAt, now, 30);
      Meets(u, Requirements, now)
  }

  /** Eligibility is monotone in time: once eligible, a user stays eligible while the
      profile is unchanged. */
  lemma EligibilityPersists(u: User, now: int, later: int)
    requires now <= later
    requires CheckCanSubmit(Some(u), now)
    ensures CheckCanSubmit(Some(u), later)
  {
  }

  /** Of the seed accounts, John Doe is eligible from 30 days after his account was
      created, and not a millisecond before. */
  lemma SeedEligibility(now: int)
    ensures CheckCanSubmit(Some(Seed.John), now) <==> now >= Seed.John.createdAt + 30 * DayMs
  {
  }

  // ---------------------------------------------------------------------------
  // Submission and status
  // ---------------------------------------------------------------------------

  /** `submitVerificationAsync`: a pending application stamped `now`. */
  function Submit(currentUser: Option<User>, now: int): (r: Result<VerificationStatus>)
    ensures r.Err? <==> currentUser.None?
    ensures r.Err? ==> r.error == NotAuthenticated
    ensures r.Ok? ==> r.value.status == Pending && r.value.submittedAt == Some(now)
    ensures r.Ok? ==> r.value.reviewedAt.None? && r.value.reason.None?
  {
    if currentUser.None? then Err(NotAuthenticated)
    else Ok(VerificationStatus(Pending, Some(now), None, None))
  }

  /** A status is well formed when it carries the timestamps its phase implies: one that
      was never submitted has none, a reviewed one has a review after its submission,
      and only a rejection gives a reason. */
  predicate WellFormed(v: VerificationStatus) {
    && (v.status == NotSubmitted <==> v.submittedAt.None?)
    && (v.reviewedAt.Some? <==> v.status == Approved || v.status == Rejected)
    && (v.reviewedAt.Some? && v.submittedAt.Some? ==> v.submittedAt.value < v.reviewedAt.value)
    && (v.reason.Some? ==> v.status == Rejected)
  }

  /** `getVerificationStatusAsync`, with `Math.random()` as the parameter `roll`. A
      verified user is approved; for anyone else the draw decides: below 0.3 pending,
      below 0.6 rejected, otherwise never submitted. */
  function GetStatus(currentUser: Option<User>, roll: real): (r: Result<VerificationStatus>)
    requires 0.0 <= roll < 1.0
    ensures r.Err? <==> currentUser.None?
    ensures r.Err? ==> r.error == NotAuthenticated
    ensures r.Ok? ==> WellFormed(r.value)
    ensures r.Ok? ==> (r.value.status == Approved <==> currentUser.value.isVerified)
    ensures r.Ok? && !currentUser.value.isVerified ==>
      && (r.value.status == Pending <==> roll < 0.3)
      && (r.value.status == Rejected <==> 0.3 <= roll < 0.6)
      && (r.value.status == NotSubmitted <==> 0.6 <= roll)
  {
    match currentUser
    case None => Err(NotAuthenticated)
    case Some(u) =>
      if u.isVerified then Ok(ApprovedStatus)
      else if roll < 0.3 then Ok(PendingStatus)
      else if roll < 0.6 then Ok(RejectedStatus)
      else Ok(NotSubmittedStatus)
  }

  /** A fresh submission is well formed too. */
  lemma SubmitWellFormed(currentUser: Option<User>, now: int)
    ensures Submit(currentUser, now).Ok? ==> WellFormed(Submit(currentUser, now).value)
  {
  }

  /** The `users.filter(u => u.isVerified)` filter. */
  predicate Verified(u: User) {
    u.isVerified
  }

  /** `getVerifiedUsersAsync`: one page, 20 by default, of the verified accounts. */
  function GetVerifiedUsers(users: seq<User>, args: PageArgs): (r: seq<User>)
    ensures forall u :: u in r ==> u in users && u.isVerified
    ensures args.Limit(DefaultLimit) >= 0 ==> |r| <= args.Limit(DefaultLimit)
    ensures args.Page() >= 1 && args.Limit(DefaultLimit) >= 0 ==>
      var verified := Filter(users, Verified);
      && args.StartIndex(DefaultLimit) >= 0
      && r == verified[Min(args.StartIndex(DefaultLimit), |verified|)..Min(args.EndIndex(DefaultLimit), |verified|)]
  {
    var verified := Filter(users, Verified);
    var r := Page(verified, args, DefaultLimit);
    assert forall u :: u in r ==> u in verified by {
      var a :| WindowAt(r, verified, a);
      forall u | u in r ensures u in verified {
        var j :| 0 <= j < |r| && r[j] == u;
        assert verified[a + j] == u;
      }
    }
    r
  }

  /** Page j of the verified accounts, as a function of j. */
  function VerifiedPageAt(users: seq<User>, limit: nat): nat -> seq<User> {
    (j: nat) => GetVerifiedUsers(users, PageArgs(Some(j), Some(limit)))
  }

  /** Page k of the verified accounts is page k of the filtered list. */
  lemma VerifiedPageIsPage(users: seq<User>, k: nat, limit: nat)
    requires k >= 1
    ensures VerifiedPageAt(users, limit)(k) ==
      Page(Filter(users, Verified), PageArgs(Some(k), Some(limit)), limit)
  {
    PageIgnoresDefault(Filter(users, Verified), PageArgs(Some(k), Some(limit)), DefaultLimit, limit);
  }

  lemma VerifiedPagesArePages(users: seq<User>, limit: nat, k: nat)
    ensures forall j :: 1 <= j <= k ==>
      VerifiedPageAt(users, limit)(j) == Page(Filter(users, Verified), PageArgs(Some(j), Some(limit)), limit)
  {
    forall j | 1 <= j <= k ensures VerifiedPageAt(users, limit)(j) ==
      Page(Filter(users, Verified), PageArgs(Some(j), Some(limit)), limit)
    {
      VerifiedPageIsPage(users, j, limit);
    }
  }

  /** Walking the pages of verified accounts from the first one, once they span all of
      them, lists every verified account exactly once, in account order, and no other. */
  lemma VerifiedPagesCoverAll(users: seq<User>, limit: nat, k: nat)
    requires k * limit >= |Filter(users, Verified)|
    ensures Concat(VerifiedPageAt(users, limit), k) == Filter(users, Verified)
  {
    VerifiedPagesArePages(users, limit, k);
    ConcatCovers(VerifiedPageAt(users, limit), Filter(users, Verified), k, limit);
  }

  /** With the seed accounts, the first page lists John Doe and Mike Chen, in that order. */
  lemma SeedVerifiedUsers()
    ensures GetVerifiedUsers(Seed.Users, PageArgs(None, None)) == [Seed.John, Seed.Mike]
  {
    var verified := Filter(Seed.Users, Verified);
    assert Seed.Users == [Seed.John] + [Seed.Sarah] + [Seed.Mike];
    FilterAppend([Seed.John] + [Seed.Sarah], [Seed.Mike], Verified);
    FilterAppend([Seed.John], [Seed.Sarah], Verified);
    assert verified == [Seed.John, Seed.Mike];
  }

  // ---------------------------------------------------------------------------
  // The slice
  // ---------------------------------------------------------------------------

  datatype VerificationState = VerificationState(
    status: Option<VerificationStatus>,
    requirements: Option<VerificationRequirements>,
    verifiedUsers: seq<User>,
    canSubmit: bool,
    isLoading: bool,
    error: Option<string>)

  const InitialState := VerificationState(None, None, [], false, false, None)

  datatype Action =
    | ClearError
    | ResetVerificationStatus
    | SubmitPending
    | SubmitFulfilled(submitted: VerificationStatus)
    | SubmitRejected(message: string)
    | StatusPending
    | StatusFulfilled(fetched: VerificationStatus)
    | StatusRejected(message: string)
    | CanSubmitFulfilled(eligible: bool)
    | RequirementsFulfilled(requirements: VerificationRequirements)
    | VerifiedUsersFulfilled(users: seq<User>)

  /** The stored status leaves room for an application: none known, never submitted, or
      rejected. */
  predicate Open(status: Option<VerificationStatus>) {
    status.None? || status.value.status == NotSubmitted || status.value.status == Rejected
  }

  /** The badge flag is only raised while an application is possible. */
  predicate Gated(s: VerificationState) {
    s.canSubmit ==> Open(s.status)
  }

  function Reduce(s: VerificationState, a: Action): (r: VerificationState)
    ensures a.CanSubmitFulfilled? ==> (r.canSubmit <==> a.eligible && Open(s.status))
    ensures a.SubmitFulfilled? ==> r.status == Some(a.submitted) && !r.canSubmit && r.error.None?
    ensures a.ResetVerificationStatus? ==> r.status.None? && !r.canSubmit
    ensures a.StatusFulfilled? ==> r.status == Some(a.fetched) && r.canSubmit == s.canSubmit
    ensures a.SubmitPending? || a.StatusPending? ==> r.isLoading && r.error.None? && r.status == s.status
    ensures a.SubmitRejected? || a.StatusRejected? ==>
      && !r.isLoading && r.status == s.status && r.canSubmit == s.canSubmit
      && r.error.Some? && r.error.value != ""
      && (a.message != "" ==> r.error == Some(a.message))
    ensures !(a.SubmitFulfilled? || a.StatusFulfilled? || a.ResetVerificationStatus?) ==> r.status == s.status
    ensures !a.VerifiedUsersFulfilled? ==> r.verifiedUsers == s.verifiedUsers
  {
    match a
    case ClearError => s.(error := None)
    case ResetVerificationStatus => s.(status := None, canSubmit := false)
    case SubmitPending => s.(isLoading := true, error := None)
    case SubmitFulfilled(v) => s.(isLoading := false, status := Some(v), canSubmit := false, error := None)
    case SubmitRejected(m) => s.(isLoading := false, error := Some(ErrorOr(m, "Failed to submit verification")))
    case StatusPending => s.(isLoading := true, error := None)
    case StatusFulfilled(v) => s.(isLoading := false, status := Some(v), error := None)
    case StatusRejected(m) => s.(isLoading := false, error := Some(ErrorOr(m, "Failed to fetch verification status")))
    case CanSubmitFulfilled(ok) => s.(canSubmit := ok && Open(s.status))
    case RequirementsFulfilled(req) => s.(requirements := Some(req))
    case VerifiedUsersFulfilled(users) => s.(verifiedUsers := users)
  }

  /** Every action except a fetched status keeps the flag gated. */
  lemma ReduceKeepsGated(s: VerificationState, a: Action)
    requires Gated(s) && !a.StatusFulfilled?
    ensures Gated(Reduce(s, a))
  {
  }

  /** A fetched status does not lower the flag: a client told it may apply, which then
      learns that an application is pending, still holds `canSubmit`. */
  lemma StaleCanSubmit()
    ensures var s := Reduce(Reduce(InitialState, CanSubmitFulfilled(true)), StatusFulfilled(PendingStatus));
      s.canSubmit && !Gated(s)
  {
  }

  /** Re-running the eligibility check after any status change restores the gate. */
  lemma RecheckRestoresGate(s: VerificationState, eligible: bool)
    ensures Gated(Reduce(s, CanSubmitFulfilled(eligible)))
  {
  }

  // ---------------------------------------------------------------------------
  // Dispatching the thunks
  // ---------------------------------------------------------------------------

  /** `dispatch(submitVerificationAsync(...))`: pending, then fulfilled or rejected. */
  function DispatchSubmit(s: VerificationState, currentUser: Option<User>, now: int): (r: VerificationState)
    ensures currentUser.Some? ==>
      && r.status == Some(VerificationStatus(Pending, Some(now), None, None))
      && !r.canSubmit && !r.isLoading && r.error.None?
    ensures currentUser.None? ==>
      r.status == s.status && !r.isLoading && r.error == Some(NotAuthenticated)
  {
    var pending := Reduce(s, SubmitPending);
    match Submit(currentUser, now)
    case Ok(v) => Reduce(pending, SubmitFulfilled(v))
    case Err(m) => Reduce(pending, SubmitRejected(m))
  }

  /** `dispatch(checkCanSubmitVerificationAsync())`: the flag is raised exactly when the
      user is eligible and the stored status leaves room for an application. */
  function DispatchCheck(s: VerificationState, currentUser: Option<User>, now: int): (r: VerificationState)
    ensures r.canSubmit <==> CheckCanSubmit(currentUser, now) && Open(s.status)
    ensures Gated(r)
    ensures r.status == s.status
  {
    Reduce(s, CanSubmitFulfilled(CheckCanSubmit(currentUser, now)))
  }

  /** Once an application has gone in, checking eligibility again does not allow a second
      one, however eligible the user is. */
  lemma {:induction false} NoSecondSubmission(s: VerificationState, u: User, now: int, later: int)
    ensures !DispatchCheck(DispatchSubmit(s, Some(u), now), Some(u), later).canSubmit
  {
    var submitted := DispatchSubmit(s, Some(u), now);
    assert submitted.status.value.status == Pending;
  }
}
