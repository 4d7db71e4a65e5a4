/** The auth slice (src/store/slices/authSlice.ts): the login, register, refresh,
    current-user and change-password thunks over the mock accounts and `localStorage`,
    and the reducer that keeps the session. */
module Auth {
  import opened Results
  import opened Text
  import opened Seqs
  import opened Types
  import opened Storage
  import Seed

  /** The one password every mock account accepts. */
  const MockPassword := "password123"
  const InvalidCredentials := "Invalid email or password"
  const UserExists := "User already exists with this email or username"
  const NoRefreshToken := "No refresh token available"
  const NoAuthenticatedUser := "No authenticated user found"
  const WrongPassword := "Current password is incorrect"
  const PasswordChanged := "Password changed successfully"

  const AccessTokenPrefix := "mock-access-token-"
  const RefreshTokenPrefix := "mock-refresh-token-"
  const RefreshedTokenPrefix := "mock-access-token-refreshed-"

  datatype Credentials = Credentials(email: string, password: string)

  datatype Registration = Registration(
    username: string,
    email: string,
    password: string,
    firstName: Option<string>,
    lastName: Option<string>)

  /** What the session-establishing thunks resolve with. The refresh token is optional
      because `getCurrentUserAsync` passes on whatever storage holds, null included. */
  datatype Session = Session(user: User, accessToken: string, refreshToken: Option<string>)

  function HasEmail(email: string): User -> bool {
    (u: User) => u.email == email
  }

  function Taken(email: string, username: string): User -> bool {
    (u: User) => u.email == email || u.username == username
  }

  ghost predicate EmailKnown(users: seq<User>, email: string) {
    exists i :: 0 <= i < |users| && users[i].email == email
  }

  // ---------------------------------------------------------------------------
  // Thunks
  // ---------------------------------------------------------------------------

  /** Writes both tokens and the user to storage, as login and register do. */
  function Persist(st: LocalStorage, s: Session): (r: LocalStorage)
    requires s.refreshToken.Some?
    ensures Get(r, AccessTokenKey) == Some(s.accessToken)
    ensures Get(r, RefreshTokenKey) == s.refreshToken
    ensures r.user == Some(s.user)
    ensures forall k :: k != AccessTokenKey && k != RefreshTokenKey ==> Get(r, k) == Get(st, k)
  {
    PutUser(Put(Put(st, AccessTokenKey, s.accessToken), RefreshTokenKey, s.refreshToken.value), s.user)
  }

  /** `loginAsync`: the first account with the email, if the password is the mock
      password. Both tokens carry the clock reading. */
  function Login(users: seq<User>, st: LocalStorage, c: Credentials, now: int): (r: Result<Effect<LocalStorage, Session>>)
    ensures r.Ok? <==> EmailKnown(users, c.email) && c.password == MockPassword
    ensures r.Err? ==> r.error == InvalidCredentials
    ensures r.Ok? ==>
      var s := r.value.payload;
      && s.user == users[FirstIndex(users, HasEmail(c.email)).value]
      && s.user.email == c.email
      && s.accessToken == AccessTokenPrefix + IntToString(now)
      && s.refreshToken == Some(RefreshTokenPrefix + IntToString(now))
      && r.value.store == Persist(st, s)
  {
    assert FirstIndex(users, HasEmail(c.email)).Some? <==> EmailKnown(users, c.email) by {
      if EmailKnown(users, c.email) {
        var i :| 0 <= i < |users| && users[i].email == c.email;
        assert HasEmail(c.email)(users[i]);
      }
    }
    match FirstIndex(users, HasEmail(c.email))
    case None => Err(InvalidCredentials)
    case Some(i) =>
      if c.password != MockPassword then Err(InvalidCredentials)
      else
        var s := Session(users[i], AccessTokenPrefix + IntToString(now), Some(RefreshTokenPrefix + IntToString(now)));
        Ok(Effect(Persist(st, s), s))
  }

  /** The account `registerAsync` creates: empty bio and avatar, no followers, posts or
      verification, id and timestamps from the clock. */
  function NewAccount(d: Registration, now: int): (u: User)
    ensures u.id == IntToString(now) && u.username == d.username && u.email == d.email
    ensures u.firstName == d.firstName && u.lastName == d.lastName
    ensures u.bio == Some("") && u.avatar == Some("") && !u.isVerified
    ensures u.followersCount == 0 && u.followingCount == 0 && u.postsCount == 0
    ensures u.createdAt == now && u.updatedAt == now
  {
    User(IntToString(now), d.username, d.email, d.firstName, d.lastName, Some(""), Some(""),
      false, 0, 0, 0, now, now)
  }

  /** `registerAsync`: refuses an email or username already in use. The new account is
      not added to the mock accounts, so it cannot log in afterwards. */
  function Register(users: seq<User>, st: LocalStorage, d: Registration, now: int): (r: Result<Effect<LocalStorage, Session>>)
    ensures r.Err? <==> exists i :: 0 <= i < |users| && (users[i].email == d.email || users[i].username == d.username)
    ensures r.Err? ==> r.error == UserExists
    ensures r.Ok? ==>
      var s := r.value.payload;
      && s.user == NewAccount(d, now)
      && s.accessToken == AccessTokenPrefix + IntToString(now)
      && s.refreshToken == Some(RefreshTokenPrefix + IntToString(now))
      && r.value.store == Persist(st, s)
  {
    assert FirstIndex(users, Taken(d.email, d.username)).None? ==>
      forall i :: 0 <= i < |users| ==> !(users[i].email == d.email || users[i].username == d.username) by {
      if FirstIndex(users, Taken(d.email, d.username)).None? {
        forall i | 0 <= i < |users| ensures !(users[i].email == d.email || users[i].username == d.username) {
          assert !Taken(d.email, d.username)(users[i]);
        }
      }
    }
    if FirstIndex(users, Taken(d.email, d.username)).Some? then Err(UserExists)
    else
      var s := Session(NewAccount(d, now), AccessTokenPrefix + IntToString(now), Some(RefreshTokenPrefix + IntToString(now)));
      Ok(Effect(Persist(st, s), s))
  }

  /** `refreshTokenAsync`: needs a non-empty stored refresh token; writes and returns a
      new access token and leaves the rest of storage alone. */
  function Refresh(st: LocalStorage, now: int): (r: Result<Effect<LocalStorage, string>>)
    ensures r.Ok? <==> Truthy(Get(st, RefreshTokenKey))
    ensures r.Err? ==> r.error == NoRefreshToken
    ensures r.Ok? ==>
      && r.value.payload == RefreshedTokenPrefix + IntToString(now)
      && Get(r.value.store, AccessTokenKey) == Some(r.value.payload)
      && (forall k :: k != AccessTokenKey ==> Get(r.value.store, k) == Get(st, k))
      && r.value.store.user == st.user
  {
    if !Truthy(Get(st, RefreshTokenKey)) then Err(NoRefreshToken)
    else
      var token := RefreshedTokenPrefix + IntToString(now);
      Ok(Effect(Put(st, AccessTokenKey, token), token))
  }

  /** `getCurrentUserAsync`: succeeds exactly when storage holds a user and a
      non-empty access token, and hands back what it found without writing. */
  function GetCurrentUser(st: LocalStorage): (r: Result<Session>)
    ensures r.Ok? <==> st.user.Some? && Truthy(Get(st, AccessTokenKey))
    ensures r.Err? ==> r.error == NoAuthenticatedUser
    ensures r.Ok? ==>
      && Some(r.value.user) == st.user
      && Some(r.value.accessToken) == Get(st, AccessTokenKey) && r.value.accessToken != ""
      && r.value.refreshToken == Get(st, RefreshTokenKey)
  {
    if st.user.None? || !Truthy(Get(st, AccessTokenKey)) then Err(NoAuthenticatedUser)
    else Ok(Session(st.user.value, Get(st, AccessTokenKey).value, Get(st, RefreshTokenKey)))
  }

  /** `changePasswordAsync`: only the current password is checked; nothing is stored. */
  function ChangePassword(currentPassword: string, newPassword: string): (r: Result<string>)
    ensures r.Err? <==> currentPassword != MockPassword
    ensures r.Err? ==> r.error == WrongPassword
    ensures r.Ok? ==> r.value == PasswordChanged
  {
    if currentPassword != MockPassword then Err(WrongPassword) else Ok(PasswordChanged)
  }

  /** Registering never makes the new account able to log in: the account list is
      unchanged, so the same credentials fail unless an account already had the email. */
  lemma RegisteredCannotLogIn(users: seq<User>, st: LocalStorage, d: Registration, now: int, later: int)
    requires Register(users, st, d, now).Ok?
    ensures Login(users, Register(users, st, d, now).value.store, Credentials(d.email, d.password), later).Err?
  {
    if EmailKnown(users, d.email) {
      var i :| 0 <= i < |users| && users[i].email == d.email;
    }
  }

  // ---------------------------------------------------------------------------
  // Slice state and reducer
  // ---------------------------------------------------------------------------

  datatype AuthState = AuthState(
    user: Option<User>,
    accessToken: Option<string>,
    refreshToken: Option<string>,
    isAuthenticated: bool,
    isLoading: bool,
    error: Option<string>)

  const InitialState := AuthState(None, None, None, false, false, None)

  /** The reducer's state together with the storage two of its reducers write. */
  datatype Client = Client(state: AuthState, storage: LocalStorage)

  datatype Action =
    | Logout
    | ClearError
    | UpdateUser(patch: UserPatch)
    | LoginPending
    | LoginFulfilled(session: Session)
    | LoginRejected(message: string)
    | RegisterPending
    | RegisterFulfilled(session: Session)
    | RegisterRejected(message: string)
    | RefreshFulfilled(accessToken: string)
    | RefreshRejected
    | CurrentUserPending
    | CurrentUserFulfilled(session: Session)
    | CurrentUserRejected
    | ChangePasswordPending
    | ChangePasswordFulfilled
    | ChangePasswordRejected(message: string)

  /** The session state machine's invariant: signed in exactly when a user is present,
      and never signed in without an access token. */
  ghost predicate Consistent(s: AuthState) {
    && (s.isAuthenticated <==> s.user.Some?)
    && (s.isAuthenticated ==> s.accessToken.Some?)
  }

  /** The session the reducer keeps after a thunk established one. */
  function SignedIn(s: AuthState, session: Session): (r: AuthState)
    ensures r.isAuthenticated && r.user == Some(session.user)
    ensures r.accessToken == Some(session.accessToken) && r.refreshToken == session.refreshToken
    ensures !r.isLoading && r.error == s.error
  {
    s.(isLoading := false, user := Some(session.user), accessToken := Some(session.accessToken),
       refreshToken := session.refreshToken, isAuthenticated := true)
  }

  /** Drops the user and both tokens. */
  function SignedOut(s: AuthState): (r: AuthState)
    ensures !r.isAuthenticated && r.user.None? && r.accessToken.None? && r.refreshToken.None?
    ensures r.isLoading == s.isLoading && r.error == s.error
  {
    s.(user := None, accessToken := None, refreshToken := None, isAuthenticated := false)
  }

  /** The auth reducer.
      - logout ends the session and removes the three storage entries;
      - updateUser merges into a present user and stores it, and does nothing otherwise;
      - a fulfilled login or register starts a session and clears the error;
      - a rejected login or register touches only the loading flag and the error;
      - a fulfilled refresh replaces only the access token, a rejected one ends the
        session (storage is not cleared);
      - the change-password outcomes never touch the session. */
  function Reduce(c: Client, a: Action): (r: Client)
    ensures a.Logout? ==>
      && r.state == InitialState.(isLoading := c.state.isLoading)
      && Get(r.storage, AccessTokenKey).None? && Get(r.storage, RefreshTokenKey).None? && r.storage.user.None?
      && (forall k :: k != AccessTokenKey && k != RefreshTokenKey ==> Get(r.storage, k) == Get(c.storage, k))
    ensures a.UpdateUser? && c.state.user.None? ==> r == c
    ensures a.UpdateUser? && c.state.user.Some? ==>
      && r.state == c.state.(user := Some(Merge(c.state.user.value, a.patch)))
      && r.storage == PutUser(c.storage, Merge(c.state.user.value, a.patch))
    ensures (a.LoginFulfilled? || a.RegisterFulfilled?) ==>
      && r.state.user == Some(a.session.user) && r.state.isAuthenticated
      && r.state.accessToken == Some(a.session.accessToken) && r.state.refreshToken == a.session.refreshToken
      && r.state.error.None? && !r.state.isLoading
    ensures (a.LoginRejected? || a.RegisterRejected?) ==>
      && r.state == c.state.(isLoading := false, error := r.state.error)
      && r.state.error.Some? && r.state.error.value != ""
    ensures a.RefreshFulfilled? ==> r.state == c.state.(accessToken := Some(a.accessToken))
    ensures a.RefreshRejected? || a.CurrentUserRejected? ==>
      !r.state.isAuthenticated && r.state.user.None? && r.state.accessToken.None? && r.state.refreshToken.None?
    ensures a.ChangePasswordPending? || a.ChangePasswordFulfilled? || a.ChangePasswordRejected? ==>
      && r.state.user == c.state.user && r.state.accessToken == c.state.accessToken
      && r.state.refreshToken == c.state.refreshToken && r.state.isAuthenticated == c.state.isAuthenticated
    ensures !a.Logout? && !a.UpdateUser? ==> r.storage == c.storage
  {
    var s := c.state;
    match a
    case Logout =>
      var st := DeleteUser(Delete(Delete(c.storage, AccessTokenKey), RefreshTokenKey));
      Client(SignedOut(s).(error := None), st)
    case ClearError => c.(state := s.(error := None))
    case UpdateUser(patch) =>
      if s.user.None? then c
      else
        var u := Merge(s.user.value, patch);
        Client(s.(user := Some(u)), PutUser(c.storage, u))
    case LoginPending => c.(state := s.(isLoading := true, error := None))
    case LoginFulfilled(session) => c.(state := SignedIn(s, session).(error := None))
    case LoginRejected(m) => c.(state := s.(isLoading := false, error := Some(ErrorOr(m, "Login failed"))))
    case RegisterPending => c.(state := s.(isLoading := true, error := None))
    case RegisterFulfilled(session) => c.(state := SignedIn(s, session).(error := None))
    case RegisterRejected(m) => c.(state := s.(isLoading := false, error := Some(ErrorOr(m, "Registration failed"))))
    case RefreshFulfilled(token) => c.(state := s.(accessToken := Some(token)))
    case RefreshRejected => c.(state := SignedOut(s))
    case CurrentUserPending => c.(state := s.(isLoading := true))
    case CurrentUserFulfilled(session) => c.(state := SignedIn(s, session))
    case CurrentUserRejected => c.(state := SignedOut(s).(isLoading := false))
    case ChangePasswordPending => c.(state := s.(isLoading := true, error := None))
    case ChangePasswordFulfilled => c.(state := s.(isLoading := false, error := None))
    case ChangePasswordRejected(m) => c.(state := s.(isLoading := false, error := Some(ErrorOr(m, "Password change failed"))))
  }

  /** Every auth action keeps the session invariant. */
  lemma ReducePreservesConsistent(c: Client, a: Action)
    requires Consistent(c.state)
    ensures Consistent(Reduce(c, a).state)
  {
  }

  /** The state after a sequence of actions. */
  function ReduceAll(c: Client, actions: seq<Action>): Client
    decreases |actions|
  {
    if |actions| == 0 then c else ReduceAll(Reduce(c, actions[0]), actions[1..])
  }

  /** Every reachable state is consistent: a consistent state stays consistent under
      any sequence of actions. */
  lemma {:induction false} ReduceAllConsistent(c: Client, actions: seq<Action>)
    requires Consistent(c.state)
    ensures Consistent(ReduceAll(c, actions).state)
    decreases |actions|
  {
    if |actions| > 0 {
      ReducePreservesConsistent(c, actions[0]);
      ReduceAllConsistent(Reduce(c, actions[0]), actions[1..]);
    }
  }

  lemma InitialConsistent()
    ensures Consistent(InitialState)
  {
  }

  /** Logging out twice is the same as logging out once. */
  lemma LogoutIdempotent(c: Client)
    ensures Reduce(Reduce(c, Logout), Logout) == Reduce(c, Logout)
  {
    var once := Reduce(c, Logout);
    var twice := Reduce(once, Logout);
    assert twice.storage.entries == once.storage.entries;
  }

  // ---------------------------------------------------------------------------
  // Dispatch: a thunk step followed by the reducer for its outcome
  // ---------------------------------------------------------------------------

  /** Dispatching `loginAsync`. On success the state and storage hold the same user
      and tokens; on failure the previous session, user and tokens are kept and the
      error says why. */
  function DispatchLogin(c: Client, users: seq<User>, cred: Credentials, now: int): (r: Client)
    ensures Login(users, c.storage, cred, now).Ok? ==>
      && r.state.isAuthenticated && r.state.error.None?
      && r.state.user == r.storage.user && r.state.user.Some? && r.state.user.value.email == cred.email
      && r.state.accessToken == Get(r.storage, AccessTokenKey)
      && r.state.refreshToken == Get(r.storage, RefreshTokenKey)
    ensures Login(users, c.storage, cred, now).Err? ==>
      && r.storage == c.storage
      && r.state == c.state.(isLoading := false, error := Some(InvalidCredentials))
  {
    var pending := Reduce(c, LoginPending);
    match Login(users, c.storage, cred, now)
    case Ok(e) => Reduce(pending.(storage := e.store), LoginFulfilled(e.payload))
    case Err(m) => Reduce(pending, LoginRejected(m))
  }

  /** Dispatching `registerAsync`. */
  function DispatchRegister(c: Client, users: seq<User>, d: Registration, now: int): (r: Client)
    ensures Register(users, c.storage, d, now).Ok? ==>
      && r.state.isAuthenticated && r.state.error.None?
      && r.state.user == Some(NewAccount(d, now)) && r.storage.user == r.state.user
      && r.state.accessToken == Get(r.storage, AccessTokenKey)
      && r.state.refreshToken == Get(r.storage, RefreshTokenKey)
    ensures Register(users, c.storage, d, now).Err? ==>
      && r.storage == c.storage
      && r.state == c.state.(isLoading := false, error := Some(UserExists))
  {
    var pending := Reduce(c, RegisterPending);
    match Register(users, c.storage, d, now)
    case Ok(e) => Reduce(pending.(storage := e.store), RegisterFulfilled(e.payload))
    case Err(m) => Reduce(pending, RegisterRejected(m))
  }

  /** Dispatching `refreshTokenAsync`: success swaps the access token in state and
      storage and changes nothing else; failure ends the session in state. */
  function DispatchRefresh(c: Client, now: int): (r: Client)
    ensures Truthy(Get(c.storage, RefreshTokenKey)) ==>
      && r.state == c.state.(accessToken := Some(RefreshedTokenPrefix + IntToString(now)))
      && Get(r.storage, AccessTokenKey) == r.state.accessToken
      && (forall k :: k != AccessTokenKey ==> Get(r.storage, k) == Get(c.storage, k))
    ensures !Truthy(Get(c.storage, RefreshTokenKey)) ==>
      && r.storage == c.storage
      && r.state == SignedOut(c.state)
  {
    match Refresh(c.storage, now)
    case Ok(e) => Reduce(c.(storage := e.store), RefreshFulfilled(e.payload))
    case Err(_) => Reduce(c, RefreshRejected)
  }

  /** Dispatching `getCurrentUserAsync`: restores the stored session, or ends the
      session in state when storage has none. */
  function DispatchGetCurrentUser(c: Client): (r: Client)
    ensures r.storage == c.storage && !r.state.isLoading
    ensures r.state.isAuthenticated <==> c.storage.user.Some? && Truthy(Get(c.storage, AccessTokenKey))
    ensures r.state.isAuthenticated ==>
      r.state.user == c.storage.user && r.state.accessToken == Get(c.storage, AccessTokenKey)
    ensures r.state.isAuthenticated ==> r.state.refreshToken == Get(c.storage, RefreshTokenKey)
    ensures !r.state.isAuthenticated ==>
      r.state.user.None? && r.state.accessToken.None? && r.state.refreshToken.None?
  {
    var pending := Reduce(c, CurrentUserPending);
    match GetCurrentUser(c.storage)
    case Ok(session) => Reduce(pending, CurrentUserFulfilled(session))
    case Err(_) => Reduce(pending, CurrentUserRejected)
  }

  /** Logging in with the seed account's email and the mock password succeeds. */
  lemma SeedLogin(st: LocalStorage, now: int)
    ensures Login(Seed.Users, st, Credentials("john@example.com", MockPassword), now).Ok?
    ensures Login(Seed.Users, st, Credentials("john@example.com", MockPassword), now).value.payload.user == Seed.John
    ensures Login(Seed.Users, st, Credentials("john@example.com", "wrong"), now) == Err(InvalidCredentials)
  {
    assert Seed.Users[0].email == "john@example.com";
  }
}
