/** The HTTP client's interceptors (src/api/config.ts): every request carries the
    session's bearer token, and a 401 triggers one token refresh and one retry before
    the session is given up. The server is a pair of parameters (its replies to the
    first attempt and to the retry); toasts are collected as the list of messages
    shown. */
module Gateway {
  import opened Results
  import opened Text
  import opened Storage
  import Auth

  const AuthorizationHeader := "Authorization"
  const BearerPrefix := "Bearer "
  const SessionExpired := "Session expired. Please log in again."
  const PleaseLogIn := "Please log in to continue."
  const Unexpected := "An unexpected error occurred"

  /** An outgoing request: its headers and the interceptor's `_retry` mark. */
  datatype Request = Request(headers: map<string, string>, retried: bool)

  /** An axios error: the response status and `response.data.message` when a response
      arrived, and the error's own `message`. */
  datatype Failure = Failure(status: Option<int>, dataMessage: Option<string>, message: Option<string>)

  datatype Reply = Success(body: string) | Fail(failure: Failure)

  /** How a call ends: resolved with the response, rejected with the request's error, or
      rejected with the error of the refresh that was attempted on its behalf. */
  datatype Outcome = Resolved(body: string) | RejectedRequest(error: Failure) | RejectedRefresh(message: string)

  // ---------------------------------------------------------------------------
  // Request interceptor
  // ---------------------------------------------------------------------------

  /** A request goes out with `Authorization: Bearer <token>` exactly when the session
      holds a non-empty access token; otherwise it goes out as it was. */
  function Authorize(req: Request, accessToken: Option<string>): (r: Request)
    ensures Truthy(accessToken) ==>
      && AuthorizationHeader in r.headers && r.headers[AuthorizationHeader] == BearerPrefix + accessToken.value
      && (forall h :: h in req.headers && h != AuthorizationHeader ==> h in r.headers && r.headers[h] == req.headers[h])
      && r.headers.Keys == req.headers.Keys + {AuthorizationHeader}
      && r.retried == req.retried
    ensures !Truthy(accessToken) ==> r == req
  {
    if Truthy(accessToken) then req.(headers := req.headers[AuthorizationHeader := BearerPrefix + accessToken.value])
    else req
  }

  /** Authorizing twice with the same token is authorizing once. */
  lemma AuthorizeIdempotent(req: Request, accessToken: Option<string>)
    ensures Authorize(Authorize(req, accessToken), accessToken) == Authorize(req, accessToken)
  {
  }

  // ---------------------------------------------------------------------------
  // Response interceptor
  // ---------------------------------------------------------------------------

  /** The toast text for a failed request: the server's message, else the error's own,
      else a generic one. */
  function ErrorMessage(f: Failure): (m: string)
    ensures m != ""
    ensures Truthy(f.dataMessage) ==> m == f.dataMessage.value
    ensures !Truthy(f.dataMessage) && Truthy(f.message) ==> m == f.message.value
    ensures !Truthy(f.dataMessage) && !Truthy(f.message) ==> m == Unexpected
  {
    if Truthy(f.dataMessage) then f.dataMessage.value
    else if Truthy(f.message) then f.message.value
    else Unexpected
  }

  /** What the error handler decides for one failed attempt: re-send the request, or
      settle the call. Either way the auth state may have changed and toasts may have
      been shown. */
  datatype Decision =
    | Retry(client: Auth.Client, request: Request)
    | Settled(client: Auth.Client, toasts: seq<string>, outcome: Outcome)

  /** The session has ended in state and its tokens are gone from storage. */
  predicate LoggedOut(c: Auth.Client) {
    && !c.state.isAuthenticated && c.state.user.None?
    && c.state.accessToken.None? && c.state.refreshToken.None?
    && Get(c.storage, AccessTokenKey).None? && Get(c.storage, RefreshTokenKey).None?
    && c.storage.user.None?
  }

  /** The response interceptor's error path for the request `req`, sent and answered
      with `f`. A 401 on a request not yet retried marks it; with a refresh token in
      state the refresh runs, and on success the request is re-sent with the new token,
      on failure the session is ended and the call rejects with the refresh error.
      Without a refresh token the session is ended and the call falls through to the
      generic path, which shows the error's message and rejects with the error. */
  function HandleFailure(c: Auth.Client, req: Request, f: Failure, now: int): (d: Decision)
    ensures !(f.status == Some(401) && !req.retried) ==>
      d == Settled(c, [ErrorMessage(f)], RejectedRequest(f))
    ensures f.status == Some(401) && !req.retried && !Truthy(c.state.refreshToken) ==>
      && d.Settled? && LoggedOut(d.client)
      && d.toasts == [PleaseLogIn, ErrorMessage(f)] && d.outcome == RejectedRequest(f)
    ensures f.status == Some(401) && !req.retried && Truthy(c.state.refreshToken) ==>
      (d.Retry? <==> Truthy(Get(c.storage, RefreshTokenKey)))
    ensures d.Retry? ==>
      var token := Auth.RefreshedTokenPrefix + IntToString(now);
      && d.request.retried
      && AuthorizationHeader in d.request.headers && d.request.headers[AuthorizationHeader] == BearerPrefix + token
      && d.client.state == c.state.(accessToken := Some(token))
      && Get(d.client.storage, AccessTokenKey) == Some(token)
    ensures f.status == Some(401) && !req.retried && Truthy(c.state.refreshToken) && d.Settled? ==>
      && LoggedOut(d.client)
      && d.toasts == [SessionExpired] && d.outcome == RejectedRefresh(Auth.NoRefreshToken)
  {
    if f.status == Some(401) && !req.retried then
      var marked := req.(retried := true);
      if Truthy(c.state.refreshToken) then
        match Auth.Refresh(c.storage, now)
        case Ok(_) =>
          var refreshed := Auth.DispatchRefresh(c, now);
          var token := refreshed.state.accessToken.value;
          Retry(refreshed, marked.(headers := marked.headers[AuthorizationHeader := BearerPrefix + token]))
        case Err(m) =>
          var ended := Auth.Reduce(Auth.DispatchRefresh(c, now), Auth.Logout);
          Settled(ended, [SessionExpired], RejectedRefresh(m))
      else
        Settled(Auth.Reduce(c, Auth.Logout), [PleaseLogIn, ErrorMessage(f)], RejectedRequest(f))
    else
      Settled(c, [ErrorMessage(f)], RejectedRequest(f))
  }

  /** The result of one `api(...)` call: the auth client afterwards, the toasts shown,
      the requests that reached the server, and how the call ended. */
  datatype Call = Call(client: Auth.Client, toasts: seq<string>, sent: seq<Request>, outcome: Outcome)

  /** One call through both interceptors, with the server answering `first` and, should
      the request be re-sent, `second`. The re-sent request passes through both
      interceptors again, so its own failure reaches the error path a second time, now
      marked as retried. */
  function Send(c: Auth.Client, req: Request, first: Reply, second: Reply, now: int): (r: Call)
    ensures 1 <= |r.sent| <= 2
    ensures r.sent[0] == Authorize(req, c.state.accessToken)
    ensures first.Success? ==> r == Call(c, [], [r.sent[0]], Resolved(first.body))
    ensures |r.sent| == 2 <==>
      && first.Fail? && first.failure.status == Some(401) && !req.retried
      && Truthy(c.state.refreshToken) && Truthy(Get(c.storage, RefreshTokenKey))
    ensures |r.sent| == 2 ==>
      var token := Auth.RefreshedTokenPrefix + IntToString(now);
      && r.sent[1].retried
      && AuthorizationHeader in r.sent[1].headers && r.sent[1].headers[AuthorizationHeader] == BearerPrefix + token
      && r.client.state.accessToken == Some(token)
      && (second.Success? ==> r.outcome == Resolved(second.body) && r.toasts == [])
      && (second.Fail? ==> r.outcome == RejectedRequest(second.failure) && r.toasts == [ErrorMessage(second.failure)])
  {
    var out := Authorize(req, c.state.accessToken);
    match first
    case Success(body) => Call(c, [], [out], Resolved(body))
    case Fail(f) =>
      match HandleFailure(c, out, f, now)
      case Settled(c1, toasts, outcome) => Call(c1, toasts, [out], outcome)
      case Retry(c1, again) =>
        var out2 := Authorize(again, c1.state.accessToken);
        match second
        case Success(body) => Call(c1, [], [out, out2], Resolved(body))
        case Fail(f2) =>
          var d := HandleFailure(c1, out2, f2, now);
          assert d.Settled?;
          Call(d.client, d.toasts, [out, out2], d.outcome)
  }

  /** A request that has already been retried is never refreshed or re-sent again: a
      second 401 only shows its message and rejects, leaving the session alone. */
  lemma {:induction false} NoSecondRefresh(c: Auth.Client, req: Request, first: Reply, second: Reply, now: int)
    requires req.retried
    ensures |Send(c, req, first, second, now).sent| == 1
    ensures first.Fail? ==>
      Send(c, req, first, second, now) == Call(c, [ErrorMessage(first.failure)], [Authorize(req, c.state.accessToken)], RejectedRequest(first.failure))
  {
    var out := Authorize(req, c.state.accessToken);
    assert out.retried;
  }

  /** A failure other than a 401 never touches the session. */
  lemma OtherFailuresKeepSession(c: Auth.Client, req: Request, f: Failure, second: Reply, now: int)
    requires f.status != Some(401)
    ensures Send(c, req, Fail(f), second, now).client == c
    ensures Send(c, req, Fail(f), second, now).toasts == [ErrorMessage(f)]
    ensures Send(c, req, Fail(f), second, now).outcome == RejectedRequest(f)
  {
  }
}
