/** The token cache, the login exchange and the auth-injecting transport of
    internal/client/auth.go.

    Time is an integer clock in nanoseconds (the unit of Go's time.Duration).
    The read-write mutex is not modelled: the read-locked snapshot and the
    write-locked refresh are each one atomic step on an immutable `TokenState`,
    and the refresh's double check is a test on the state found when the
    write lock is taken. */
module Auth {
  import opened Results
  import opened Http

  const Second: int := 1_000_000_000
  const Minute: int := 60 * Second
  /** A fresh token is trusted for 59 minutes, one minute short of the hour
      the server is assumed to grant. */
  const TokenLifetime: int := 59 * Minute
  /** Timeout of the login client made when none is supplied. */
  const DefaultTimeout: int := 30 * Second
  const LoginPath: string := "/login/access-token"
  const StatusOK: int := 200

  /** The authenticator's fixed configuration; `httpClient` is the plain
      (non-authenticating) client the login exchange goes through. */
  datatype AuthClient = AuthClient(baseURL: string, username: string, password: string, httpClient: HttpClient)

  /** The cached token and the instant after which it is no longer trusted.
      An empty token means none has been obtained. */
  datatype TokenState = TokenState(token: string, expiry: int)

  /** The state of a freshly constructed authenticator (Go zero values). */
  const NoToken: TokenState := TokenState("", 0)

  /** The three clock readings of one token request: the check on the
      snapshot, the double check under the write lock, and the reading the new
      expiry is computed from once the login reply has arrived. */
  datatype Clock = Clock(check: int, lock: int, stamp: int)

  /** The decoded login reply body. */
  datatype TokenResponse = TokenResponse(accessToken: string, tokenType: string)

  /** What the network does with a login request, decided outside the model. */
  datatype LoginOutcome =
    | LoginRequestInvalid                                     // the request could not be built from the URL
    | LoginTransportFailed                                    // the HTTP exchange itself failed
    | LoginReply(status: int, decoded: Option<TokenResponse>) // a reply; None when its body is not a token response

  datatype AuthError =
    | AuthRequestInvalid
    | AuthTransportFailed
    | AuthRejected(status: int)
    | AuthDecodeFailed
    | AuthEmptyToken

  /** The form-encoded login request handed to the plain client. */
  datatype LoginRequest = LoginRequest(
    verb: Method,
    url: string,
    form: map<string, string>,
    headers: map<string, string>,
    via: HttpClient)

  /** One step of the token machine: the state after it, the login request it
      sent (if any) and what the caller receives. */
  datatype Step<T> = Step(state: TokenState, login: Option<LoginRequest>, result: Result<T, AuthError>)

  /** NewAuthClient: copies the credentials; a nil client becomes a client
      with the 30-second default timeout and the default transport. */
  function NewAuthClient(baseURL: string, username: string, password: string, httpClient: Option<HttpClient>): (a: AuthClient)
    ensures a.baseURL == baseURL && a.username == username && a.password == password
    ensures httpClient.Some? ==> a.httpClient == httpClient.value
    ensures httpClient.None? ==> a.httpClient.timeout == 30 * Second && a.httpClient.transport.None?
  {
    AuthClient(baseURL, username, password, httpClient.GetOr(HttpClient(DefaultTimeout, None)))
  }

  /** The login request refreshToken builds. */
  function LoginRequestFor(a: AuthClient): (r: LoginRequest)
    ensures r.verb == POST && r.url == a.baseURL + "/login/access-token"
    ensures r.form.Keys == {"username", "password"}
    ensures r.form["username"] == a.username && r.form["password"] == a.password
    ensures r.headers.Keys == {ContentTypeHeader, AcceptHeader}
    ensures r.headers[ContentTypeHeader] == "application/x-www-form-urlencoded"
    ensures r.headers[AcceptHeader] == "application/json"
    ensures AuthorizationHeader !in r.headers
    ensures r.via == a.httpClient
  {
    LoginRequest(
      POST,
      a.baseURL + LoginPath,
      map["username" := a.username, "password" := a.password],
      map[ContentTypeHeader := FormMediaType, AcceptHeader := JsonMediaType],
      a.httpClient)
  }

  /** The token is usable by GetToken's test: present and `now` not after the expiry. */
  predicate FreshForRead(s: TokenState, now: int) {
    s.token != "" && now <= s.expiry
  }

  /** The token is usable by refreshToken's double check: present and `now` strictly before the expiry. */
  predicate FreshForRefresh(s: TokenState, now: int) {
    s.token != "" && now < s.expiry
  }

  /** A login outcome the client accepts: status exactly 200 and a decoded,
      non-empty access token. */
  predicate LoginSucceeds(o: LoginOutcome) {
    o.LoginReply? && o.status == StatusOK && o.decoded.Some? && o.decoded.value.accessToken != ""
  }

  /** refreshToken, run under the write lock on the state `s` found there.
      `now` is the double-check reading, `stamp` the reading after the reply. */
  function Refresh(a: AuthClient, s: TokenState, now: int, stamp: int, outcome: LoginOutcome): (r: Step<string>)
    // the double check: a token another caller stored is reused, nothing is sent
    ensures FreshForRefresh(s, now) ==> r == Step(s, None, Ok(s.token))
    // otherwise the login request is sent, unless it could not even be built
    ensures !FreshForRefresh(s, now) ==>
      r.login == (if outcome.LoginRequestInvalid? then None else Some(LoginRequestFor(a)))
    // success: the state is replaced wholesale and the new token returned
    ensures !FreshForRefresh(s, now) && LoginSucceeds(outcome) ==>
      r.state == TokenState(outcome.decoded.value.accessToken, stamp + TokenLifetime) &&
      r.result == Ok(outcome.decoded.value.accessToken)
    // failure is never cached
    ensures !FreshForRefresh(s, now) && !LoginSucceeds(outcome) ==> r.result.Err? && r.state == s
    ensures outcome.LoginReply? && outcome.status != StatusOK && !FreshForRefresh(s, now) ==>
      r.result == Err(AuthRejected(outcome.status))
    ensures r.result.Ok? ==> r.result.value == r.state.token && r.result.value != ""
  {
    if s.token != "" && now < s.expiry then
      Step(s, None, Ok(s.token))
    else
      var req := LoginRequestFor(a);
      match outcome
      case LoginRequestInvalid => Step(s, None, Err(AuthRequestInvalid))
      case LoginTransportFailed => Step(s, Some(req), Err(AuthTransportFailed))
      case LoginReply(status, decoded) =>
        if status != StatusOK then Step(s, Some(req), Err(AuthRejected(status)))
        else if decoded.None? then Step(s, Some(req), Err(AuthDecodeFailed))
        else if decoded.value.accessToken == "" then Step(s, Some(req), Err(AuthEmptyToken))
        else
          var token := decoded.value.accessToken;
          Step(TokenState(token, stamp + TokenLifetime), Some(req), Ok(token))
  }

  /** GetToken: the cached token when present and not past its expiry,
      otherwise whatever refreshToken does. */
  function GetToken(a: AuthClient, s: TokenState, clock: Clock, outcome: LoginOutcome): (r: Step<string>)
    ensures FreshForRead(s, clock.check) ==> r == Step(s, None, Ok(s.token))
    ensures !FreshForRead(s, clock.check) ==> r == Refresh(a, s, clock.lock, clock.stamp, outcome)
    ensures r.result.Ok? ==> r.result.value == r.state.token && r.result.value != ""
    ensures r.login.None? ==> r.state == s
  {
    if s.token == "" || clock.check > s.expiry then Refresh(a, s, clock.lock, clock.stamp, outcome)
    else Step(s, None, Ok(s.token))
  }

  /** The request with `Authorization: Bearer <token>` set and nothing else changed. */
  function WithBearer(req: Request, token: string): (r: Request)
    ensures r.headers.Keys == req.headers.Keys + {AuthorizationHeader}
    ensures r.headers[AuthorizationHeader] == "Bearer " + token
    ensures forall h :: h in req.headers && h != AuthorizationHeader ==> r.headers[h] == req.headers[h]
    ensures r.verb == req.verb && r.url == req.url && r.body == req.body
  {
    req.(headers := req.headers[AuthorizationHeader := "Bearer " + token])
  }

  /** AddAuthHeader: obtain a token and return the request carrying it. */
  function AddAuthHeader(a: AuthClient, s: TokenState, clock: Clock, outcome: LoginOutcome, req: Request): (r: Step<Request>)
    ensures r.state == GetToken(a, s, clock, outcome).state
    ensures r.login == GetToken(a, s, clock, outcome).login
    ensures r.result.Err? <==> GetToken(a, s, clock, outcome).result.Err?
    ensures r.result.Ok? ==> r.result.value == WithBearer(req, r.state.token)
  {
    var t := GetToken(a, s, clock, outcome);
    match t.result
    case Err(e) => Step(t.state, t.login, Err(e))
    case Ok(token) => Step(t.state, t.login, Ok(WithBearer(req, token)))
  }

  /** The RoundTripper installed in the authenticated client. */
  datatype AuthTransport = AuthTransport(base: Option<TransportId>, auth: AuthClient)

  /** The *http.Client AuthenticatedClient returns. */
  datatype AuthedClient = AuthedClient(transport: AuthTransport, timeout: int)

  /** AuthenticatedClient: wraps the plain client's transport and keeps its timeout. */
  function AuthenticatedClient(a: AuthClient): (c: AuthedClient)
    ensures c.transport.auth == a
    ensures c.transport.base == a.httpClient.transport
    ensures c.timeout == a.httpClient.timeout
  {
    AuthedClient(AuthTransport(a.httpClient.transport, a), a.httpClient.timeout)
  }

  /** A request handed to an underlying transport. */
  datatype Dispatch = Dispatch(via: TransportId, request: Request)

  /** authTransport.RoundTrip up to the hand-off: the clone, with the bearer
      header, goes to the base transport (the default one when none is set);
      without a token nothing is handed over. The caller's request is a value
      and is returned to nobody changed. */
  function RoundTrip(t: AuthTransport, s: TokenState, clock: Clock, outcome: LoginOutcome, req: Request): (r: Step<Dispatch>)
    ensures r.result.Err? <==> GetToken(t.auth, s, clock, outcome).result.Err?
    ensures r.result.Err? ==> r.result.error == GetToken(t.auth, s, clock, outcome).result.error
    ensures r.result.Ok? ==>
      r.result.value.via == (if t.base.Some? then t.base.value else DefaultTransport) &&
      r.result.value.request == WithBearer(req, r.state.token)
    ensures r.state == GetToken(t.auth, s, clock, outcome).state
    ensures r.login == GetToken(t.auth, s, clock, outcome).login
  {
    var step := AddAuthHeader(t.auth, s, clock, outcome, req);
    match step.result
    case Err(e) => Step(step.state, step.login, Err(e))
    case Ok(authed) => Step(step.state, step.login, Ok(Dispatch(t.base.GetOr(DefaultTransport), authed)))
  }

  // ---------------------------------------------------------------------------
  // Properties of the token machine across several calls

  /** At `now == expiry` the two validity tests disagree: GetToken still serves
      the cached token, while refreshToken, reached at that instant, logs in again. */
  lemma ExpiryInstantDisagreement(a: AuthClient, s: TokenState, clock: Clock, outcome: LoginOutcome)
    requires s.token != "" && clock.check == s.expiry && clock.lock == s.expiry
    requires !outcome.LoginRequestInvalid?
    ensures GetToken(a, s, clock, outcome) == Step(s, None, Ok(s.token))
    ensures Refresh(a, s, clock.lock, clock.stamp, outcome).login == Some(LoginRequestFor(a))
  {
  }

  /** Without a competing writer and with a clock that does not run backwards,
      the double check never fires for a caller GetToken sent to refresh: the
      login request goes out. */
  lemma SequentialRefreshLogsIn(a: AuthClient, s: TokenState, clock: Clock, outcome: LoginOutcome)
    requires clock.check <= clock.lock
    requires !FreshForRead(s, clock.check)
    requires !outcome.LoginRequestInvalid?
    ensures GetToken(a, s, clock, outcome).login == Some(LoginRequestFor(a))
  {
  }

  /** A call that found its snapshot stale and now waits for the write lock. */
  datatype Attempt = Attempt(lock: int, stamp: int, outcome: LoginOutcome)

  /** Callers queued on the write lock run refreshToken one after another;
      yields the final state and how many login requests were sent. */
  function RefreshInTurn(a: AuthClient, s: TokenState, attempts: seq<Attempt>): (TokenState, nat)
    decreases |attempts|
  {
    if |attempts| == 0 then (s, 0)
    else
      var step := Refresh(a, s, attempts[0].lock, attempts[0].stamp, attempts[0].outcome);
      var rest := RefreshInTurn(a, step.state, attempts[1..]);
      (rest.0, rest.1 + if step.login.Some? then 1 else 0)
  }

  /** Once a token is stored, every queued caller that takes the lock before
      it expires reuses it: no further login, no change of state. */
  lemma {:induction false} FreshTokenAbsorbsQueue(a: AuthClient, s: TokenState, attempts: seq<Attempt>)
    requires s.token != ""
    requires forall i :: 0 <= i < |attempts| ==> attempts[i].lock < s.expiry
    ensures RefreshInTurn(a, s, attempts) == (s, 0)
    decreases |attempts|
  {
    if |attempts| > 0 {
      FreshTokenAbsorbsQueue(a, s, attempts[1..]);
    }
  }

  /** Double-checked refresh: however many callers found the token stale, if
      the first to take the lock logs in successfully and the others take it
      before the new token expires, exactly one login request is sent. */
  lemma OneLoginPerStaleness(a: AuthClient, s: TokenState, attempts: seq<Attempt>)
    requires |attempts| > 0
    requires !FreshForRefresh(s, attempts[0].lock)
    requires LoginSucceeds(attempts[0].outcome)
    requires forall i :: 0 <= i < |attempts| ==> attempts[i].lock < attempts[0].stamp + TokenLifetime
    ensures RefreshInTurn(a, s, attempts).1 == 1
    ensures RefreshInTurn(a, s, attempts).0 ==
      TokenState(attempts[0].outcome.decoded.value.accessToken, attempts[0].stamp + TokenLifetime)
  {
    var step := Refresh(a, s, attempts[0].lock, attempts[0].stamp, attempts[0].outcome);
    var rest := attempts[1..];
    assert forall i :: 0 <= i < |rest| ==> rest[i].lock < step.state.expiry by {
      forall i | 0 <= i < |rest| ensures rest[i].lock < step.state.expiry {
        assert rest[i] == attempts[i + 1];
      }
    }
    FreshTokenAbsorbsQueue(a, step.state, rest);
  }

  /** Failures are not cached: while every login is answered with a non-200
      status, each queued caller that finds no usable token (none yet, or
      one past its expiry) sends its own login request, and the state stays
      as it was. */
  lemma {:induction false} RejectedLoginsAreRetried(a: AuthClient, s: TokenState, attempts: seq<Attempt>)
    requires forall i :: 0 <= i < |attempts| ==> !FreshForRefresh(s, attempts[i].lock)
    requires forall i :: 0 <= i < |attempts| ==>
      attempts[i].outcome.LoginReply? && attempts[i].outcome.status != StatusOK
    ensures RefreshInTurn(a, s, attempts) == (s, |attempts|)
    decreases |attempts|
  {
    if |attempts| > 0 {
      var rest := attempts[1..];
      forall i | 0 <= i < |rest|
        ensures !FreshForRefresh(s, rest[i].lock)
        ensures rest[i].outcome.LoginReply? && rest[i].outcome.status != StatusOK
      {
        assert rest[i] == attempts[i + 1];
      }
      RejectedLoginsAreRetried(a, s, rest);
    }
  }

  /** Readers served one after another while the token is present and not
      past its expiry never log in and never change the state. */
  datatype Lookup = Lookup(clock: Clock, outcome: LoginOutcome)

  function ReadInTurn(a: AuthClient, s: TokenState, lookups: seq<Lookup>): (TokenState, nat)
    decreases |lookups|
  {
    if |lookups| == 0 then (s, 0)
    else
      var step := GetToken(a, s, lookups[0].clock, lookups[0].outcome);
      var rest := ReadInTurn(a, step.state, lookups[1..]);
      (rest.0, rest.1 + if step.login.Some? then 1 else 0)
  }

  lemma {:induction false} ValidTokenNeedsNoLogin(a: AuthClient, s: TokenState, lookups: seq<Lookup>)
    requires s.token != ""
    requires forall i :: 0 <= i < |lookups| ==> lookups[i].clock.check <= s.expiry
    ensures ReadInTurn(a, s, lookups) == (s, 0)
    decreases |lookups|
  {
    if |lookups| > 0 {
      ValidTokenNeedsNoLogin(a, s, lookups[1..]);
    }
  }
}
