/** The generic request engine of internal/client/client.go: client
    construction, request building, the hand-off through the auth-injecting
    transport and the classification of the reply. The network is an oracle:
    what it does with a request is a `Reply` passed in. */
module Engine {
  import opened Results
  import opened Json
  import opened Http
  import opened Auth

  /** Config as the caller fills it in. `insecureHTTPS` is accepted and has
      no effect. */
  datatype Config = Config(
    baseURL: string,
    username: string,
    password: string,
    timeout: int,
    insecureHTTPS: bool,
    customHttpClient: Option<HttpClient>)

  /** A constructed client: the config with defaults applied, the
      authenticator and the authenticated *http.Client requests go through. */
  datatype Client = Client(config: Config, auth: AuthClient, http: AuthedClient)

  /** The shape New gives every client: the authenticated transport logs in
      through the client's own authenticator and wraps its plain transport. */
  predicate Assembled(c: Client) {
    c.http.transport.auth == c.auth && c.http.transport.base == c.auth.httpClient.transport
  }

  datatype ConfigError = MissingBaseURL | MissingUsername | MissingPassword

  /** New: reject a missing base URL, username or password (in that order);
      default a zero timeout to 30 seconds; use the custom client, or a plain
      one with the configured timeout, for logging in, and wrap its
      transport for everything else. */
  function New(c: Config): (r: Result<Client, ConfigError>)
    ensures c.baseURL == "" ==> r == Err(MissingBaseURL)
    ensures c.baseURL != "" && c.username == "" ==> r == Err(MissingUsername)
    ensures c.baseURL != "" && c.username != "" && c.password == "" ==> r == Err(MissingPassword)
    ensures r.Ok? <==> c.baseURL != "" && c.username != "" && c.password != ""
    ensures r.Ok? ==> r.value.config.timeout == (if c.timeout == 0 then 30 * Second else c.timeout)
    ensures r.Ok? ==> r.value.config == c.(timeout := r.value.config.timeout)
    ensures r.Ok? ==>
      r.value.auth.baseURL == c.baseURL && r.value.auth.username == c.username &&
      r.value.auth.password == c.password
    ensures r.Ok? && c.customHttpClient.Some? ==> r.value.auth.httpClient == c.customHttpClient.value
    ensures r.Ok? && c.customHttpClient.None? ==>
      r.value.auth.httpClient == HttpClient(r.value.config.timeout, None)
    ensures r.Ok? ==> Assembled(r.value)
  {
    if c.baseURL == "" then Err(MissingBaseURL)
    else if c.username == "" then Err(MissingUsername)
    else if c.password == "" then Err(MissingPassword)
    else
      var config := if c.timeout == 0 then c.(timeout := DefaultTimeout) else c;
      var base := c.customHttpClient.GetOr(HttpClient(config.timeout, None));
      var auth := NewAuthClient(config.baseURL, config.username, config.password, Some(base));
      Ok(Client(config, auth, AuthenticatedClient(auth)))
  }

  /** The arguments of one doRequest call: method, path, the request body
      value (None for a nil interface) and whether a result sink was passed. */
  datatype Call = Call(verb: Method, path: string, body: Option<Value>, hasSink: bool)

  /** Get: no body. */
  function Get(path: string, hasSink: bool): (r: Call)
    ensures r.verb == GET && r.path == path && r.body.None? && r.hasSink == hasSink
  {
    Call(GET, path, None, hasSink)
  }

  /** Post: the caller's body is forwarded. */
  function Post(path: string, body: Option<Value>, hasSink: bool): (r: Call)
    ensures r.verb == POST && r.path == path && r.body == body && r.hasSink == hasSink
  {
    Call(POST, path, body, hasSink)
  }

  /** Put: the caller's body is forwarded. */
  function Put(path: string, body: Option<Value>, hasSink: bool): (r: Call)
    ensures r.verb == PUT && r.path == path && r.body == body && r.hasSink == hasSink
  {
    Call(PUT, path, body, hasSink)
  }

  /** Patch: the caller's body is forwarded. */
  function Patch(path: string, body: Option<Value>, hasSink: bool): (r: Call)
    ensures r.verb == PATCH && r.path == path && r.body == body && r.hasSink == hasSink
  {
    Call(PATCH, path, body, hasSink)
  }

  /** Delete: no body. */
  function Delete(path: string, hasSink: bool): (r: Call)
    ensures r.verb == DELETE && r.path == path && r.body.None? && r.hasSink == hasSink
  {
    Call(DELETE, path, None, hasSink)
  }

  /** Why the transport did not produce a response. */
  datatype ExecuteError = AuthHeaderFailed(cause: AuthError) | TransportFailed

  datatype EngineError =
    | MarshalFailed                           // the body value cannot be encoded
    | RequestBuildFailed                      // http.NewRequestWithContext rejected the request
    | ExecuteFailed(cause: ExecuteError)      // no response: no token, or the exchange failed
    | StatusFailed(status: int, body: string) // a status outside [200, 300), with the body text read
    | ReadFailed                              // the body could not be read and a result was wanted
    | DecodeFailed(reason: string, body: string)

  /** The body step of doRequest as written: a present body value is passed
      to json.Marshal, whatever it is. */
  function EncodeBody(body: Option<Value>): (r: Result<Option<Json>, EngineError>)
    ensures body.None? ==> r == Ok(None)
    ensures body.Some? ==> (r.Ok? <==> Encodable(body.value))
    ensures r.Err? ==> r.error == MarshalFailed
    ensures r.Ok? ==> (r.value.Some? <==> body.Some?)
    // what is sent is json.Marshal's document for the body
    ensures body.Some? && r.Ok? ==> Marshal(body.value).Some? && r.value == Some(Marshal(body.value).value)
  {
    match body
    case None => Ok(None)
    case Some(v) =>
      MarshalSucceedsIff(v);
      match Marshal(v)
      case None => Err(MarshalFailed)
      case Some(doc) => Ok(Some(doc))
  }

  /** The body step as evidently intended: a reader's bytes are sent as they
      are, anything else is marshalled. */
  function EncodeBodyStreaming(body: Option<Value>): (r: Result<Option<Json>, EngineError>)
    ensures body.None? ==> r == Ok(None)
    ensures body.Some? && body.value.VReader? ==> r == Ok(Some(body.value.doc))
    ensures body.Some? && !body.value.VReader? ==> r == EncodeBody(body)
  {
    match body
    case Some(VReader(doc)) => Ok(Some(doc))
    case _ => EncodeBody(body)
  }

  /** The headers doRequest sets before the token is attached. */
  function RequestHeaders(hasBody: bool): (h: map<string, string>)
    ensures AcceptHeader in h && h[AcceptHeader] == "application/json"
    ensures ContentTypeHeader in h <==> hasBody
    ensures hasBody ==> h[ContentTypeHeader] == "application/json"
    ensures h.Keys <= {AcceptHeader, ContentTypeHeader}
  {
    var h := map[AcceptHeader := JsonMediaType];
    if hasBody then h[ContentTypeHeader := JsonMediaType] else h
  }

  /** The request doRequest builds: base URL and path concatenated verbatim. */
  function BuildRequest(c: Client, call: Call, body: Option<Json>): (r: Request)
    ensures r.verb == call.verb && r.url == c.config.baseURL + call.path && r.body == body
    ensures r.headers == RequestHeaders(call.body.Some?)
  {
    Request(call.verb, c.config.baseURL + call.path, RequestHeaders(call.body.Some?), body)
  }

  /** What the world does with a built request, decided outside the model.
      `decoded` is json.Unmarshal's verdict on the body for the sink's type. */
  datatype Reply<T> =
    | RequestInvalid
    | NetworkFailed
    | Reply(status: int, body: string, readFailed: bool, decoded: Result<T, string>)

  predicate Is2xx(status: int) {
    200 <= status < 300
  }

  /** The response classification of doRequest: the result sink's content on
      success (None when no sink was passed) or the error. */
  function Classify<T>(status: int, body: string, readFailed: bool, hasSink: bool, decoded: Result<T, string>): (r: Result<Option<T>, EngineError>)
    ensures r.Ok? <==> Is2xx(status) && (!hasSink || (!readFailed && decoded.Ok?))
    ensures !Is2xx(status) ==> r == Err(StatusFailed(status, body))
    ensures r.Ok? ==> (r.value.Some? <==> hasSink)
    ensures r.Ok? && hasSink ==> r.value.value == decoded.value
    ensures Is2xx(status) && hasSink && readFailed ==> r == Err(ReadFailed)
    ensures Is2xx(status) && hasSink && !readFailed && decoded.Err? ==> r == Err(DecodeFailed(decoded.error, body))
  {
    if status < 200 || status >= 300 then Err(StatusFailed(status, body))
    else if !hasSink then Ok(None)
    else if readFailed then Err(ReadFailed)
    else match decoded
      case Err(e) => Err(DecodeFailed(e, body))
      case Ok(v) => Ok(Some(v))
  }

  /** The status check comes first: a failing status yields the same error
      whatever the read, the sink or the decoder would have said. */
  lemma StatusTakesPrecedence<T>(status: int, body: string, read1: bool, read2: bool, sink1: bool, sink2: bool,
                                 d1: Result<T, string>, d2: Result<T, string>)
    requires !Is2xx(status)
    ensures Classify(status, body, read1, sink1, d1) == Classify(status, body, read2, sink2, d2)
  {
  }

  /** Without a sink a 2xx reply succeeds, even when reading the body failed. */
  lemma ReadErrorNeedsSink<T>(status: int, body: string, readFailed: bool, decoded: Result<T, string>)
    requires Is2xx(status)
    ensures Classify(status, body, readFailed, false, decoded) == Ok(None)
  {
  }

  /** Everything one doRequest call observably does. */
  datatype Exchange<T> = Exchange(
    state: TokenState,              // token cache afterwards
    login: Option<LoginRequest>,    // login request sent on the way, if any
    sent: Option<Dispatch>,         // the request handed to the base transport, if any
    result: Result<Option<T>, EngineError>)

  /** doRequest, with the token cache `s`, the clock readings and login
      outcome the token step would meet, and the world's reply. */
  function Execute<T>(c: Client, s: TokenState, clock: Clock, login: LoginOutcome, call: Call, reply: Reply<T>): (r: Exchange<T>)
    // a body that cannot be encoded stops everything before a request exists
    ensures call.body.Some? && !Encodable(call.body.value) ==>
      r == Exchange(s, None, None, Err(MarshalFailed))
    // the request handed over: verbatim URL, JSON headers, the current bearer token
    ensures r.sent.Some? ==>
      && r.sent.value.request.verb == call.verb
      && r.sent.value.request.url == c.config.baseURL + call.path
      && AcceptHeader in r.sent.value.request.headers
      && r.sent.value.request.headers[AcceptHeader] == "application/json"
      && (ContentTypeHeader in r.sent.value.request.headers <==> call.body.Some?)
      && AuthorizationHeader in r.sent.value.request.headers
      && r.sent.value.request.headers[AuthorizationHeader] == "Bearer " + r.state.token
      && r.state.token != ""
      && r.sent.value.request.body == EncodeBody(call.body).value
    // no token, no request
    ensures (call.body.None? || Encodable(call.body.value)) && !reply.RequestInvalid? ==>
      (r.sent.None? <==> GetToken(c.auth, s, clock, login).result.Err?)
    ensures r.sent.None? && r.result.Err? && r.result.error.ExecuteFailed? ==>
      r.result.error.cause.AuthHeaderFailed?
    ensures r.result.Ok? ==> r.sent.Some? && reply.Reply? && Is2xx(reply.status)
    ensures r.result.Ok? && call.hasSink ==>
      reply.Reply? && reply.decoded.Ok? && r.result.value == Some(reply.decoded.value)
    ensures r.result.Ok? && !call.hasSink ==> r.result.value.None?
    // once a request is sent, the reply decides the result
    ensures r.sent.Some? && reply.Reply? ==>
      r.result == Classify(reply.status, reply.body, reply.readFailed, call.hasSink, reply.decoded)
    ensures r.sent.Some? && reply.NetworkFailed? ==> r.result == Err(ExecuteFailed(TransportFailed))
    // the token cache is left as the token step leaves it, and changes only through a login
    ensures (call.body.None? || Encodable(call.body.value)) && !reply.RequestInvalid? ==>
      r.state == GetToken(c.auth, s, clock, login).state
    ensures r.login.None? ==> r.state == s
  {
    match EncodeBody(call.body)
    case Err(e) => Exchange(s, None, None, Err(e))
    case Ok(body) =>
      if reply.RequestInvalid? then Exchange(s, None, None, Err(RequestBuildFailed))
      else
        var rt := RoundTrip(c.http.transport, s, clock, login, BuildRequest(c, call, body));
        match rt.result
        case Err(e) => Exchange(rt.state, rt.login, None, Err(ExecuteFailed(AuthHeaderFailed(e))))
        case Ok(d) =>
          match reply
          case NetworkFailed => Exchange(rt.state, rt.login, Some(d), Err(ExecuteFailed(TransportFailed)))
          case Reply(status, text, readFailed, decoded) =>
            Exchange(rt.state, rt.login, Some(d), Classify(status, text, readFailed, call.hasSink, decoded))
  }

  /** A client-level scenario: with no token cached and a login that
      succeeds, a request first logs in, then goes out with the new token. */
  lemma FirstCallLogsInThenSends<T>(c: Client, clock: Clock, login: LoginOutcome, call: Call, reply: Reply<T>)
    requires Assembled(c)
    requires call.body.None? || Encodable(call.body.value)
    requires LoginSucceeds(login)
    requires !reply.RequestInvalid?
    ensures Execute(c, NoToken, clock, login, call, reply).login == Some(LoginRequestFor(c.auth))
    ensures Execute(c, NoToken, clock, login, call, reply).sent.Some?
    ensures Execute(c, NoToken, clock, login, call, reply).sent.value.request.headers[AuthorizationHeader] ==
      "Bearer " + login.decoded.value.accessToken
  {
  }

  /** A rejected login: the error carries the login status and no request
      reaches the resource endpoint. */
  lemma RejectedLoginSendsNothing<T>(c: Client, s: TokenState, clock: Clock, status: int, call: Call, reply: Reply<T>)
    requires !FreshForRead(s, clock.check) && !FreshForRefresh(s, clock.lock)
    requires status != StatusOK
    requires (call.body.None? || Encodable(call.body.value)) && !reply.RequestInvalid?
    ensures Execute(c, s, clock, LoginReply(status, None), call, reply).sent.None?
    ensures Execute(c, s, clock, LoginReply(status, None), call, reply).result ==
      Err(ExecuteFailed(AuthHeaderFailed(AuthRejected(status))))
    ensures Execute(c, s, clock, LoginReply(status, None), call, reply).state == s
  {
  }

  /** Get and Delete never send a Content-Type; Post, Put and Patch send one
      exactly when they are given a body. */
  lemma ContentTypeFollowsBinding<T>(c: Client, s: TokenState, clock: Clock, login: LoginOutcome, path: string,
                                     body: Option<Value>, hasSink: bool, reply: Reply<T>)
    ensures var r := Execute(c, s, clock, login, Get(path, hasSink), reply);
      r.sent.Some? ==> ContentTypeHeader !in r.sent.value.request.headers
    ensures var r := Execute(c, s, clock, login, Delete(path, hasSink), reply);
      r.sent.Some? ==> ContentTypeHeader !in r.sent.value.request.headers
    ensures var r := Execute(c, s, clock, login, Post(path, body, hasSink), reply);
      r.sent.Some? ==> (ContentTypeHeader in r.sent.value.request.headers <==> body.Some?)
    ensures var r := Execute(c, s, clock, login, Put(path, body, hasSink), reply);
      r.sent.Some? ==> (ContentTypeHeader in r.sent.value.request.headers <==> body.Some?)
    ensures var r := Execute(c, s, clock, login, Patch(path, body, hasSink), reply);
      r.sent.Some? ==> (ContentTypeHeader in r.sent.value.request.headers <==> body.Some?)
  {
  }

  /** A reader handed to doRequest as the body is marshalled as a struct
      without exported fields: whatever it holds, `{}` is what is sent. The
      streaming encoder sends the reader's content instead. */
  lemma ReaderBodyIsLost(d1: Json, d2: Json)
    ensures EncodeBody(Some(VReader(d1))) == EncodeBody(Some(VReader(d2))) == Ok(Some(JObject([])))
    ensures EncodeBodyStreaming(Some(VReader(d1))) == Ok(Some(d1))
  {
  }

  // ---------------------------------------------------------------------------
  // Resource wrappers

  /** What a resource wrapper hands to the engine: its error context and the
      call, or None when the wrapper's own json.Marshal of the payload failed. */
  datatype Plan<O> = Plan(op: O, call: Option<Call>)

  /** A wrapper's error: the payload could not be marshalled, or the call
      failed; either way the operation it belongs to is recorded, as the Go
      wrappers prefix the message with it. */
  datatype OpError<O> = EncodeFailed(op: O) | CallFailed(op: O, cause: EngineError)

  /** Everything the world contributes to one wrapper call. */
  datatype Env<T> = Env(client: Client, state: TokenState, clock: Clock, login: LoginOutcome, reply: Reply<T>)

  datatype OpOutcome<T, O> = OpOutcome(
    state: TokenState,
    login: Option<LoginRequest>,
    sent: Option<Dispatch>,
    result: Result<Option<T>, OpError<O>>)

  /** Running a wrapper: a payload that did not marshal stops it before any
      request; otherwise the engine's outcome is returned with its error
      wrapped in the operation's context and no value. */
  function Perform<T, O>(env: Env<T>, plan: Plan<O>): (r: OpOutcome<T, O>)
    ensures plan.call.None? ==> r == OpOutcome(env.state, None, None, Err(EncodeFailed(plan.op)))
    ensures plan.call.Some? ==>
      var x := Execute(env.client, env.state, env.clock, env.login, plan.call.value, env.reply);
      && r.state == x.state && r.login == x.login && r.sent == x.sent
      && (r.result.Ok? <==> x.result.Ok?)
      && (r.result.Ok? ==> r.result.value == x.result.value)
      && (r.result.Err? ==> r.result.error == CallFailed(plan.op, x.result.error))
  {
    match plan.call
    case None => OpOutcome(env.state, None, None, Err(EncodeFailed(plan.op)))
    case Some(call) =>
      var x := Execute(env.client, env.state, env.clock, env.login, call, env.reply);
      var result := match x.result
        case Ok(v) => Ok(v)
        case Err(e) => Err(CallFailed(plan.op, e));
      OpOutcome(x.state, x.login, x.sent, result)
  }
}
