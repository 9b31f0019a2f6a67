/**
 * Pure specification of the Fermax session client: the token state it keeps, the
 * exchanges with the OAuth 2.0 token endpoint (password grant, section 4.3 of RFC 6749;
 * refresh-token grant, section 6 of RFC 6749), and the request policy shared by every
 * authenticated endpoint (ensure a token, refresh once on 401, retry once).
 *
 * The token endpoint is modelled as the queue of replies it will give; a request sent
 * when the queue is empty meets a connection failure. Every request is recorded, so the
 * number and order of network calls can be stated.
 */
module TokenSession {
  import opened Wrappers
  import opened Payloads

  /** Seconds taken off the server-reported token lifetime. */
  const TOKEN_MARGIN: int := 60
  /** Lifetime assumed when a token reply carries no `expires_in`. */
  const DEFAULT_EXPIRES_IN: int := 3600

  /** What made an HTTP exchange fail: the transport, or an error status (>= 400). */
  datatype Cause = Network | HttpStatus(status: int)

  /** The exceptions the client raises. */
  datatype Error =
    | AuthError(detail: string)      // FermaxAuthError, carrying the reply text
    | ConnectionError(cause: Cause)  // FermaxConnectionError
    | ApiError(cause: Cause)         // FermaxAPIError
    | Malformed(field: string)       // KeyError / TypeError while reading a token reply

  datatype Outcome<+T> = Ok(value: T) | Err(error: Error)

  /** One HTTP exchange as the client sees it. */
  datatype Response<+T> = ConnectionFailure | Reply(status: int, text: string, body: T)

  /** A JSON object key that may be missing, present with `null`, or present with a value. */
  datatype Field<+T> = Missing | Null | Present(value: T)

  /** The fields of a token reply that the client reads. */
  datatype TokenBody = TokenBody(accessToken: Field<string>, refreshToken: Field<string>, expiresIn: Field<int>)

  type TokenReply = Response<TokenBody>

  /** The three fields `_access_token`, `_refresh_token` and `_expires_at`. */
  datatype TokenState = TokenState(accessToken: Option<string>, refreshToken: Option<string>, expiresAt: int)

  datatype Grant = PasswordGrant(username: string, password: string) | RefreshGrant(refreshToken: string)

  datatype Endpoint =
    | Pairings
    | Device(deviceId: string)
    | Services(deviceId: string)
    | UserInfo
    | DirectedOpenDoor(deviceId: string, block: int, subblock: int, number: int)

  /** A request put on the wire; `bearer` is the access token sent with it. */
  datatype Request = TokenRequest(grant: Grant) | ApiRequest(endpoint: Endpoint, bearer: Option<string>)

  /** The state a fresh client starts in. */
  const NO_TOKENS := TokenState(None, None, 0)

  /** Python truthiness of an optional string: neither `None` nor empty. */
  predicate IsSet(s: Option<string>) {
    s.Some? && s.value != ""
  }

  /** The test in `_ensure_token`: the access token is missing or empty, or it has expired. */
  predicate NeedsRefresh(t: TokenState, now: int) {
    !IsSet(t.accessToken) || now >= t.expiresAt
  }

  function NextReply(pending: seq<TokenReply>): TokenReply {
    if pending == [] then ConnectionFailure else pending[0]
  }

  function Consume(pending: seq<TokenReply>): seq<TokenReply> {
    if pending == [] then [] else pending[1..]
  }

  /** `data.get(key)`: a missing key and a `null` value both read as `None`. */
  function FieldValue<T>(f: Field<T>): Option<T> {
    if f.Present? then Some(f.value) else None
  }

  /** `int(data.get("expires_in", 3600))`; `None` where `int(None)` raises. */
  function Lifetime(body: TokenBody): Option<int> {
    match body.expiresIn
    case Missing => Some(DEFAULT_EXPIRES_IN)
    case Null => None
    case Present(n) => Some(n)
  }

  /** A 200 reply whose body the client can read completely. */
  predicate Granted(reply: TokenReply) {
    reply.Reply? && reply.status == 200 && !reply.body.accessToken.Missing? && Lifetime(reply.body).Some?
  }

  /**
   * The token state a successful grant establishes at time `now`. It is valid from
   * `now` until just before `now + expires_in - 60`, and only if the access token is set.
   */
  function Issued(body: TokenBody, refreshToken: Option<string>, now: int): (r: TokenState)
    requires Lifetime(body).Some?
    ensures r.refreshToken == refreshToken
    ensures forall s :: !NeedsRefresh(r, s) <==>
      IsSet(FieldValue(body.accessToken)) && s < now + Lifetime(body).value - TOKEN_MARGIN
  {
    TokenState(FieldValue(body.accessToken), refreshToken, now + Lifetime(body).value - TOKEN_MARGIN)
  }

  /** A token issued at 0 with the default lifetime is valid through 3539 and expired at 3540. */
  lemma DefaultLifetimeExample(access: string)
    requires access != ""
    ensures !NeedsRefresh(Issued(TokenBody(Present(access), Missing, Missing), None, 0), 3539)
    ensures NeedsRefresh(Issued(TokenBody(Present(access), Missing, Missing), None, 0), 3540)
  {
  }

  /** The result of a token-endpoint operation. */
  datatype TokenResult = TokenResult(
    tokens: TokenState,
    failure: Option<Error>,
    requests: seq<Request>,
    pending: seq<TokenReply>)

  predicate OnlyTokenRequests(rs: seq<Request>) {
    forall i :: 0 <= i < |rs| ==> rs[i].TokenRequest?
  }

  /**
   * The field writes after a 200 reply, in the source's order: the access token (a
   * missing key raises before anything is written), then the refresh token, then the
   * expiry (a `null` lifetime raises after the two tokens were written).
   */
  function StoreGrant(t: TokenState, body: TokenBody, now: int, isLogin: bool): TokenResult {
    if body.accessToken.Missing? then
      TokenResult(t, Some(Malformed("access_token")), [], [])
    else
      var refresh := if isLogin || !body.refreshToken.Missing? then FieldValue(body.refreshToken) else t.refreshToken;
      var written := t.(accessToken := FieldValue(body.accessToken), refreshToken := refresh);
      if Lifetime(body).None? then
        TokenResult(written, Some(Malformed("expires_in")), [], [])
      else
        TokenResult(Issued(body, refresh, now), None, [], [])
  }

  /**
   * `async_login`: exactly one password-grant request, which consumes one reply of the
   * token endpoint; it never raises `ApiError`. `LoginOutcome` states what it stores.
   */
  function LoginSpec(email: string, password: string, t: TokenState, pending: seq<TokenReply>, now: int): (r: TokenResult)
    ensures r.requests == [TokenRequest(PasswordGrant(email, password))]
    ensures r.pending == Consume(pending)
    ensures r.failure.Some? ==> !r.failure.value.ApiError?
  {
    var reply := NextReply(pending);
    var sent := [TokenRequest(PasswordGrant(email, password))];
    match reply
    case ConnectionFailure =>
      TokenResult(t, Some(ConnectionError(Network)), sent, Consume(pending))
    case Reply(status, text, body) =>
      if status != 200 then
        TokenResult(t, Some(AuthError(text)), sent, Consume(pending))
      else
        var s := StoreGrant(t, body, now, true);
        TokenResult(s.tokens, s.failure, sent, Consume(pending))
  }

  /**
   * `async_refresh_token`: one or two token-endpoint requests, the refresh grant first
   * when a refresh token is held; every error it raises other than a malformed reply
   * comes from the fallback login. `RefreshOutcome` states what it stores.
   */
  function RefreshSpec(email: string, password: string, t: TokenState, pending: seq<TokenReply>, now: int): (r: TokenResult)
    ensures 1 <= |r.requests| <= 2 && OnlyTokenRequests(r.requests)
    ensures r.failure.Some? ==> !r.failure.value.ApiError?
    ensures IsSet(t.refreshToken) ==> r.requests[0] == TokenRequest(RefreshGrant(t.refreshToken.value))
    // the errors a refresh can raise are the login's, or a malformed 200 reply
    ensures r.failure.Some? && !r.failure.value.Malformed? ==>
      r.requests[|r.requests| - 1] == TokenRequest(PasswordGrant(email, password))
  {
    if !IsSet(t.refreshToken) then
      LoginSpec(email, password, t, pending, now)
    else
      var sent := [TokenRequest(RefreshGrant(t.refreshToken.value))];
      var reply := NextReply(pending);
      if reply.ConnectionFailure? || reply.status != 200 then
        var login := LoginSpec(email, password, t, Consume(pending), now);
        login.(requests := sent + login.requests)
      else
        var s := StoreGrant(t, reply.body, now, false);
        TokenResult(s.tokens, s.failure, sent, Consume(pending))
  }

  /**
   * `_ensure_token`: a refresh goes on the wire exactly when the access token is missing
   * or empty or `now >= expires_at`; otherwise nothing is sent and nothing changes.
   */
  function EnsureSpec(email: string, password: string, t: TokenState, pending: seq<TokenReply>, now: int): (r: TokenResult)
    ensures OnlyTokenRequests(r.requests)
    ensures r.requests != [] <==> NeedsRefresh(t, now)
    ensures r.requests == [] ==> r.tokens == t && r.failure.None? && r.pending == pending
    ensures r.requests != [] ==> r == RefreshSpec(email, password, t, pending, now)
  {
    if NeedsRefresh(t, now) then RefreshSpec(email, password, t, pending, now)
    else TokenResult(t, None, [], pending)
  }

  /**
   * The outcome of `async_login`. A non-200 reply raises `AuthError` with the reply text
   * and a transport failure raises `ConnectionError`, both leaving the token state as it
   * was. Success stores the access token, the reply's refresh token (or none) and an
   * expiry 60 seconds before the reported lifetime ends. A missing `access_token`
   * leaves the state as it was; a `null` lifetime, the only failure that changes the
   * state, leaves the two tokens written and the old expiry.
   */
  lemma LoginOutcome(email: string, password: string, t: TokenState, pending: seq<TokenReply>, now: int)
    ensures var r := LoginSpec(email, password, t, pending, now);
      && (NextReply(pending).ConnectionFailure? ==> r.tokens == t && r.failure == Some(ConnectionError(Network)))
      && (NextReply(pending).Reply? && NextReply(pending).status != 200 ==>
            r.tokens == t && r.failure == Some(AuthError(NextReply(pending).text)))
      && (r.failure.None? <==> Granted(NextReply(pending)))
      && (r.failure.None? ==>
            var body := NextReply(pending).body;
            r.tokens == Issued(body, FieldValue(body.refreshToken), now))
      && (r.failure.Some? && r.tokens != t ==> r.failure == Some(Malformed("expires_in")))
      && (NextReply(pending).Reply? && NextReply(pending).status == 200 ==>
            var body := NextReply(pending).body;
            && (body.accessToken.Missing? ==> r.tokens == t && r.failure == Some(Malformed("access_token")))
            && (!body.accessToken.Missing? && body.expiresIn.Null? <==> r.failure == Some(Malformed("expires_in")))
            && (!body.accessToken.Missing? && body.expiresIn.Null? ==>
                  r.tokens == t.(accessToken := FieldValue(body.accessToken), refreshToken := FieldValue(body.refreshToken))))
  {
  }

  /**
   * The outcome of `async_refresh_token`. Without a refresh token it is a login.
   * Otherwise a transport failure or a non-200 reply to the refresh grant falls back to
   * a login, so a refresh failure is never raised as itself; a 200 reply replaces the
   * access token and expiry, and the refresh token only when the reply has that key.
   * A malformed 200 reply leaves the state as it was when `access_token` is missing, and
   * the two tokens written with the old expiry when `expires_in` is `null`; that is the
   * only failure that changes the state.
   */
  lemma RefreshOutcome(email: string, password: string, t: TokenState, pending: seq<TokenReply>, now: int)
    ensures var r := RefreshSpec(email, password, t, pending, now);
      && (!IsSet(t.refreshToken) ==> r == LoginSpec(email, password, t, pending, now))
      && (IsSet(t.refreshToken) && !(NextReply(pending).Reply? && NextReply(pending).status == 200) ==>
            var login := LoginSpec(email, password, t, Consume(pending), now);
            r.tokens == login.tokens && r.failure == login.failure && r.pending == login.pending &&
            r.requests == [TokenRequest(RefreshGrant(t.refreshToken.value))] + login.requests)
      && (IsSet(t.refreshToken) && NextReply(pending).Reply? && NextReply(pending).status == 200 ==>
            |r.requests| == 1 && r.pending == Consume(pending) &&
            (r.failure.None? <==> Granted(NextReply(pending))) &&
            (r.failure.None? ==>
              var body := NextReply(pending).body;
              r.tokens == Issued(body, if body.refreshToken.Missing? then t.refreshToken else FieldValue(body.refreshToken), now)) &&
            var body := NextReply(pending).body;
            && (body.accessToken.Missing? ==> r.tokens == t && r.failure == Some(Malformed("access_token")))
            && (!body.accessToken.Missing? && body.expiresIn.Null? <==> r.failure == Some(Malformed("expires_in")))
            && (!body.accessToken.Missing? && body.expiresIn.Null? ==>
                  r.tokens == t.(accessToken := FieldValue(body.accessToken),
                                 refreshToken := if body.refreshToken.Missing? then t.refreshToken else FieldValue(body.refreshToken))))
      && (r.failure.Some? && r.tokens != t ==> r.failure == Some(Malformed("expires_in")))
  {
    LoginOutcome(email, password, t, pending, now);
    LoginOutcome(email, password, t, Consume(pending), now);
  }

  /** The result of an authenticated endpoint call. */
  datatype CallResult<+T> = CallResult(
    tokens: TokenState,
    outcome: Outcome<T>,
    requests: seq<Request>,
    pending: seq<TokenReply>)

  /**
   * `raise_for_status` followed by reading the body, inside the endpoint's
   * `except ClientError`: a transport failure or a status of 400 or more goes to the
   * endpoint's own handler, anything else is the decoded body.
   */
  function Checked<T>(reply: Response<T>, onClientError: Cause -> Outcome<T>): Outcome<T> {
    match reply
    case ConnectionFailure => onClientError(Network)
    case Reply(status, _, body) => if status >= 400 then onClientError(HttpStatus(status)) else Ok(body)
  }

  /** The handler of pairings, device and user info: `ClientError` becomes `ConnectionError`. */
  function RaiseConnectionError<T>(c: Cause): (r: Outcome<T>)
    ensures r.Err? && r.error.ConnectionError?
  {
    Err(ConnectionError(c))
  }

  /** The handler of the open-door endpoint: `ClientError` becomes `ApiError`. */
  function RaiseApiError<T>(c: Cause): (r: Outcome<T>)
    ensures r.Err? && r.error.ApiError?
  {
    Err(ApiError(c))
  }

  /** The handler of the services endpoint: `ClientError` yields no services. */
  function NoServices(c: Cause): (r: Outcome<seq<string>>)
    ensures r.Ok? && r.value == []
  {
    Ok([])
  }

  /**
   * The request of an authenticated call once a token is held: send it; on a 401
   * refresh once (its errors propagate) and send it once more with the new token; the
   * reply that was used last decides the outcome.
   */
  function SendSpec<T>(
    email: string, password: string, t: TokenState, pending: seq<TokenReply>, now: int,
    ep: Endpoint, first: Response<T>, retry: Response<T>, onClientError: Cause -> Outcome<T>
  ): CallResult<T>
  {
    SendAfter(t, pending, ep, first, retry, onClientError, RefreshSpec(email, password, t, pending, now))
  }

  /** `SendSpec` given the result `f` of the refresh, which is used only after a 401. */
  function SendAfter<T>(
    t: TokenState, pending: seq<TokenReply>,
    ep: Endpoint, first: Response<T>, retry: Response<T>, onClientError: Cause -> Outcome<T>, f: TokenResult
  ): CallResult<T>
  {
    var sent := [ApiRequest(ep, t.accessToken)];
    if first.Reply? && first.status == 401 then
      if f.failure.Some? then
        CallResult(f.tokens, Err(f.failure.value), sent + f.requests, f.pending)
      else
        CallResult(f.tokens, Checked(retry, onClientError), sent + f.requests + [ApiRequest(ep, f.tokens.accessToken)], f.pending)
    else
      CallResult(t, Checked(first, onClientError), sent, pending)
  }

  /** One authenticated call of `ep`: ensure a token (its errors propagate), then send. */
  function CallSpec<T>(
    email: string, password: string, t: TokenState, pending: seq<TokenReply>, now: int,
    ep: Endpoint, first: Response<T>, retry: Response<T>, onClientError: Cause -> Outcome<T>
  ): CallResult<T>
  {
    var e := EnsureSpec(email, password, t, pending, now);
    if e.failure.Some? then
      CallResult(e.tokens, Err(e.failure.value), e.requests, e.pending)
    else
      var s := SendSpec(email, password, e.tokens, e.pending, now, ep, first, retry, onClientError);
      s.(requests := e.requests + s.requests)
  }

  /** The data-endpoint requests among `rs`, in order. */
  function ApiCalls(rs: seq<Request>): seq<Request> {
    if rs == [] then []
    else ApiCalls(rs[..|rs| - 1]) + (if rs[|rs| - 1].ApiRequest? then [rs[|rs| - 1]] else [])
  }

  lemma {:induction false} ApiCallsAppend(a: seq<Request>, b: seq<Request>)
    ensures ApiCalls(a + b) == ApiCalls(a) + ApiCalls(b)
    decreases |b|
  {
    if b == [] {
      assert a + b == a;
    } else {
      var b' := b[..|b| - 1];
      assert (a + b)[..|a + b| - 1] == a + b';
      ApiCallsAppend(a, b');
    }
  }

  lemma {:induction false} NoApiCalls(rs: seq<Request>)
    requires OnlyTokenRequests(rs)
    ensures ApiCalls(rs) == []
    decreases |rs|
  {
    if rs != [] {
      NoApiCalls(rs[..|rs| - 1]);
    }
  }

  /**
   * The data-endpoint requests of a call: none when no token could be obtained; one, with
   * the token held after `_ensure_token`; and a second one, carrying the refreshed token,
   * exactly when the first reply was a 401 and the refresh succeeded. The reply to the
   * last of them decides the outcome, so a second 401 is raised and never retried.
   */
  lemma UnauthorizedRetriedOnce<T>(
    email: string, password: string, t: TokenState, pending: seq<TokenReply>, now: int,
    ep: Endpoint, first: Response<T>, retry: Response<T>, onClientError: Cause -> Outcome<T>)
    ensures
      var r := CallSpec(email, password, t, pending, now, ep, first, retry, onClientError);
      var e := EnsureSpec(email, password, t, pending, now);
      var f := RefreshSpec(email, password, e.tokens, e.pending, now);
      ApiCalls(r.requests) ==
        if e.failure.Some? then []
        else if !(first.Reply? && first.status == 401) || f.failure.Some? then [ApiRequest(ep, e.tokens.accessToken)]
        else [ApiRequest(ep, e.tokens.accessToken), ApiRequest(ep, f.tokens.accessToken)]
  {
    var r := CallSpec(email, password, t, pending, now, ep, first, retry, onClientError);
    var e := EnsureSpec(email, password, t, pending, now);
    NoApiCalls(e.requests);
    if e.failure.Some? {
      assert r.requests == e.requests;
    } else {
      var s := SendSpec(email, password, e.tokens, e.pending, now, ep, first, retry, onClientError);
      assert r.requests == e.requests + s.requests;
      ApiCallsAppend(e.requests, s.requests);
      SendApiCalls(e.tokens, e.pending, ep, first, retry, onClientError, RefreshSpec(email, password, e.tokens, e.pending, now));
    }
  }

  /** The data-endpoint requests of `SendAfter`: the request, and its retry after a 401. */
  lemma SendApiCalls<T>(
    t: TokenState, pending: seq<TokenReply>,
    ep: Endpoint, first: Response<T>, retry: Response<T>, onClientError: Cause -> Outcome<T>, f: TokenResult)
    requires OnlyTokenRequests(f.requests)
    ensures
      ApiCalls(SendAfter(t, pending, ep, first, retry, onClientError, f).requests) ==
        if !(first.Reply? && first.status == 401) || f.failure.Some? then [ApiRequest(ep, t.accessToken)]
        else [ApiRequest(ep, t.accessToken), ApiRequest(ep, f.tokens.accessToken)]
  {
    var s := SendAfter(t, pending, ep, first, retry, onClientError, f);
    var x := ApiRequest(ep, t.accessToken);
    assert ApiCalls([x]) == ApiCalls([]) + [x];
    if first.Reply? && first.status == 401 {
      ApiCallsAppend([x], f.requests);
      NoApiCalls(f.requests);
      if f.failure.None? {
        var y := ApiRequest(ep, f.tokens.accessToken);
        assert s.requests == [x] + f.requests + [y];
        ApiCallsAppend([x] + f.requests, [y]);
        assert ApiCalls([y]) == ApiCalls([]) + [y];
      }
    }
  }

  /**
   * After a successful `_ensure_token`, the reply to the last data-endpoint request
   * decides the outcome: the retry's after a 401 and a successful refresh (so a second
   * 401 is raised), the first reply's otherwise.
   */
  lemma LastReplyDecides<T>(
    email: string, password: string, t: TokenState, pending: seq<TokenReply>, now: int,
    ep: Endpoint, first: Response<T>, retry: Response<T>, onClientError: Cause -> Outcome<T>)
    requires EnsureSpec(email, password, t, pending, now).failure.None?
    ensures
      var r := CallSpec(email, password, t, pending, now, ep, first, retry, onClientError);
      var e := EnsureSpec(email, password, t, pending, now);
      var f := RefreshSpec(email, password, e.tokens, e.pending, now);
      if first.Reply? && first.status == 401 then
        r.tokens == f.tokens && r.outcome == (if f.failure.Some? then Err(f.failure.value) else Checked(retry, onClientError))
      else
        r.tokens == e.tokens && r.outcome == Checked(first, onClientError)
  {
    var e := EnsureSpec(email, password, t, pending, now);
    var s := SendSpec(email, password, e.tokens, e.pending, now, ep, first, retry, onClientError);
    assert CallSpec(email, password, t, pending, now, ep, first, retry, onClientError) == s.(requests := e.requests + s.requests);
  }

  /** Where a failed call's error comes from: the token endpoint, or the endpoint's handler. */
  lemma CallFailureSource<T>(
    email: string, password: string, t: TokenState, pending: seq<TokenReply>, now: int,
    ep: Endpoint, first: Response<T>, retry: Response<T>, onClientError: Cause -> Outcome<T>)
    ensures
      var r := CallSpec(email, password, t, pending, now, ep, first, retry, onClientError);
      r.outcome.Err? ==>
        |r.requests| > 0 &&
        (|| (r.requests[|r.requests| - 1].TokenRequest? && !r.outcome.error.ApiError?)
         || (r.requests[|r.requests| - 1].ApiRequest? &&
             (r.outcome == Checked(first, onClientError) || r.outcome == Checked(retry, onClientError))))
  {
    var r := CallSpec(email, password, t, pending, now, ep, first, retry, onClientError);
    var e := EnsureSpec(email, password, t, pending, now);
    if e.failure.Some? {
      assert r.requests == e.requests && r.outcome == Err(e.failure.value);
    } else {
      var f := RefreshSpec(email, password, e.tokens, e.pending, now);
      var s := SendAfter(e.tokens, e.pending, ep, first, retry, onClientError, f);
      SendFailureSource(e.tokens, e.pending, ep, first, retry, onClientError, f);
      assert r.requests == e.requests + s.requests && r.outcome == s.outcome;
      assert r.requests[|r.requests| - 1] == s.requests[|s.requests| - 1];
    }
  }

  /** `CallFailureSource` for the request itself, given the refresh result. */
  lemma SendFailureSource<T>(
    t: TokenState, pending: seq<TokenReply>,
    ep: Endpoint, first: Response<T>, retry: Response<T>, onClientError: Cause -> Outcome<T>, f: TokenResult)
    requires |f.requests| > 0 && OnlyTokenRequests(f.requests)
    requires f.failure.Some? ==> !f.failure.value.ApiError?
    ensures
      var s := SendAfter(t, pending, ep, first, retry, onClientError, f);
      && |s.requests| > 0
      && (s.outcome.Err? ==>
          || (s.requests[|s.requests| - 1].TokenRequest? && !s.outcome.error.ApiError?)
          || (s.requests[|s.requests| - 1].ApiRequest? &&
              (s.outcome == Checked(first, onClientError) || s.outcome == Checked(retry, onClientError))))
  {
    var s := SendAfter(t, pending, ep, first, retry, onClientError, f);
    if first.Reply? && first.status == 401 && f.failure.Some? {
      assert s.requests[|s.requests| - 1] == f.requests[|f.requests| - 1];
    }
  }

  /**
   * The services endpoint never fails on its own request: a transport failure or error
   * status yields no services, so a failure can only come from the token endpoint.
   */
  lemma ServicesFailOnlyOnTokens(
    email: string, password: string, t: TokenState, pending: seq<TokenReply>, now: int,
    deviceId: string, first: Response<seq<string>>, retry: Response<seq<string>>)
    ensures
      var r := CallSpec(email, password, t, pending, now, Services(deviceId), first, retry, NoServices);
      r.outcome.Err? ==>
        |r.requests| > 0 && r.requests[|r.requests| - 1].TokenRequest? && !r.outcome.error.ApiError?
  {
    CallFailureSource(email, password, t, pending, now, Services(deviceId), first, retry, NoServices);
  }

  /**
   * Once a token is held, a transport failure or error status on the services request
   * that decides the outcome (the retry after a 401, the first request otherwise) yields
   * an empty list of services instead of an error.
   */
  lemma ServicesFallBackToEmpty(
    email: string, password: string, t: TokenState, pending: seq<TokenReply>, now: int,
    deviceId: string, first: Response<seq<string>>, retry: Response<seq<string>>)
    requires EnsureSpec(email, password, t, pending, now).failure.None?
    ensures
      var r := CallSpec(email, password, t, pending, now, Services(deviceId), first, retry, NoServices);
      !(first.Reply? && first.status == 401) && (first.ConnectionFailure? || first.status >= 400) ==>
        r.outcome == Ok([])
    ensures
      var r := CallSpec(email, password, t, pending, now, Services(deviceId), first, retry, NoServices);
      var e := EnsureSpec(email, password, t, pending, now);
      first.Reply? && first.status == 401 && RefreshSpec(email, password, e.tokens, e.pending, now).failure.None? &&
      (retry.ConnectionFailure? || retry.status >= 400) ==>
        r.outcome == Ok([])
  {
    LastReplyDecides(email, password, t, pending, now, Services(deviceId), first, retry, NoServices);
  }

  /**
   * The open-door endpoint reports every failure of its own request, an error status
   * on the retry included, as `ApiError`; the other endpoints report it as
   * `ConnectionError`.
   */
  lemma TransportFailureMapping<T>(
    email: string, password: string, t: TokenState, pending: seq<TokenReply>, now: int,
    ep: Endpoint, first: Response<T>, retry: Response<T>)
    ensures
      var r := CallSpec(email, password, t, pending, now, ep, first, retry, RaiseApiError);
      r.outcome.Err? && |r.requests| > 0 && r.requests[|r.requests| - 1].ApiRequest? ==> r.outcome.error.ApiError?
    ensures
      var r := CallSpec(email, password, t, pending, now, ep, first, retry, RaiseConnectionError);
      r.outcome.Err? && |r.requests| > 0 && r.requests[|r.requests| - 1].ApiRequest? ==> r.outcome.error.ConnectionError?
  {
    CallFailureSource(email, password, t, pending, now, ep, first, retry, RaiseApiError);
    CallFailureSource(email, password, t, pending, now, ep, first, retry, RaiseConnectionError);
  }
}
