/**
 * The Fermax cloud API client. `FermaxClient` keeps the token fields and updates them in
 * place; each of its methods is proved to do exactly what the matching function of
 * `TokenSession` specifies. The retry helper and the log sanitizer use no client state.
 */
module FermaxApi {
  import opened Wrappers
  import opened Payloads
  import opened TokenSession

  /** How many times `RetryWithBackoff` calls the operation at most. */
  const MAX_RETRIES: nat := 3
  /** Seconds slept after the first failed attempt; each later sleep doubles it. */
  const INITIAL_RETRY_DELAY: nat := 1

  const REDACTED: string := "***REDACTED***"
  const SENSITIVE_KEYS: seq<string> := ["password", "access_token", "refresh_token", "Authorization"]

  function Pow2(k: nat): (r: nat)
    ensures r >= 1
  {
    if k == 0 then 1 else 2 * Pow2(k - 1)
  }

  /** The errors `_retry_with_backoff` retries; every other error propagates at once. */
  predicate Retryable(e: Error) {
    e.ConnectionError? || e.ApiError?
  }

  /**
   * `_retry_with_backoff`: `op(k)` is what the operation yields on its k-th call, and
   * `delays` the sleeps in between. The operation is called at most `MAX_RETRIES` times;
   * after a retryable failure of call k that is not the last it sleeps `1 * 2^k` seconds
   * (so 1, then 2); it stops at the first success or non-retryable error, and the last
   * call's outcome, a retryable error included, is what it returns.
   */
  method RetryWithBackoff<T>(op: nat -> Outcome<T>) returns (result: Outcome<T>, delays: seq<nat>)
    ensures |delays| < MAX_RETRIES
    ensures result == op(|delays|)
    ensures forall k :: 0 <= k < |delays| ==>
      delays[k] == INITIAL_RETRY_DELAY * Pow2(k) && op(k).Err? && Retryable(op(k).error)
    ensures |delays| < MAX_RETRIES - 1 ==> !(result.Err? && Retryable(result.error))
    ensures delays <= [1, 2]
  {
    var attempt := 0;
    delays := [];
    result := op(attempt);
    while result.Err? && Retryable(result.error) && attempt != MAX_RETRIES - 1
      invariant 0 <= attempt < MAX_RETRIES
      invariant |delays| == attempt && result == op(attempt)
      invariant forall k :: 0 <= k < attempt ==>
        delays[k] == INITIAL_RETRY_DELAY * Pow2(k) && op(k).Err? && Retryable(op(k).error)
      decreases MAX_RETRIES - attempt
    {
      delays := delays + [INITIAL_RETRY_DELAY * Pow2(attempt)];
      attempt := attempt + 1;
      result := op(attempt);
    }
  }

  /**
   * `_sanitize_log_data`: a copy of `data` in which exactly the sensitive keys that are
   * present are replaced by the redaction marker; every other entry is unchanged.
   */
  method SanitizeLogData(data: map<string, Json>) returns (sanitized: map<string, Json>)
    ensures sanitized.Keys == data.Keys
    ensures forall k :: k in sanitized ==>
      sanitized[k] == if k in SENSITIVE_KEYS then JString(REDACTED) else data[k]
  {
    sanitized := data;
    for i := 0 to |SENSITIVE_KEYS|
      invariant sanitized.Keys == data.Keys
      invariant forall k :: k in sanitized ==>
        sanitized[k] == if k in SENSITIVE_KEYS[..i] then JString(REDACTED) else data[k]
    {
      var key := SENSITIVE_KEYS[i];
      if key in sanitized {
        sanitized := sanitized[key := JString(REDACTED)];
      }
    }
  }

  class FermaxClient {
    const email: string
    const password: string
    var accessToken: Option<string>
    var refreshToken: Option<string>
    var expiresAt: int
    /** The replies the token endpoint will give, in order. */
    var oauthReplies: seq<TokenReply>
    /** Every request this client has put on the wire, in order. */
    var requests: seq<Request>

    function Tokens(): TokenState
      reads this
    {
      TokenState(accessToken, refreshToken, expiresAt)
    }

    constructor (email: string, password: string, oauthReplies: seq<TokenReply>)
      ensures this.email == email && this.password == password
      ensures Tokens() == NO_TOKENS && this.oauthReplies == oauthReplies && requests == []
    {
      this.email := email;
      this.password := password;
      accessToken := None;
      refreshToken := None;
      expiresAt := 0;
      this.oauthReplies := oauthReplies;
      requests := [];
    }

    /** One POST to the token endpoint. */
    method PostToken(grant: Grant) returns (reply: TokenReply)
      modifies this`oauthReplies, this`requests
      ensures reply == NextReply(old(oauthReplies)) && oauthReplies == Consume(old(oauthReplies))
      ensures requests == old(requests) + [TokenRequest(grant)]
    {
      requests := requests + [TokenRequest(grant)];
      if oauthReplies == [] {
        reply := ConnectionFailure;
      } else {
        reply := oauthReplies[0];
        oauthReplies := oauthReplies[1..];
      }
    }

    /** The field writes that follow a 200 reply from the token endpoint. */
    method WriteGrant(body: TokenBody, now: int, isLogin: bool) returns (failure: Option<Error>)
      modifies this`accessToken, this`refreshToken, this`expiresAt
      ensures var s := StoreGrant(old(Tokens()), body, now, isLogin);
        Tokens() == s.tokens && failure == s.failure
    {
      if body.accessToken.Missing? {
        return Some(Malformed("access_token"));
      }
      accessToken := FieldValue(body.accessToken);
      if isLogin || !body.refreshToken.Missing? {
        refreshToken := FieldValue(body.refreshToken);
      }
      var lifetime := Lifetime(body);
      if lifetime.None? {
        return Some(Malformed("expires_in"));
      }
      expiresAt := now + lifetime.value - TOKEN_MARGIN;
      failure := None;
    }

    /** `async_login`. */
    method AsyncLogin(now: int) returns (failure: Option<Error>)
      modifies this
      ensures var r := LoginSpec(email, password, old(Tokens()), old(oauthReplies), now);
        Tokens() == r.tokens && failure == r.failure &&
        requests == old(requests) + r.requests && oauthReplies == r.pending
    {
      var reply := PostToken(PasswordGrant(email, password));
      if reply.ConnectionFailure? {
        return Some(ConnectionError(Network));
      }
      if reply.status != 200 {
        return Some(AuthError(reply.text));
      }
      failure := WriteGrant(reply.body, now, true);
    }

    /** `async_refresh_token`. */
    method AsyncRefreshToken(now: int) returns (failure: Option<Error>)
      modifies this
      ensures var r := RefreshSpec(email, password, old(Tokens()), old(oauthReplies), now);
        Tokens() == r.tokens && failure == r.failure &&
        requests == old(requests) + r.requests && oauthReplies == r.pending
    {
      if !IsSet(refreshToken) {
        failure := AsyncLogin(now);
        return;
      }
      var reply := PostToken(RefreshGrant(refreshToken.value));
      if reply.ConnectionFailure? || reply.status != 200 {
        failure := AsyncLogin(now);
        return;
      }
      failure := WriteGrant(reply.body, now, false);
    }

    /** `_ensure_token`; the lock it holds is not modelled, its section runs sequentially. */
    method EnsureToken(now: int) returns (failure: Option<Error>)
      modifies this
      ensures var r := EnsureSpec(email, password, old(Tokens()), old(oauthReplies), now);
        Tokens() == r.tokens && failure == r.failure &&
        requests == old(requests) + r.requests && oauthReplies == r.pending
    {
      failure := None;
      if NeedsRefresh(Tokens(), now) {
        failure := AsyncRefreshToken(now);
      }
    }

    /**
     * The pattern every endpoint follows: `first` is the reply to the request, `retry`
     * the reply to the repeated request, used only after a 401.
     */
    method Call<T>(ep: Endpoint, now: int, first: Response<T>, retry: Response<T>, onClientError: Cause -> Outcome<T>)
      returns (outcome: Outcome<T>)
      modifies this
      ensures var r := CallSpec(email, password, old(Tokens()), old(oauthReplies), now, ep, first, retry, onClientError);
        Tokens() == r.tokens && outcome == r.outcome &&
        requests == old(requests) + r.requests && oauthReplies == r.pending
    {
      ghost var sent := requests;
      ghost var c := CallSpec(email, password, Tokens(), oauthReplies, now, ep, first, retry, onClientError);
      ghost var e := EnsureSpec(email, password, Tokens(), oauthReplies, now);
      var failure := EnsureToken(now);
      assert Tokens() == e.tokens && oauthReplies == e.pending && requests == sent + e.requests && failure == e.failure;
      if failure.Some? {
        assert c == CallResult(e.tokens, Err(e.failure.value), e.requests, e.pending);
        return Err(failure.value);
      }
      ghost var s := SendSpec(email, password, e.tokens, e.pending, now, ep, first, retry, onClientError);
      assert c == s.(requests := e.requests + s.requests);
      outcome := Send(ep, now, first, retry, onClientError);
      assert requests == sent + (e.requests + s.requests);
    }

    /** The request itself, once a token is held, with its single retry after a 401. */
    method Send<T>(ep: Endpoint, now: int, first: Response<T>, retry: Response<T>, onClientError: Cause -> Outcome<T>)
      returns (outcome: Outcome<T>)
      modifies this
      ensures var r := SendSpec(email, password, old(Tokens()), old(oauthReplies), now, ep, first, retry, onClientError);
        Tokens() == r.tokens && outcome == r.outcome &&
        requests == old(requests) + r.requests && oauthReplies == r.pending
    {
      ghost var sent := requests;
      ghost var f := RefreshSpec(email, password, Tokens(), oauthReplies, now);
      var x := ApiRequest(ep, accessToken);
      requests := requests + [x];
      if first.Reply? && first.status == 401 {
        var failure := AsyncRefreshToken(now);
        assert requests == sent + ([x] + f.requests);
        if failure.Some? {
          return Err(failure.value);
        }
        var y := ApiRequest(ep, accessToken);
        requests := requests + [y];
        assert requests == sent + ([x] + f.requests + [y]);
        outcome := Checked(retry, onClientError);
      } else {
        outcome := Checked(first, onClientError);
      }
    }

    /** `async_get_pairings`. */
    method AsyncGetPairings(now: int, first: Response<seq<Pairing>>, retry: Response<seq<Pairing>>)
      returns (outcome: Outcome<seq<Pairing>>)
      modifies this
      ensures var r := CallSpec(email, password, old(Tokens()), old(oauthReplies), now, Pairings, first, retry, RaiseConnectionError);
        Tokens() == r.tokens && outcome == r.outcome &&
        requests == old(requests) + r.requests && oauthReplies == r.pending
    {
      outcome := Call(Pairings, now, first, retry, RaiseConnectionError);
    }

    /** `async_get_device`. */
    method AsyncGetDevice(deviceId: string, now: int, first: Response<Json>, retry: Response<Json>)
      returns (outcome: Outcome<Json>)
      modifies this
      ensures var r := CallSpec(email, password, old(Tokens()), old(oauthReplies), now, Device(deviceId), first, retry, RaiseConnectionError);
        Tokens() == r.tokens && outcome == r.outcome &&
        requests == old(requests) + r.requests && oauthReplies == r.pending
    {
      outcome := Call(Device(deviceId), now, first, retry, RaiseConnectionError);
    }

    /** `async_get_services`. */
    method AsyncGetServices(deviceId: string, now: int, first: Response<seq<string>>, retry: Response<seq<string>>)
      returns (outcome: Outcome<seq<string>>)
      modifies this
      ensures var r := CallSpec(email, password, old(Tokens()), old(oauthReplies), now, Services(deviceId), first, retry, NoServices);
        Tokens() == r.tokens && outcome == r.outcome &&
        requests == old(requests) + r.requests && oauthReplies == r.pending
    {
      outcome := Call(Services(deviceId), now, first, retry, NoServices);
    }

    /** `async_get_user_info`. */
    method AsyncGetUserInfo(now: int, first: Response<Json>, retry: Response<Json>)
      returns (outcome: Outcome<Json>)
      modifies this
      ensures var r := CallSpec(email, password, old(Tokens()), old(oauthReplies), now, UserInfo, first, retry, RaiseConnectionError);
        Tokens() == r.tokens && outcome == r.outcome &&
        requests == old(requests) + r.requests && oauthReplies == r.pending
    {
      outcome := Call(UserInfo, now, first, retry, RaiseConnectionError);
    }

    /** `async_open_door`: the reply text is the result. */
    method AsyncOpenDoor(deviceId: string, block: int, subblock: int, number: int, now: int,
                         first: Response<string>, retry: Response<string>)
      returns (outcome: Outcome<string>)
      modifies this
      ensures var r := CallSpec(email, password, old(Tokens()), old(oauthReplies), now,
                                DirectedOpenDoor(deviceId, block, subblock, number), first, retry, RaiseApiError);
        Tokens() == r.tokens && outcome == r.outcome &&
        requests == old(requests) + r.requests && oauthReplies == r.pending
    {
      outcome := Call(DirectedOpenDoor(deviceId, block, subblock, number), now, first, retry, RaiseApiError);
    }
  }
}
