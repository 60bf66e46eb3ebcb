/**
 * The Zoom server-to-server OAuth token cache
 * (backend/src/services/zoomToken.service.ts): one process-wide slot holding
 * the last access token and the instant it expires. The clock and the HTTP
 * call to the token endpoint are injected: `now` is `Date.now()` sampled at
 * the start of the call, and `fetch` answers the one POST the call may make.
 */
module ZoomToken {
  import opened Common

  /** A cached token is used only while it outlives `now` by more than this. */
  const ExpiryMarginMs := 10000

  const TokenUrl := "https://zoom.us/oauth/token"

  datatype CachedToken = CachedToken(value: string, expiresAt: int)

  /**
   * The POST the cache sends: account id in the query, HTTP Basic credentials
   * `clientId:clientSecret` (their base64 encoding is left to the transport).
   */
  datatype TokenRequest = TokenRequest(url: string, grantType: string, accountId: string, basicCredentials: string)

  /** `access_token` and `expires_in` (seconds) of a successful answer. */
  datatype TokenResponse = TokenResponse(accessToken: string, expiresIn: int)

  type Fetcher = TokenRequest -> Result<TokenResponse, string>

  /** A cached token that is still good at `now`; the comparison is strict. */
  predicate IsFresh(cache: Option<CachedToken>, now: int) {
    cache.Some? && cache.value.expiresAt > now + ExpiryMarginMs
  }

  /**
   * The request built from the three S2S variables, read in the order
   * ZOOM_ACCOUNT_ID, ZOOM_S2S_CLIENT_ID, ZOOM_S2S_CLIENT_SECRET: the first
   * missing one is the error.
   */
  function BuildRequest(env: Env): (r: Result<TokenRequest, string>)
    ensures MustEnv(env, "ZOOM_ACCOUNT_ID").Err? ==> r == Err(MissingEnv("ZOOM_ACCOUNT_ID"))
    ensures MustEnv(env, "ZOOM_ACCOUNT_ID").Ok? && MustEnv(env, "ZOOM_S2S_CLIENT_ID").Err?
            ==> r == Err(MissingEnv("ZOOM_S2S_CLIENT_ID"))
    ensures MustEnv(env, "ZOOM_ACCOUNT_ID").Ok? && MustEnv(env, "ZOOM_S2S_CLIENT_ID").Ok?
            && MustEnv(env, "ZOOM_S2S_CLIENT_SECRET").Err?
            ==> r == Err(MissingEnv("ZOOM_S2S_CLIENT_SECRET"))
    ensures r.Ok? ==> (r.value.accountId == env["ZOOM_ACCOUNT_ID"]
                       && r.value.basicCredentials == env["ZOOM_S2S_CLIENT_ID"] + ":" + env["ZOOM_S2S_CLIENT_SECRET"]
                       && r.value.url == TokenUrl && r.value.grantType == "account_credentials")
  {
    match MustEnv(env, "ZOOM_ACCOUNT_ID")
    case Err(e) => Err(e)
    case Ok(accountId) =>
      match MustEnv(env, "ZOOM_S2S_CLIENT_ID")
      case Err(e) => Err(e)
      case Ok(clientId) =>
        match MustEnv(env, "ZOOM_S2S_CLIENT_SECRET")
        case Err(e) => Err(e)
        case Ok(clientSecret) =>
          Ok(TokenRequest(TokenUrl, "account_credentials", accountId, clientId + ":" + clientSecret))
  }

  /** What one call of `getZoomS2SToken` leaves in the slot, returns, and sends. */
  datatype Step = Step(cache: Option<CachedToken>, result: Result<string, string>, sent: Option<TokenRequest>)

  function GetTokenStep(cache: Option<CachedToken>, now: int, env: Env, fetch: Fetcher): (s: Step)
    // a fresh token is returned as it is: nothing is read from env, nothing is sent
    ensures IsFresh(cache, now) ==> s == Step(cache, Ok(cache.value.value), None)
    // otherwise a missing variable throws before any request, slot untouched
    ensures !IsFresh(cache, now) && BuildRequest(env).Err?
            ==> s == Step(cache, Err(BuildRequest(env).error), None)
    // otherwise exactly one request is sent; a failed one leaves the slot alone
    ensures !IsFresh(cache, now) && BuildRequest(env).Ok? ==> s.sent == Some(BuildRequest(env).value)
    ensures s.sent.Some? && fetch(s.sent.value).Err?
            ==> s.cache == cache && s.result == Err(fetch(s.sent.value).error)
    // and a successful one is cached with expiry now + expires_in seconds and returned
    ensures s.sent.Some? && fetch(s.sent.value).Ok?
            ==> var t := fetch(s.sent.value).value;
                s.cache == Some(CachedToken(t.accessToken, now + t.expiresIn * 1000))
                && s.result == Ok(t.accessToken)
  {
    if IsFresh(cache, now) then Step(cache, Ok(cache.value.value), None)
    else
      match BuildRequest(env)
      case Err(e) => Step(cache, Err(e), None)
      case Ok(req) =>
        match fetch(req)
        case Err(e) => Step(cache, Err(e), Some(req))
        case Ok(t) => Step(Some(CachedToken(t.accessToken, now + t.expiresIn * 1000)), Ok(t.accessToken), Some(req))
  }

  /** A call returns the cached value with no request exactly when the slot is fresh. */
  lemma HitIffFresh(cache: Option<CachedToken>, now: int, env: Env, fetch: Fetcher)
    requires BuildRequest(env).Ok?
    ensures GetTokenStep(cache, now, env, fetch).sent.None? <==> IsFresh(cache, now)
  {
  }

  /** Calls made one after another; the slot after them and how many requests they sent. */
  function RunCalls(cache: Option<CachedToken>, times: seq<int>, env: Env, fetch: Fetcher): (r: (Option<CachedToken>, nat))
    ensures r.1 <= |times|
    decreases |times|
  {
    if times == [] then (cache, 0)
    else
      var s := GetTokenStep(cache, times[0], env, fetch);
      var rest := RunCalls(s.cache, times[1..], env, fetch);
      (rest.0, rest.1 + (if s.sent.Some? then 1 else 0))
  }

  /**
   * After a refresh, every later call whose clock is still more than the margin
   * before the new expiry is served from the cache: no further request.
   */
  lemma {:induction false} NoRequestWithinWindow(cache: Option<CachedToken>, times: seq<int>, env: Env, fetch: Fetcher)
    requires forall i :: 0 <= i < |times| ==> IsFresh(cache, times[i])
    ensures RunCalls(cache, times, env, fetch) == (cache, 0)
  {
    if times != [] {
      NoRequestWithinWindow(cache, times[1..], env, fetch);
    }
  }

  /**
   * A first call on a stale slot followed by calls inside the new token's
   * window sends exactly one request.
   */
  lemma {:induction false} OneRefreshPerWindow(cache: Option<CachedToken>, t0: int, later: seq<int>, env: Env, fetch: Fetcher)
    requires !IsFresh(cache, t0) && BuildRequest(env).Ok?
    requires fetch(BuildRequest(env).value).Ok?
    requires var t := fetch(BuildRequest(env).value).value;
             forall i :: 0 <= i < |later| ==> t0 + t.expiresIn * 1000 > later[i] + ExpiryMarginMs
    ensures RunCalls(cache, [t0] + later, env, fetch).1 == 1
  {
    var s := GetTokenStep(cache, t0, env, fetch);
    assert ([t0] + later)[1..] == later;
    NoRequestWithinWindow(s.cache, later, env, fetch);
  }

  /** The process-wide slot `cachedToken`. */
  class TokenCache {
    var cached: Option<CachedToken>

    constructor()
      ensures cached == None
    {
      cached := None;
    }

    method GetZoomS2SToken(now: int, env: Env, fetch: Fetcher) returns (r: Result<string, string>, sent: Option<TokenRequest>)
      modifies this
      ensures GetTokenStep(old(cached), now, env, fetch) == Step(cached, r, sent)
    {
      if cached.Some? && cached.value.expiresAt > now + ExpiryMarginMs {
        return Ok(cached.value.value), None;
      }
      var accountId := MustEnv(env, "ZOOM_ACCOUNT_ID");
      if accountId.Err? { return Err(accountId.error), None; }
      var clientId := MustEnv(env, "ZOOM_S2S_CLIENT_ID");
      if clientId.Err? { return Err(clientId.error), None; }
      var clientSecret := MustEnv(env, "ZOOM_S2S_CLIENT_SECRET");
      if clientSecret.Err? { return Err(clientSecret.error), None; }
      var req := TokenRequest(TokenUrl, "account_credentials", accountId.value, clientId.value + ":" + clientSecret.value);
      sent := Some(req);
      var resp := fetch(req);
      if resp.Err? { return Err(resp.error), sent; }
      cached := Some(CachedToken(resp.value.accessToken, now + resp.value.expiresIn * 1000));
      r := Ok(resp.value.accessToken);
    }
  }
}
