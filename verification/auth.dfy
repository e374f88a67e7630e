/** Token freshness and auth-error handling (src/utils/auth.ts). The auth
    provider is reduced to a session record and to the outcomes of its calls,
    passed in as parameters: the access token's decoded expiry (`None` when
    the token cannot be decoded or has no `exp`), the clock in milliseconds,
    and what a session refresh did. */
module Auth {
  import opened Base
  import opened Text

  datatype Session = Session(authenticated: bool, token: Option<string>)

  /** The outcome of `refreshSession` followed by `getAccessToken`: the token
      afterwards, or an exception. */
  datatype Refresh = Refreshed(token: Option<string>) | RefreshFailed

  /** A token, and how many times the session was refreshed to obtain it. */
  datatype TokenResult = TokenResult(token: Option<string>, refreshCalls: nat)

  /** Seconds before expiry below which a token is refreshed. */
  const RefreshMargin: int := 300

  /** `Math.floor(Date.now() / 1000)`. */
  function NowSeconds(nowMs: nat): nat {
    nowMs / 1000
  }

  /** `payload.exp && payload.exp - currentTime < 300`: a zero expiry is falsy. */
  predicate NearExpiry(exp: Option<int>, nowMs: nat) {
    exp.Some? && exp.value != 0 && exp.value - NowSeconds(nowMs) < RefreshMargin
  }

  /** `refreshTokenIfNeeded`. */
  function RefreshTokenIfNeeded(s: Session, exp: Option<int>, nowMs: nat, refresh: Refresh): (r: TokenResult)
    ensures !s.authenticated ==> r == TokenResult(None, 0)
    ensures s.authenticated && Truthy(s.token) && !NearExpiry(exp, nowMs) ==> r == TokenResult(s.token, 0)
    ensures s.authenticated && (!Truthy(s.token) || NearExpiry(exp, nowMs)) ==>
      && r.refreshCalls == 1
      && (refresh.Refreshed? ==> r.token == refresh.token)
      && (refresh.RefreshFailed? ==> r.token == s.token)
    ensures r.refreshCalls <= 1
  {
    if !s.authenticated then TokenResult(None, 0)
    else if Truthy(s.token) then
      if exp.Some? && exp.value != 0 && exp.value - nowMs / 1000 < RefreshMargin then
        match refresh
        case Refreshed(t) => TokenResult(t, 1)
        case RefreshFailed => TokenResult(s.token, 1)
      else TokenResult(s.token, 0)
    else
      match refresh
      case Refreshed(t) => TokenResult(t, 1)
      case RefreshFailed => TokenResult(s.token, 1)
  }

  /** `isTokenExpired`: the expiry is at or before now; a missing, zero or
      undecodable expiry counts as expired. */
  predicate TokenExpired(exp: Option<int>, nowMs: nat): (r: bool)
    ensures exp.None? || exp.value == 0 ==> r
    ensures exp.Some? && exp.value != 0 ==> (r <==> exp.value * 1000 <= nowMs)
    ensures r && exp.Some? && exp.value != 0 ==> NearExpiry(exp, nowMs)
  {
    exp.None? || exp.value == 0 || exp.value <= NowSeconds(nowMs)
  }

  /** Freshness and expiry agree: a token that is kept without a refresh is
      not expired and has at least five more minutes; an expired token with a
      readable expiry is always refreshed. */
  lemma KeptTokenIsFresh(s: Session, exp: Option<int>, nowMs: nat, refresh: Refresh)
    requires s.authenticated && Truthy(s.token) && exp.Some? && exp.value != 0
    ensures RefreshTokenIfNeeded(s, exp, nowMs, refresh).refreshCalls == 0 ==>
      !TokenExpired(exp, nowMs) && exp.value - NowSeconds(nowMs) >= RefreshMargin
    ensures TokenExpired(exp, nowMs) ==> RefreshTokenIfNeeded(s, exp, nowMs, refresh).refreshCalls == 1
  {
  }

  /** A GraphQL or network error as `handleAuthError` inspects it:
      `error.message`, `error.extensions.code`, `error.status`. */
  datatype GqlError = GqlError(message: Option<string>, code: Option<string>, status: Option<int>)

  const InvalidRefreshToken: string := "invalid-refresh-token"
  const Unauthenticated: string := "UNAUTHENTICATED"

  /** The three signs of an auth error `handleAuthError` accepts. */
  predicate IsAuthClassified(e: GqlError) {
    || (e.message.Some? && Contains(e.message.value, InvalidRefreshToken))
    || e.code == Some(Unauthenticated)
    || e.status == Some(401)
  }

  /** The result of `handleAuthError`, with the provider calls it made. */
  datatype AuthErrorResult = AuthErrorResult(refreshed: bool, refreshCalls: nat, signedOut: bool)

  /** `handleAuthError`: while signed in, an auth error triggers one refresh;
      a failed refresh signs the user out. `refreshOk` says whether the
      refresh call returned normally. */
  function HandleAuthError(s: Session, e: GqlError, refreshOk: bool): (r: AuthErrorResult)
    ensures !s.authenticated || !IsAuthClassified(e) ==> r == AuthErrorResult(false, 0, false)
    ensures s.authenticated && IsAuthClassified(e) ==> r.refreshCalls == 1
    ensures r.refreshed <==> s.authenticated && IsAuthClassified(e) && refreshOk
    ensures r.signedOut <==> s.authenticated && IsAuthClassified(e) && !refreshOk
  {
    if !s.authenticated then AuthErrorResult(false, 0, false)
    else if IsAuthClassified(e) then
      if refreshOk then AuthErrorResult(true, 1, false) else AuthErrorResult(false, 1, true)
    else AuthErrorResult(false, 0, false)
  }

  const AuthorizationHeader: string := "authorization"
  const BearerPrefix: string := "Bearer "

  /** `token ? "Bearer " + token : ""`. */
  function BearerOrEmpty(token: Option<string>): (r: string)
    ensures Truthy(token) ==> r == BearerPrefix + token.value
    ensures !Truthy(token) ==> r == ""
  {
    if Truthy(token) then BearerPrefix + token.value else ""
  }

  /** `getAuthHeaders`: exactly one header; empty when signed out, otherwise
      built from the token `refreshTokenIfNeeded` hands back. */
  function GetAuthHeaders(s: Session, exp: Option<int>, nowMs: nat, refresh: Refresh): (r: (map<string, string>, nat))
    ensures r.0.Keys == {AuthorizationHeader}
    ensures !s.authenticated ==> r.0[AuthorizationHeader] == "" && r.1 == 0
    ensures s.authenticated ==> r.1 == RefreshTokenIfNeeded(s, exp, nowMs, refresh).refreshCalls
    ensures r.0[AuthorizationHeader] != "" <==> s.authenticated && Truthy(RefreshTokenIfNeeded(s, exp, nowMs, refresh).token)
    ensures s.authenticated ==> r.0[AuthorizationHeader] == BearerOrEmpty(RefreshTokenIfNeeded(s, exp, nowMs, refresh).token)
  {
    if !s.authenticated then (map[AuthorizationHeader := ""], 0)
    else
      var t := RefreshTokenIfNeeded(s, exp, nowMs, refresh);
      (map[AuthorizationHeader := BearerOrEmpty(t.token)], t.refreshCalls)
  }

  /** A fresh token needs no refresh and is sent as is. */
  lemma FreshTokenSentAsIs(s: Session, exp: Option<int>, nowMs: nat, refresh: Refresh)
    requires s.authenticated && Truthy(s.token)
    requires exp.Some? && exp.value - NowSeconds(nowMs) >= RefreshMargin
    ensures GetAuthHeaders(s, exp, nowMs, refresh) == (map[AuthorizationHeader := BearerPrefix + s.token.value], 0)
  {
  }
}
