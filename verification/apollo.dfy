/** The decisions of the GraphQL client's link chain (src/config/apollo.ts):
    the headers the auth link attaches, the socket's connection header, which
    transport an operation takes, which errors are handed to the auth-error
    handler and the headers of the retried request. Headers are a map from
    names to values; the link plumbing itself is not modelled. */
module Apollo {
  import opened Base
  import opened Text
  import opened Auth

  type Headers = map<string, string>

  /** The headers the auth link gives an operation. `lookupThrows` stands for
      an exception out of the header lookup. */
  function AuthLink(incoming: Headers, s: Session, exp: Option<int>, nowMs: nat, refresh: Refresh,
                    lookupThrows: bool): (r: Headers)
    ensures s.authenticated && !lookupThrows ==> r == incoming + GetAuthHeaders(s, exp, nowMs, refresh).0
    ensures !s.authenticated || lookupThrows ==> r == incoming[AuthorizationHeader := ""]
    ensures r.Keys == incoming.Keys + {AuthorizationHeader}
    ensures forall k :: k in incoming && k != AuthorizationHeader ==> r[k] == incoming[k]
    ensures !s.authenticated ==> r[AuthorizationHeader] == ""
  {
    if s.authenticated && !lookupThrows then incoming + GetAuthHeaders(s, exp, nowMs, refresh).0
    else incoming[AuthorizationHeader := ""]
  }

  /** The socket's `connectionParams` header. */
  function WsHeaders(token: Option<string>): (r: Headers)
    ensures r.Keys == {AuthorizationHeader}
    ensures Truthy(token) ==> r[AuthorizationHeader] == BearerPrefix + token.value
    ensures !Truthy(token) ==> r[AuthorizationHeader] == ""
  {
    map[AuthorizationHeader := BearerOrEmpty(token)]
  }

  datatype OperationKind = QueryOp | MutationOp | SubscriptionOp
  /** The main definition of an operation's document. */
  datatype Definition = OperationDefinition(operation: OperationKind) | FragmentDefinition

  datatype Transport = Socket | Http

  /** `splitLink`: subscriptions over the socket, everything else over HTTP. */
  function Route(d: Definition): (t: Transport)
    ensures t == Socket <==> d == OperationDefinition(SubscriptionOp)
  {
    if d.OperationDefinition? && d.operation == SubscriptionOp then Socket else Http
  }

  /** The error link's own test, `extensions.code === 'UNAUTHENTICATED' ||
      message.includes('invalid-refresh-token')`. */
  predicate LinkSeesAuthError(e: GqlError) {
    e.code == Some(Unauthenticated) || (e.message.Some? && Contains(e.message.value, InvalidRefreshToken))
  }

  /** The errors of one response that the link hands to `handleAuthError`:
      those it recognises, and only while signed in. `ForwardedToAuthSplits`
      states that they keep the response's order. */
  function ForwardedToAuth(errs: seq<GqlError>, authenticated: bool): (r: seq<GqlError>)
    ensures !authenticated ==> r == []
    ensures forall e :: e in r <==> authenticated && e in errs && LinkSeesAuthError(e)
    ensures |r| <= |errs|
  {
    if !authenticated || |errs| == 0 then []
    else (if LinkSeesAuthError(errs[0]) then [errs[0]] else []) + ForwardedToAuth(errs[1..], authenticated)
  }

  /** Forwarding keeps the response's order: the errors forwarded from a
      response are those forwarded from its first part followed by those
      forwarded from the rest. */
  lemma {:induction false} ForwardedToAuthSplits(a: seq<GqlError>, b: seq<GqlError>, authenticated: bool)
    ensures ForwardedToAuth(a + b, authenticated) == ForwardedToAuth(a, authenticated) + ForwardedToAuth(b, authenticated)
    decreases |a|
  {
    if authenticated && |a| > 0 {
      assert (a + b)[0] == a[0];
      assert (a + b)[1..] == a[1..] + b;
      ForwardedToAuthSplits(a[1..], b, authenticated);
    } else if authenticated {
      assert a + b == b;
    }
  }

  /** The two files agree: every error the link forwards is one
      `handleAuthError` treats as an auth error, so each forwarded error leads
      to exactly one refresh and a retry exactly when that refresh worked. */
  lemma ForwardedErrorsAreAuthErrors(errs: seq<GqlError>, s: Session, refreshOk: bool)
    ensures forall e :: e in ForwardedToAuth(errs, s.authenticated) ==>
      && IsAuthClassified(e)
      && HandleAuthError(s, e, refreshOk).refreshCalls == 1
      && (HandleAuthError(s, e, refreshOk).refreshed <==> refreshOk)
  {
  }

  /** The classifications differ the other way: a bare 401 status is an auth
      error to `handleAuthError` but is never forwarded by the link. */
  lemma StatusOnlyErrorIsNotForwarded(s: Session)
    ensures var e := GqlError(Some("Unauthorized"), None, Some(401));
      IsAuthClassified(e) && ForwardedToAuth([e], s.authenticated) == []
  {
    var e := GqlError(Some("Unauthorized"), None, Some(401));
    assert !Contains("Unauthorized", InvalidRefreshToken) by {
      forall i | 0 <= i <= |"Unauthorized"| ensures !(InvalidRefreshToken <= "Unauthorized"[i..]) {
        assert |"Unauthorized"[i..]| < |InvalidRefreshToken|;
      }
    }
  }

  /** The headers of the retried operation: the old ones with authorization
      replaced by `Bearer ${getAccessToken()}`; a missing token is written out
      as the text "undefined". */
  function RetryHeaders(previous: Headers, token: Option<string>): (r: Headers)
    ensures r.Keys == previous.Keys + {AuthorizationHeader}
    ensures forall k :: k in previous && k != AuthorizationHeader ==> r[k] == previous[k]
    ensures BearerPrefix <= r[AuthorizationHeader]
    ensures token.Some? ==> r[AuthorizationHeader] == BearerPrefix + token.value
  {
    previous[AuthorizationHeader := BearerPrefix + token.GetOr("undefined")]
  }

  /** Whether the link retries after one error of a response, and with which
      headers: only an error the link itself recognises, only while signed
      in, and only when `handleAuthError` then reports a refresh. */
  function Retry(s: Session, e: GqlError, refreshOk: bool, previous: Headers, tokenAfter: Option<string>): (r: Option<Headers>)
    ensures r.Some? <==> s.authenticated && LinkSeesAuthError(e) && refreshOk
    ensures r.Some? <==> ForwardedToAuth([e], s.authenticated) == [e] && HandleAuthError(s, e, refreshOk).refreshed
    ensures r.Some? ==> r.value == RetryHeaders(previous, tokenAfter)
  {
    if s.authenticated && LinkSeesAuthError(e) && HandleAuthError(s, e, refreshOk).refreshed then
      Some(RetryHeaders(previous, tokenAfter))
    else None
  }

  /** The error the link passes over is never retried, although
      `handleAuthError` alone would refresh for it. */
  lemma StatusOnlyErrorIsNotRetried(s: Session, refreshOk: bool, previous: Headers, tokenAfter: Option<string>)
    ensures Retry(s, GqlError(Some("Unauthorized"), None, Some(401)), refreshOk, previous, tokenAfter).None?
  {
    StatusOnlyErrorIsNotForwarded(s);
  }
}
