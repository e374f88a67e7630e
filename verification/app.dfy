/** The application shell (src/App.tsx): which screen a path shows given the
    authentication status, and when the background token refresh fires. */
module App {
  import opened Base
  import opened Text

  const DefaultBaseUrl: string := "https://chatbotwithn8n.netlify.app"

  /** `getBaseUrl`: the configured application URL, when set and non-empty. */
  function BaseUrl(configured: Option<string>): (r: string)
    ensures Truthy(configured) ==> r == configured.value
    ensures !Truthy(configured) ==> r == DefaultBaseUrl
  {
    OrElse(configured, DefaultBaseUrl)
  }

  datatype Screen =
    | LoadingScreen
    | DashboardPage
    | AuthFormPage
    | EmailVerificationPage
    | Redirect(to: string)
    | NoMatch

  const DashboardPath: string := "/dashboard"
  const AuthPath: string := "/auth"
  const VerifyEmailPath: string := "/verify-email"
  const RootPath: string := "/"

  /** The path without its trailing slashes. */
  function TrimTrailingSlashes(s: string): (r: string)
    ensures r <= s
    ensures r == [] || r[|r| - 1] != '/'
    ensures forall k :: |r| <= k < |s| ==> s[k] == '/'
    decreases |s|
  {
    if |s| > 0 && s[|s| - 1] == '/' then TrimTrailingSlashes(s[..|s| - 1]) else s
  }

  /** Letters folded to lower case, as the router's case-insensitive match
      compares them; nothing outside A-Z is folded onto ASCII by it. */
  function FoldCase(s: string): (r: string)
    ensures |r| == |s|
    ensures forall k :: 0 <= k < |s| ==> r[k] == LowerAscii(s[k])
  {
    seq(|s|, k requires 0 <= k < |s| => LowerAscii(s[k]))
  }

  /** The form of a path the route table compares: each pattern matches a
      path that is the pattern, in any letter case, followed by any number of
      slashes; the root pattern thus matches every non-empty run of slashes.
      The key is the case-folded path up to its trailing slashes, keeping one
      slash when there is nothing else. */
  function RouteKey(path: string): (key: string)
    ensures |key| <= |path| && key == FoldCase(path[..|key|])
    ensures forall k :: |key| <= k < |path| ==> path[k] == '/'
    ensures key == [] <==> path == []
    ensures key == [] || key == RootPath || key[|key| - 1] != '/'
  {
    var t := TrimTrailingSlashes(path);
    if t == [] && path != [] then
      assert path[..1] == RootPath;
      FoldCase(RootPath)
    else
      assert path[..|t|] == t;
      FoldCase(t)
  }

  /** A route constant is its own key. */
  lemma PatternIsItsOwnKey(pattern: string)
    requires pattern in {DashboardPath, AuthPath, VerifyEmailPath, RootPath}
    ensures RouteKey(pattern) == pattern
  {
    if pattern == RootPath {
      assert pattern[..0] == [];
    } else {
      assert pattern[|pattern| - 1] != '/';
    }
    assert forall k :: 0 <= k < |pattern| ==> LowerAscii(pattern[k]) == pattern[k];
  }

  /** The route table behind the loading guard. */
  function Route(path: string, isLoading: bool, isAuthenticated: bool, base: string): (r: Screen)
    ensures isLoading ==> r == LoadingScreen
    ensures r == DashboardPage <==> !isLoading && isAuthenticated && RouteKey(path) == DashboardPath
    ensures r == AuthFormPage <==> !isLoading && !isAuthenticated && RouteKey(path) == AuthPath
    ensures r == EmailVerificationPage <==> !isLoading && !isAuthenticated && RouteKey(path) == VerifyEmailPath
    ensures r.Redirect? ==> r.to == base + (if isAuthenticated then DashboardPath else AuthPath)
    ensures !isLoading && RouteKey(path) == RootPath ==> r.Redirect?
    ensures r.Redirect? <==> !isLoading && (RouteKey(path) == RootPath || (RouteKey(path) == DashboardPath && !isAuthenticated) || (RouteKey(path) in {AuthPath, VerifyEmailPath} && isAuthenticated))
    ensures r == NoMatch <==> !isLoading && RouteKey(path) !in {DashboardPath, AuthPath, VerifyEmailPath, RootPath}
  {
    var key := RouteKey(path);
    if isLoading then LoadingScreen
    else if key == VerifyEmailPath then
      if isAuthenticated then Redirect(base + DashboardPath) else EmailVerificationPage
    else if key == DashboardPath then
      if isAuthenticated then DashboardPage else Redirect(base + AuthPath)
    else if key == AuthPath then
      if isAuthenticated then Redirect(base + DashboardPath) else AuthFormPage
    else if key == RootPath then
      if isAuthenticated then Redirect(base + DashboardPath) else Redirect(base + AuthPath)
    else NoMatch
  }

  function Slashes(n: nat): (r: string)
    ensures |r| == n && forall k :: 0 <= k < n ==> r[k] == '/'
  {
    seq(n, _ => '/')
  }

  /** Trailing slashes after a non-empty path do not change the screen. */
  lemma {:induction false} TrailingSlashesIgnored(path: string, n: nat, isLoading: bool, isAuthenticated: bool, base: string)
    requires path != ""
    ensures Route(path + Slashes(n), isLoading, isAuthenticated, base) == Route(path, isLoading, isAuthenticated, base)
  {
    TrimAfterSlashes(path, n);
  }

  lemma {:induction false} TrimAfterSlashes(path: string, n: nat)
    ensures TrimTrailingSlashes(path + Slashes(n)) == TrimTrailingSlashes(path)
    decreases n
  {
    if n > 0 {
      var s := path + Slashes(n);
      assert s[|s| - 1] == '/';
      assert s[..|s| - 1] == path + Slashes(n - 1);
      TrimAfterSlashes(path, n - 1);
    } else {
      assert path + Slashes(0) == path;
    }
  }

  /** The match ignores letter case and trailing slashes. */
  lemma MixedCaseDashboard(base: string)
    ensures Route("/DashBoard//", false, true, base) == DashboardPage
  {
    var path := "/DashBoard//";
    assert TrimTrailingSlashes(path) == "/DashBoard" by {
      assert path[..|path| - 1] == "/DashBoard/";
      assert path[..|path| - 1][..|path| - 2] == "/DashBoard";
    }
    assert FoldCase("/DashBoard") == DashboardPath;
  }

  /** No path shows the dashboard to a signed-out user, or a sign-in or
      verification screen to a signed-in one. */
  lemma ScreensMatchAuthState(path: string, isLoading: bool, isAuthenticated: bool, base: string)
    ensures var r := Route(path, isLoading, isAuthenticated, base);
      && (!isAuthenticated ==> r != DashboardPage)
      && (isAuthenticated ==> r != AuthFormPage && r != EmailVerificationPage)
  {
  }

  /** A redirect goes to the base followed by /dashboard or /auth. With an
      empty base, following it reaches a page in one step: the dashboard when
      signed in, the sign-in form otherwise. */
  lemma RedirectsSettle(path: string, isAuthenticated: bool, base: string)
    requires Route(path, false, isAuthenticated, base).Redirect?
    ensures var target := if isAuthenticated then DashboardPath else AuthPath;
      && Route(path, false, isAuthenticated, base).to == base + target
      && (base == "" ==>
            Route(Route(path, false, isAuthenticated, base).to, false, isAuthenticated, base)
              == (if isAuthenticated then DashboardPage else AuthFormPage))
  {
    PatternIsItsOwnKey(DashboardPath);
    PatternIsItsOwnKey(AuthPath);
    assert "" + DashboardPath == DashboardPath;
    assert "" + AuthPath == AuthPath;
  }

  /** Read as a path, a target that does not begin with "/" (an absolute URL
      such as the default base followed by /dashboard) matches no route. */
  lemma UnrootedTargetMatchesNothing(target: string, isAuthenticated: bool, base: string)
    requires target != "" && target[0] != '/'
    ensures Route(target, false, isAuthenticated, base) == NoMatch
  {
    var key := RouteKey(target);
    assert key[0] == LowerAscii(target[0]);
  }

  /** What the refresh scheduler reacts to: a change of the authentication
      status (re-running the effect), a ten-minute tick, a visibility change.
      `authNow` is the provider's status at the moment of the event. */
  datatype SchedulerEvent =
    | StatusChanged(isAuthenticated: bool)
    | Tick(authNow: bool)
    | VisibilityChanged(hidden: bool, authNow: bool)

  /** Whether the event, with the scheduler installed or not, calls
      `refreshTokenIfNeeded`. */
  predicate Fires(installed: bool, e: SchedulerEvent) {
    match e
    case StatusChanged(_) => false
    case Tick(authNow) => installed && authNow
    case VisibilityChanged(hidden, authNow) => installed && !hidden && authNow
  }

  /** The effect is installed while the last reported status is signed in. */
  function NextInstalled(installed: bool, e: SchedulerEvent): bool {
    if e.StatusChanged? then e.isAuthenticated else installed
  }

  /** For each event in turn, whether it refreshed the token. */
  function Refreshes(installed: bool, events: seq<SchedulerEvent>): (r: seq<bool>)
    ensures |r| == |events|
    decreases |events|
  {
    if |events| == 0 then []
    else [Fires(installed, events[0])] + Refreshes(NextInstalled(installed, events[0]), events[1..])
  }

  /** The status the effect last saw: the latest status change, or the
      status at mount. */
  function LastStatus(initial: bool, events: seq<SchedulerEvent>): bool {
    if |events| == 0 then initial
    else if events[|events| - 1].StatusChanged? then events[|events| - 1].isAuthenticated
    else LastStatus(initial, events[..|events| - 1])
  }

  lemma {:induction false} LastStatusCons(initial: bool, e: SchedulerEvent, rest: seq<SchedulerEvent>)
    ensures LastStatus(initial, [e] + rest) == LastStatus(NextInstalled(initial, e), rest)
    decreases |rest|
  {
    if |rest| > 0 {
      assert ([e] + rest)[..|[e] + rest| - 1] == [e] + rest[..|rest| - 1];
      LastStatusCons(initial, e, rest[..|rest| - 1]);
    }
  }

  /** A token refresh happens exactly at ticks and visible-tab events where the
      provider says signed in and the last status change said signed in. */
  lemma {:induction false} RefreshOnlyWhileSignedIn(initial: bool, events: seq<SchedulerEvent>, i: nat)
    requires i < |events|
    ensures Refreshes(initial, events)[i] <==>
      && LastStatus(initial, events[..i])
      && (events[i] == Tick(true) || events[i] == VisibilityChanged(false, true))
    decreases i
  {
    if i == 0 {
      assert events[..0] == [];
    } else {
      RefreshOnlyWhileSignedIn(NextInstalled(initial, events[0]), events[1..], i - 1);
      assert events[..i] == [events[0]] + events[1..][..i - 1];
      LastStatusCons(initial, events[0], events[1..][..i - 1]);
    }
  }
}
