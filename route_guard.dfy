/** The request middleware: decides from the `accessToken` cookie and the full
    request URL whether a navigation passes, or is redirected to the login page
    or to the services page. Every test is a substring test on the whole URL. */
module RouteGuard {
  import opened Common
  import opened Text

  const LoginPath: string := "/login"
  const SignUpPath: string := "/signUp"
  const ServicesPath: string := "/availableServices"

  datatype Decision = Next | RedirectTo(path: string)

  /** `isLoggedSession`: an `accessToken` cookie exists, whatever its value. */
  predicate IsLoggedSession(cookies: CookieJar)
  {
    AccessTokenCookie in cookies
  }

  /** The rule chain, first match wins. */
  function Guard(url: string, loggedIn: bool): (d: Decision)
    ensures d.RedirectTo? ==> d.path == LoginPath || d.path == ServicesPath
  {
    if !loggedIn && Contains(url, "/") && !Contains(url, LoginPath) && Contains(url, ServicesPath) then
      RedirectTo(LoginPath)
    else if loggedIn && Contains(url, LoginPath) then
      RedirectTo(ServicesPath)
    else if loggedIn && Contains(url, SignUpPath) then
      RedirectTo(ServicesPath)
    else
      Next
  }

  /** `middleware(request)`, on the request's URL and cookies. */
  function Middleware(url: string, cookies: CookieJar): (d: Decision)
    ensures d == RedirectTo(LoginPath) <==>
      AccessTokenCookie !in cookies && Contains(url, ServicesPath) && !Contains(url, LoginPath)
    ensures d == RedirectTo(ServicesPath) <==>
      AccessTokenCookie in cookies && (Contains(url, LoginPath) || Contains(url, SignUpPath))
    ensures d == Next <==>
      if AccessTokenCookie in cookies then !Contains(url, LoginPath) && !Contains(url, SignUpPath)
      else !Contains(url, ServicesPath) || Contains(url, LoginPath)
  {
    NoSessionRedirect(url);
    SessionRedirect(url);
    Guard(url, IsLoggedSession(cookies))
  }

  /** The URL the framework redirects to: a root-relative path resolved against
      the request's origin. */
  function TargetUrl(origin: string, d: Decision): (u: string)
    requires d.RedirectTo?
    ensures |u| == |origin| + |d.path|
    ensures u[..|origin|] == origin && u[|origin|..] == d.path
  {
    origin + d.path
  }

  /** No marker of the rule chain occurs in `origin`. */
  predicate PlainOrigin(origin: string)
  {
    !Contains(origin, LoginPath) && !Contains(origin, SignUpPath) && !Contains(origin, ServicesPath)
  }

  /** Only the presence of `accessToken` matters, not its value nor any other
      cookie. */
  lemma SessionIsPresenceOnly(url: string, c1: CookieJar, c2: CookieJar)
    requires (AccessTokenCookie in c1) == (AccessTokenCookie in c2)
    ensures Middleware(url, c1) == Middleware(url, c2)
  {
  }

  /** The `url.includes('/')` conjunct is implied by the services marker. */
  lemma SlashTestRedundant(url: string)
    requires Contains(url, ServicesPath)
    ensures Contains(url, "/")
  {
    var i :| OccursAt(url, ServicesPath, i);
    assert OccursAt(url, ServicesPath, i);
    assert url[i] == url[i..i + |ServicesPath|][0] == '/';
    assert url[i..i + 1] == "/";
    assert OccursAt(url, "/", i);
  }

  /** Without a session, a URL is sent to login exactly when it mentions the
      services page and does not mention login. */
  lemma {:induction false} NoSessionRedirect(url: string)
    ensures Guard(url, false) == RedirectTo(LoginPath) <==> Contains(url, ServicesPath) && !Contains(url, LoginPath)
    ensures Guard(url, false) != RedirectTo(LoginPath) ==> Guard(url, false) == Next
  {
    if Contains(url, ServicesPath) {
      SlashTestRedundant(url);
    }
  }

  /** With a session, a URL mentioning login or sign-up goes to the services
      page; every other URL passes. */
  lemma SessionRedirect(url: string)
    ensures Guard(url, true) == RedirectTo(ServicesPath) <==> Contains(url, LoginPath) || Contains(url, SignUpPath)
    ensures Guard(url, true) != RedirectTo(ServicesPath) ==> Guard(url, true) == Next
  {
  }

  /** The login rule is tested first: a URL that mentions both login and
      sign-up is decided by it, with the same target. */
  lemma LoginRuleBeforeSignUp(url: string)
    requires Contains(url, LoginPath) && Contains(url, SignUpPath)
    ensures Guard(url, true) == RedirectTo(ServicesPath)
  {
  }

  /** Redirects never cross the session state. */
  lemma RedirectFollowsSession(url: string, loggedIn: bool)
    ensures loggedIn ==> Guard(url, loggedIn) != RedirectTo(LoginPath)
    ensures !loggedIn ==> Guard(url, loggedIn) != RedirectTo(ServicesPath)
  {
  }

  /** No self-redirect loop on the login page. */
  lemma LoginNeverSentToLogin(url: string, loggedIn: bool)
    requires Contains(url, LoginPath)
    ensures Guard(url, loggedIn) != RedirectTo(LoginPath)
  {
  }

  lemma ServicesPathMarkers()
    ensures !Contains(ServicesPath, LoginPath) && !Contains(ServicesPath, SignUpPath)
  {
    SlashLedContainsIsPrefix(ServicesPath, LoginPath);
    assert ServicesPath[1] != LoginPath[1];
    SlashLedContainsIsPrefix(ServicesPath, SignUpPath);
    assert ServicesPath[1] != SignUpPath[1];
  }

  /** A redirect target is a fixpoint: following the redirect under the same
      session state passes through. */
  lemma {:induction false} RedirectTargetPasses(url: string, loggedIn: bool, origin: string)
    requires PlainOrigin(origin)
    requires Guard(url, loggedIn).RedirectTo?
    ensures Guard(TargetUrl(origin, Guard(url, loggedIn)), loggedIn) == Next
  {
    var target := TargetUrl(origin, Guard(url, loggedIn));
    if loggedIn {
      assert target == origin + ServicesPath;
      ServicesPathMarkers();
      NotContainsConcat(origin, ServicesPath, LoginPath);
      NotContainsConcat(origin, ServicesPath, SignUpPath);
    } else {
      assert target == origin + LoginPath;
      assert StartsWith(LoginPath, LoginPath);
      StartsWithContains(LoginPath, LoginPath);
      ContainsAppend(origin, LoginPath, LoginPath);
    }
  }

  /** The test is on the whole URL: the services marker in a query string
      sends a session-less request to login. */
  lemma QueryStringTriggersGuard()
    ensures Guard("https://host/?next=/availableServices", false) == RedirectTo(LoginPath)
  {
    var url := "https://host/?next=/availableServices";
    assert url[19..19 + |ServicesPath|] == ServicesPath;
    assert OccursAt(url, ServicesPath, 19);
    forall i | 0 <= i <= |url| - |LoginPath|
      ensures !OccursAt(url, LoginPath, i)
    {
      assert url[i..i + |LoginPath|][0] == url[i] && url[i..i + |LoginPath|][1] == url[i + 1];
    }
    NoSessionRedirect(url);
  }

  /** After logout has removed both session cookies, the guard treats the
      request as session-less. */
  lemma LoggedOutHasNoSession(url: string, cookies: CookieJar)
    ensures !IsLoggedSession(ClearSession(cookies))
    ensures Middleware(url, ClearSession(cookies)) == Guard(url, false)
  {
  }
}
