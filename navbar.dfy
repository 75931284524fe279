/** The navigation bar shown on every services page: the mobile menu flag,
    the current user, the one-way "Become a Provider" upgrade and logout. */
module Navbar {
  import opened Common
  import RouteGuard

  /** The only prompt answer that sends the upgrade request. */
  const ConfirmUpgradeAnswer: string := "yes"

  /** HTTP status of an accepted upgrade. */
  const UpgradeOk: int := 200

  /** The user after `handleBecomeProvider` with the given prompt answer and
      request outcome. A rejected request has no handler, so it changes
      nothing either. */
  function BecomeProvider(u: User, answer: string, outcome: HttpOutcome): (r: User)
    ensures r.isProvider <==> u.isProvider || (answer == ConfirmUpgradeAnswer && outcome == Ok(UpgradeOk))
    ensures r.name == u.name && r.username == u.username && r.address == u.address
  {
    if answer == ConfirmUpgradeAnswer && outcome == Ok(UpgradeOk) then u.(isProvider := true) else u
  }

  /** The user after a run of upgrade attempts, one after another. */
  function Attempts(u: User, attempts: seq<(string, HttpOutcome)>): User
    decreases |attempts|
  {
    if attempts == [] then u else Attempts(BecomeProvider(u, attempts[0].0, attempts[0].1), attempts[1..])
  }

  /** However the prompts are answered and the requests end, repeated upgrade
      attempts never take the provider role away. */
  lemma {:induction false} UpgradesNeverRevoke(u: User, attempts: seq<(string, HttpOutcome)>)
    requires u.isProvider
    ensures Attempts(u, attempts).isProvider
    ensures Attempts(u, attempts) == u
    decreases |attempts|
  {
    if attempts != [] {
      UpgradesNeverRevoke(BecomeProvider(u, attempts[0].0, attempts[0].1), attempts[1..]);
    }
  }

  class MobileNavbar {
    var isOpen: bool
    var user: User
    var error: Option<string>
    /** The browser's cookie jar, which `handleLogout` writes. */
    var cookies: CookieJar
    /** The last route pushed by the router, if any. */
    var pushed: Option<string>

    constructor (jar: CookieJar)
      ensures !isOpen && user == DefaultUser() && error == None && cookies == jar && pushed == None
    {
      isOpen := false;
      user := DefaultUser();
      error := None;
      cookies := jar;
      pushed := None;
    }

    /** `toggleMenu`: flips the menu and nothing else. */
    method ToggleMenu()
      modifies this`isOpen
      ensures isOpen == !old(isOpen)
    {
      isOpen := !isOpen;
    }

    /** The mount effect `fetchUser`: with no `userId` cookie it reports an
        error and sends nothing; otherwise the request's result replaces the
        user or becomes the error. */
    method UserFetched(result: Fetch<User>) returns (requested: bool)
      modifies this`user, this`error
      ensures requested <==> !IsMissingId(GetCookie(cookies, UserIdCookie))
      ensures !requested ==> error == Some(MissingUserIdError) && user == old(user)
      ensures requested && result.Fetched? ==> user == result.value && error == old(error)
      ensures requested && result.FetchFailed? ==> error == Some(result.message) && user == old(user)
    {
      if IsMissingId(GetCookie(cookies, UserIdCookie)) {
        error := Some(MissingUserIdError);
        return false;
      }
      requested := true;
      match result {
        case Fetched(u) =>
          user := u;
        case FetchFailed(message) =>
          error := Some(message);
      }
    }

    /** "Become a Provider" is in the menu only for a non-provider. */
    predicate BecomeProviderShown()
      reads this
    {
      !user.isProvider
    }

    /** `handleBecomeProvider`, given the prompt's answer and, when the request
        is sent, its outcome. */
    method HandleBecomeProvider(answer: string, outcome: HttpOutcome) returns (requested: bool)
      modifies this`user
      ensures requested <==> answer == ConfirmUpgradeAnswer
      ensures user == BecomeProvider(old(user), answer, outcome)
      ensures old(user.isProvider) ==> user.isProvider
      ensures requested && outcome == Ok(UpgradeOk) ==> !BecomeProviderShown()
      ensures BecomeProviderShown() ==> old(BecomeProviderShown())
    {
      requested := answer == ConfirmUpgradeAnswer;
      if requested {
        match outcome {
          case Ok(status) =>
            if status == UpgradeOk {
              user := user.(isProvider := true);
            }
          case Failed =>
        }
      }
    }

    /** `handleLogout`: both session cookies are removed and the login page is
        pushed; afterwards the route guard sees no session. */
    method HandleLogout()
      modifies this`cookies, this`pushed
      ensures cookies == ClearSession(old(cookies))
      ensures pushed == Some(RouteGuard.LoginPath)
      ensures !RouteGuard.IsLoggedSession(cookies)
      ensures forall url :: RouteGuard.Middleware(url, cookies) == RouteGuard.Guard(url, false)
    {
      cookies := ClearSession(cookies);
      pushed := Some(RouteGuard.LoginPath);
      forall url ensures RouteGuard.Middleware(url, cookies) == RouteGuard.Guard(url, false) {
        RouteGuard.LoggedOutHasNoSession(url, old(cookies));
      }
    }
  }
}
