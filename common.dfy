/** Values shared by the client pages: optional values, the outcome of an HTTP
    request, the user record the backend returns, and the browser cookie jar. */
module Common {

  datatype Option<+T> = None | Some(value: T)

  /** What an awaited request produced: the promise resolved with a response
      carrying `status`, or it was rejected (network failure, or a status the
      HTTP client treats as an error). */
  datatype HttpOutcome = Ok(status: int) | Failed

  /** The settled result of a GET whose response body is decoded into a `T`. */
  datatype Fetch<+T> = Fetched(value: T) | FetchFailed(message: string)

  /** The user object the backend returns from `GET /users/:id`.  The pages read
      `name`, `address` and `isProvider`; `username` is the key the navbar's
      default state carries. */
  datatype User = User(name: string, username: string, address: string, isProvider: bool)

  /** The navbar's initial user, `{ username: '', isProvider: false }`; the
      add-service page's `{ isProvider: false }` reads the same way. */
  function DefaultUser(): (u: User)
    ensures !u.isProvider && u.name == "" && u.username == "" && u.address == ""
  {
    User("", "", "", false)
  }

  /** Cookies visible to the page or to the request, by name. */
  type CookieJar = map<string, string>

  const UserIdCookie: string := "userId"
  const AccessTokenCookie: string := "accessToken"

  /** The error both mount effects report when there is no `userId` cookie. */
  const MissingUserIdError: string := "User ID not found in cookies"

  /** `Cookies.get(name)`: the value, or nothing when the cookie is absent. */
  function GetCookie(jar: CookieJar, name: string): (r: Option<string>)
    ensures r.Some? <==> name in jar
    ensures r.Some? ==> r.value == jar[name]
  {
    if name in jar then Some(jar[name]) else None
  }

  /** `!userId` in JavaScript: an absent cookie or an empty value is falsy. */
  predicate IsMissingId(id: Option<string>)
  {
    id.None? || id.value == ""
  }

  /** Writing both session cookies with an expiry in the past removes them and
      nothing else. */
  function ClearSession(jar: CookieJar): (r: CookieJar)
    ensures UserIdCookie !in r && AccessTokenCookie !in r
    ensures forall k :: k in jar && k != UserIdCookie && k != AccessTokenCookie ==> k in r && r[k] == jar[k]
    ensures forall k :: k in r ==> k in jar
  {
    jar - {UserIdCookie, AccessTokenCookie}
  }
}
