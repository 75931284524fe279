# Service-booking client: route guard, bookings list, add-service form, navbar

A Dafny model of the client-side logic of a service-booking marketplace
front-end (a Next.js/React app over a REST backend):

- **Route guard** (`RouteGuard`, file `route_guard.dfy`): the request
  middleware. It looks at whether an `accessToken` cookie exists and runs
  substring tests on the whole request URL. The result is one of: pass
  through, redirect to `/login`, or redirect to `/availableServices`. It is a
  pure function with lemmas. They prove that redirects never cross the session
  state, that the login page is never redirected to itself, and that a
  redirect target is a fixpoint. Substring tests use `Text.Contains`, which has
  the meaning of JavaScript's `String.prototype.includes`.
- **Bookings page** (`Bookings`, file `bookings.dfy`): the customer's
  bookings list. `BookingsPage` is a class. Its fields are the page's React
  state. Its methods are the fetch completions and the confirm-gated "pay" and
  "cancel" handlers. These are specified by pure functions on `seq<Booking>`
  (`MarkPaid` is the `map`, `RemoveById` is the `filter`), and the lemmas
  about those functions give the order and membership guarantees.
  `FindServiceById` is the first-match lookup. `Render` gives the display
  priority: loading, then error, then content.
- **Add-service page** (`AddService`, file `add_service.dfy`): the provider's
  form of six string fields. It covers field edits, the two validation guards,
  and the reset after a `201`. The class invariant and `HandleSubmit`'s
  contract pin down a quirk of the page. `providerId` is seeded only by the
  mount-time user fetch, and the reset clears it. So after one created service,
  every later submit in the same mount fails with "All fields are required."
  (`ResetFormStaysInvalid`).
- **Navbar** (`Navbar`, file `navbar.dfy`): the menu toggle, the mount-time
  user fetch, the one-way "Become a Provider" upgrade, and logout. Logout
  removes both session cookies, and afterwards the guard sees no session.
- `Common` (file `common.dfy`) holds the shared values: the HTTP outcome, the
  fetch result, the user record and the cookie jar.

Everything outside the program is a parameter of the method that handles it:
network results (`HttpOutcome`: `Ok(status)` when the awaited request
resolved, `Failed` when it was rejected), fetched data (`Fetch<T>`), prompt
answers (strings), and cookies (a `map<string, string>`). Each asynchronous
completion is its own method call.

The model follows the code as written:

- The guard matches `/availableServices`, `/login` and `/signUp` as substrings
  anywhere in the URL. It does not match them as path prefixes, so a query
  string can trigger it (`QueryStringTriggersGuard`).
- The session-less exemption is "the URL does not contain `/login`". It is not
  "the path equals `/login`".
- The literal `url.includes('/')` conjunct is kept in `Guard`.
  `SlashTestRedundant` proves it changes nothing.

Conditions of the source that the model states as predicates (used by the
contracts in the table below):

- `Text.Contains(s, m)` is `s.includes(m)` (src/middleware.js:11-26).
- `RouteGuard.IsLoggedSession` is `accessToken !== undefined`: an `accessToken`
  cookie exists (src/middleware.js:5-8).
- `Common.IsMissingId` is `!userId`: the cookie is absent or empty
  (src/app/availableServices/page.js:57, src/app/availableServices/MobileNavbar.js:24).
- `Bookings.PayNowOffered` is the "Pay Now" condition `status === 'completed' &&
  paymentStatus === 'pending'` (src/app/availableServices/bookings/page.js:145-146).
- `AddService.ParsesToPositive` is the price guard `!isNaN(price) && Number(price) > 0`
  on plain decimal numerals (src/app/availableServices/page.js:105).
- `AddService.AddServicePage.AddServiceShown` is the "Add Service" toggle's
  visibility `user.isProvider` (src/app/availableServices/page.js:151).
- `Navbar.MobileNavbar.BecomeProviderShown` is the "Become a Provider" entry's
  visibility `!user.isProvider` (src/app/availableServices/MobileNavbar.js:159).

## Model

| member | source | states |
|---|---|---|
| RouteGuard.Guard | src/middleware.js:9-29 | every redirect goes to `/login` or to `/availableServices`; no other target exists |
| RouteGuard.Middleware | src/middleware.js:3-30 | on the cookie jar: a request without `accessToken` whose URL contains `/availableServices` and not `/login` goes to `/login`; a request with `accessToken` whose URL contains `/login` or `/signUp` goes to `/availableServices`; every other request passes through |
| RouteGuard.SessionIsPresenceOnly | src/middleware.js:5-8 | two cookie jars that agree on whether `accessToken` is present get the same decision for every URL, whatever the token's value and the other cookies |
| RouteGuard.SlashTestRedundant | src/middleware.js:11-13 | a URL containing `/availableServices` contains `/`, so the `url.includes('/')` test never decides anything |
| RouteGuard.NoSessionRedirect | src/middleware.js:9-18 | without a session, a URL is redirected to `/login` exactly when it contains `/availableServices` and does not contain `/login`; otherwise it passes through |
| RouteGuard.SessionRedirect | src/middleware.js:22-29 | with a session, a URL is redirected to `/availableServices` exactly when it contains `/login` or `/signUp`; otherwise it passes through |
| RouteGuard.LoginRuleBeforeSignUp | src/middleware.js:22-27 | with a session, a URL containing both `/login` and `/signUp` goes to `/availableServices` |
| RouteGuard.RedirectFollowsSession | src/middleware.js:9-27 | a request with a session is never sent to `/login`, and a request without one is never sent to `/availableServices` |
| RouteGuard.LoginNeverSentToLogin | src/middleware.js:12-17 | a URL containing `/login` is never redirected to `/login`, in either session state |
| RouteGuard.TargetUrl | src/middleware.js:17 | the redirect URL starts with the request origin and continues with exactly the target path |
| RouteGuard.RedirectTargetPasses | src/middleware.js:17-26 | following a redirect under the same session state passes through, when the origin contains none of the three markers |
| RouteGuard.QueryStringTriggersGuard | src/middleware.js:13 | `https://host/?next=/availableServices` without a session is redirected to `/login`: the match runs over the whole URL, query string included |
| RouteGuard.LoggedOutHasNoSession | src/middleware.js:5-8 | after both session cookies are removed, the guard decides every URL as for a request without a session |
| Common.ClearSession | src/app/availableServices/MobileNavbar.js:43-44 | logout removes `userId` and `accessToken` and keeps every other cookie with its value |
| Bookings.FindServiceById | src/app/availableServices/bookings/page.js:57-59 | the result is the first service whose id equals the argument; the result is nothing exactly when no service has that id |
| Bookings.MarkPaid | src/app/availableServices/bookings/page.js:67-73 | length and order are kept; each booking with the paid id has `paymentStatus` set to `paid` and keeps its other fields; every other booking is unchanged |
| Bookings.RemoveById | src/app/availableServices/bookings/page.js:88-90 | a booking is in the result exactly when it was in the list and its id differs from the cancelled id |
| Bookings.RemoveByIdConcat | src/app/availableServices/bookings/page.js:88-90 | the filter distributes over concatenation, so the kept bookings stay in their original order |
| Bookings.RemoveAbsentIsIdentity | src/app/availableServices/bookings/page.js:88-90 | cancelling an id no booking has leaves the list as it was |
| Bookings.RemoveByIdIdempotent | src/app/availableServices/bookings/page.js:88-90 | removing the same id again changes nothing |
| Bookings.CountId | src/app/availableServices/bookings/page.js:89 | the number of bookings with a given id is zero exactly when no booking has it |
| Bookings.RemoveByIdLength | src/app/availableServices/bookings/page.js:88-90 | exactly the bookings with the cancelled id are removed: the new length is the old length minus their number |
| Bookings.PaymentWithdrawsPayNow | src/app/availableServices/bookings/page.js:144-153 | after a successful payment, "Pay Now" is offered for no booking with that id, and for every other booking exactly as before |
| Bookings.PaymentKeepsOtherFields | src/app/availableServices/bookings/page.js:67-73 | payment keeps every booking's id, service, time and status |
| Bookings.Cards | src/app/availableServices/bookings/page.js:117-156 | there is one card per booking, in order; each card shows its booking, the first matching service, and "Pay Now" exactly when the booking is completed with payment pending |
| Bookings.BookingsPage.constructor | src/app/availableServices/bookings/page.js:9-13 | the page starts with empty lists, no provider flag, no error, and loading shown |
| Bookings.BookingsPage.BookingsFetched | src/app/availableServices/bookings/page.js:18-28 | when the bookings fetch settles, loading ends; a success replaces the bookings; a failure sets the bookings error and leaves the list |
| Bookings.BookingsPage.ServicesFetched | src/app/availableServices/bookings/page.js:30-40 | when the services fetch settles, loading ends; a success replaces the services; a failure sets the services error |
| Bookings.BookingsPage.ProviderChecked | src/app/availableServices/bookings/page.js:42-50 | the provider check sets the provider flag or the error, and never changes loading |
| Bookings.BookingsPage.HandlePayment | src/app/availableServices/bookings/page.js:61-80 | the request is sent exactly when the answer is `confirm`; a resolved request applies `MarkPaid`; any other answer, or a rejected request, leaves the bookings unchanged |
| Bookings.BookingsPage.HandleCancelBooking | src/app/availableServices/bookings/page.js:82-97 | the request is sent exactly when the answer is `cancel`; a resolved request applies `RemoveById`; any other answer, or a rejected request, leaves the bookings unchanged |
| Bookings.BookingsPage.Render | src/app/availableServices/bookings/page.js:99-161 | the loading view appears exactly while loading; otherwise the error view appears exactly when there is an error; otherwise a provider sees the requests view, an empty list gives the no-bookings view, and a non-empty list gives one card per booking, card i showing booking i, its first matching service and "Pay Now" where it is offered |
| AddService.ApplyEdit | src/app/availableServices/page.js:77-82 | an edit sets the named field (or `location` for the city select) to the new value and leaves every other field as it was |
| AddService.Validate | src/app/availableServices/page.js:89-111 | the form is rejected as incomplete exactly when one of the six fields is empty; it is accepted exactly when all six are present and the price is a positive number |
| AddService.PriceExamples | src/app/availableServices/page.js:105 | the prices `0`, `0.00` and `.` are rejected; `12` and `0.5` are accepted |
| AddService.FormEditsKeepProviderId | src/app/availableServices/page.js:77-82 | no sequence of edits from the rendered form changes `providerId` |
| AddService.ResetFormStaysInvalid | src/app/availableServices/page.js:121-129 | after the reset, every sequence of form edits still leaves the form rejected as incomplete |
| AddService.AddServicePage.constructor | src/app/availableServices/page.js:40-50 | the page starts with a non-provider user, the empty form, no error and the form hidden |
| AddService.AddServicePage.UserFetched | src/app/availableServices/page.js:54-71 | with no `userId` cookie, only the error is set and nothing is requested; a fetched user replaces `user` and seeds `providerId` with the cookie's value; a failure sets the error; only the mount fetch ever writes `providerId` |
| AddService.AddServicePage.ToggleForm | src/app/availableServices/page.js:151-157 | the toggle exists only for a provider, and a click flips `showForm` |
| AddService.AddServicePage.Edited | src/app/availableServices/page.js:77-82 | the form becomes its `ApplyEdit` image, and the invariant tying `providerId` to the mount fetch is kept |
| AddService.AddServicePage.HandleSubmit | src/app/availableServices/page.js:85-144 | the form is posted exactly when it validates; only a `201` resets it to six empty strings and hides it; any other outcome changes nothing; after one created service every later submit is rejected as incomplete |
| Navbar.BecomeProvider | src/app/availableServices/MobileNavbar.js:49-72 | the user becomes a provider exactly when already one, or when the answer is `yes` and the response status is 200; no other field changes |
| Navbar.UpgradesNeverRevoke | src/app/availableServices/MobileNavbar.js:59-70 | for a provider, any run of upgrade attempts leaves the user unchanged and still a provider |
| Navbar.MobileNavbar.constructor | src/app/availableServices/MobileNavbar.js:12-14 | the menu starts closed, with the default non-provider user and no error |
| Navbar.MobileNavbar.ToggleMenu | src/app/availableServices/MobileNavbar.js:16-18 | a toggle flips `isOpen` and changes nothing else |
| Navbar.MobileNavbar.UserFetched | src/app/availableServices/MobileNavbar.js:21-37 | with no `userId` cookie, the error is set and the user stays as it was; otherwise the fetched user replaces it, or the failure message becomes the error |
| Navbar.MobileNavbar.HandleBecomeProvider | src/app/availableServices/MobileNavbar.js:49-72 | the request is sent exactly when the answer is `yes`; the new user is `BecomeProvider` of the old one; a provider is never turned back; after an accepted upgrade "Become a Provider" is no longer offered, and it is never offered again once withdrawn |
| Navbar.MobileNavbar.HandleLogout | src/app/availableServices/MobileNavbar.js:42-47 | both session cookies are removed, `/login` is pushed, and afterwards the guard decides every URL as for a request without a session |

## Left out

- HTTP requests (axios): each call is reduced to its outcome, passed in as a parameter. Request bodies, URLs, headers and server behaviour are not modelled. Whether a non-2xx status resolves or rejects is up to the HTTP client, and the outcome parameter carries that choice.
- Next.js framework semantics: `NextResponse.next`/`redirect` become a `Decision` value. `new URL(path, request.url)` is modelled as the origin followed by the path (`TargetUrl`). The `config.matcher: '/admin/:path*'` glob is not modelled, because when the framework runs the middleware is not visible here.
- Cookie libraries and `document.cookie` syntax: cookies are a map. A cookie written with a past expiry is modelled as removed. Encoding and expiry strings are not modelled.
- UI side effects: `window.prompt` answers become parameters. `alert`, `toast`, `console.error`, JSX markup, CSS classes and `toLocaleString` date formatting are not modelled. The provider branch of the bookings page and the services list render other components, which are not part of this model; they appear only as `RequestsView`.
- AddService.Validate: the price guard `isNaN(price) || Number(price) <= 0` uses JavaScript number coercion. It is modelled as `ParsesToPositive`, which accepts only plain decimal numerals. JavaScript also accepts surrounding whitespace, exponents, hexadecimal, signs and `Infinity`; on those inputs the model rejects a price that the page would accept. In the other direction, a decimal too small for a double (such as `0.` followed by 400 zeros and a `1`) becomes `0` under `Number(...)`, so the page rejects it while the model accepts it.
- Asynchronous interleaving: each fetch completion and each handler is a separate, atomic method call. `handleChange` spreads a captured `formData` that can be stale after a concurrent update. The model always applies the edit to the current form, so it does not capture lost updates.
- The bookings page fetches `/bookings/user/${userId}` even when the cookie is missing. The request's result is a parameter, so that case is just another outcome.
- `handleBecomeProvider` has no `catch`. A rejected request is an unhandled promise rejection, and the model shows it as leaving the user unchanged.
- Not part of this model, because they only forward form fields to the backend or render data: the login and sign-up pages, the provider requests list, the services list, the modal, the landing redirect and the layouts.
