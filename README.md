# Cognito session gateway — a Dafny model

The repository is an Express gateway in front of an AWS Cognito user pool. It
offers five routes: signup, login, logout, refresh-session and confirm. Each
route checks its inputs, makes at most one call to the identity provider, and
turns the provider's answer into an HTTP status, a JSON body and possibly a
`token` cookie holding the refresh token. A small façade over the provider
normalises its errors (`extractError`) and turns its callbacks into promises.

This project models that core as pure functions:

- `js_values.dfy` (module `JsValues`): the JavaScript semantics the code
  relies on. It defines values, truthiness, `||`, and property reads that walk
  the prototype chain and throw on `null` and `undefined`. An own property is
  either a data property or a getter, which may throw.
- `auth_service.dfy` (module `AuthService`): `extractError` and the
  `signup`, `login`, `refreshSession` and `confirmSignup` wrappers. The provider
  is abstract. Each wrapper returns the request it makes of the provider, with
  every argument but the callback (`ProviderCall`), and how its promise settles, given the provider's callback as
  an input.
- `auth_controller.dfy` (module `AuthController`): `cookieBaseOpts`,
  `oneMonthMs` and the five handlers. Each handler is a function from the
  request fields, the provider's callback and the clock to a `Handled` value:
  the response (status, body, optional Set-Cookie) together with the provider
  request it made. That request is `None` exactly when the handler made no
  provider call.
- `session_lifecycle.dfy` (module `SessionLifecycle`): a browser cookie jar
  across several requests. It covers logout ending the session, the refresh
  token passing through unchanged, and refreshes never moving the session's
  thirty-day end past the original `auth_time`, provided the provider's
  successful refreshes keep that `auth_time`.

Times are integer milliseconds since the epoch. `now` is a parameter. The pool
identifiers and cookie domain come from the environment in the source; here they
are the parameters `Pool` and `Config`, and they may be absent.

Where the source's own comment (auth.service.js:14, 'Return it as string if
possible') or a reader's expectation differs from the code, the model follows
the code:

- A raw string error normalises to `'Unknown error'`, not to the string.
  Reading `.message` on a string gives `undefined` and does not throw, so the
  catch branch is never reached (`ExtractErrorOfRawString`).
- The catch branch of `extractError` is reached only when reading `.message`
  throws. For values without accessor properties that means `null` and
  `undefined`, where the result is the sentinel. For an object whose `message`
  getter throws, the result is the error object itself.
- An `Error` with no message of its own inherits `""` from `Error.prototype` and
  normalises to the sentinel.
- Logout's cookie expires at exactly `now`, not at a time before it. The
  lifecycle model treats an expiry that is not in the future as removal.
- The success body is `{jwt, jwt_expired, email}`. `signup` answers with
  `result.user`.
- The `if (err)` test in the Node-style callbacks is a truthiness test, so a
  falsy error value resolves the promise. `login`'s `onFailure` rejects whatever
  the error value is.

## Model

| member | source | states |
|---|---|---|
| JsValues.Or | src/auth/auth.service.js:12-15 | the logical-or operator yields its left operand when that is truthy and its right one otherwise; the result is truthy iff either operand is |
| JsValues.Truthy | src/auth/auth.controller.js:59 | ToBoolean, the test behind every `!x` validation (auth.controller.js:59, 73, 115, 147), the logical-or operator and `if (err)` (auth.service.js:12, 15, 45, 92, 108): a value is falsy iff it is `undefined`, `null`, `false`, `0`, `NaN` or `""` |
| JsValues.Get | src/auth/auth.service.js:12 | the prototype-chain read behind `err.message`: an own property shadows the chain, and a read throws only when some object on the chain holds the key as a throwing getter |
| JsValues.GetMessage | src/auth/auth.service.js:12-13 | reading `message` throws on `null`/`undefined` and when a getter on the chain throws; gives `undefined` on other primitives; follows the chain on objects |
| JsValues.GetIsNearestOwner | src/auth/auth.service.js:12 | a property read equals the reference reading of the prototype chain: `undefined` when no object on it owns the key, otherwise the first owner's property decides |
| JsValues.NoGettersGetIsSafe | src/auth/auth.service.js:12 | a read on an object chain without accessor properties never throws |
| AuthService.ExtractError | src/auth/auth.service.js:9-17 | total and always truthy; the sentinel for `null`, `undefined` and every primitive; a truthy `message` unchanged; the sentinel for a falsy or absent `message`; the error itself when its `message` getter throws |
| AuthService.ExtractErrorIsMessageOrSentinel | src/auth/auth.service.js:9-17 | the result is the sentinel, or the input's truthy `message`, or (only when reading `message` threw) the error object |
| AuthService.CatchOnlyForNullish | src/auth/auth.service.js:10-16 | for values without getters, the catch branch is taken iff the value is `null` or `undefined` |
| AuthService.ExtractErrorOfNewError | src/auth/auth.service.js:12 | `new Error(m)` with non-empty `m` gives `m`; `new Error()` inherits `""` from Error.prototype and gives the sentinel |
| AuthService.ExtractErrorOfRawString | src/auth/auth.service.js:14-15 | a raw string error gives the sentinel, not the string |
| AuthService.SettleNode | src/auth/auth.service.js:92-93 | a Node-style callback rejects iff its error is truthy, with `extractError(err)`, and otherwise resolves with the result |
| AuthService.Signup | src/auth/auth.service.js:40-49 | requests sign-up of `email` and `password` with the single e-mail attribute and `null` validation data; rejects iff the error is truthy, with the normalised error; otherwise resolves with `result.user` |
| AuthService.Login | src/auth/auth.service.js:56-73 | requests authentication of `email`/`password`; rejects iff `onFailure`, with the normalised error; otherwise resolves with the session |
| AuthService.RefreshSessionWith | src/auth/auth.service.js:80-96 | passes the refresh token unchanged, for user `''`; rejects iff the error is truthy, with the normalised error; otherwise resolves with the new session |
| AuthService.ConfirmSignup | src/auth/auth.service.js:103-112 | requests confirmation of `email` with `code` and forced alias creation; rejects iff the error is truthy, with the normalised error; otherwise resolves with the result |
| AuthService.RejectionsAreNormalised | src/auth/auth.service.js:43-111 | every rejection of every wrapper carries a truthy reason |
| AuthController.Field | src/auth/auth.controller.js:57 | `const { … } = req.body` (also lines 71 and 145): a field present in the parsed body gives its value, an absent one gives `undefined` |
| AuthController.BaseOpts | src/auth/auth.controller.js:31-50 | the base cookie options are `httpOnly`, `secure`, `sameSite='strict'`, `path='/'` and the configured domain |
| AuthController.SessionResponse | src/auth/auth.controller.js:79-93 | status 200, body `{jwt, jwt_expired: exp*1000, email}`, and a `token` cookie holding the refresh token, with the base options, expiring at `auth_time*1000 + 2592000000` |
| AuthController.SignupRoute | src/auth/auth.controller.js:56-68 | no provider call iff email or password is falsy, and then 400 `missing email or password`; otherwise the exact sign-up request, 400 `{message: extractError(err)}` on error, 200 with the user otherwise; never a cookie |
| AuthController.LoginRoute | src/auth/auth.controller.js:70-97 | no provider call iff email or password is falsy, and then 400 `missing email or password`; otherwise the exact authentication request, 400 `{message: extractError(err)}` without a cookie on failure, the session response on success |
| AuthController.LogoutRoute | src/auth/auth.controller.js:99-106 | whatever the request: no provider call, 200 `{message:'Success'}`, and a `token` cookie with value `''` and the base options, expiring at `now` |
| AuthController.RefreshSessionRoute | src/auth/auth.controller.js:114-142 | no provider call iff there is no cookie jar or its `token` is falsy, and then 401 `No token supplied`; otherwise the token goes to the provider unchanged, 401 `{message: extractError(err)}` on error, the session response on success |
| AuthController.ConfirmRoute | src/auth/auth.controller.js:144-157 | no provider call iff email or code is falsy, and then 400 `missing email or code`; otherwise the exact confirmation request, 400 `{message: extractError(err)}` on error, 200 `{message:'Success'}` otherwise |
| AuthController.EveryCookieHasBaseOpts | src/auth/auth.controller.js:87-135 | every cookie any route sets is `token` with `httpOnly`, `secure`, `sameSite='strict'`, `path='/'` and the configured domain |
| AuthController.StatusCodes | src/auth/auth.controller.js:59-156 | statuses are 200, 400 or 401; 401 comes from refresh-session only and there means failure; a non-200 response has a truthy `message` and no cookie |
| AuthController.CookieOnlyFromProviderSession | src/auth/auth.controller.js:87-138 | apart from logout, a cookie is set only after a provider call that succeeded, and it holds that session's refresh token; signup and confirm never set one |
| AuthController.ValidationFailureIgnoresProvider | src/auth/auth.controller.js:59-149 | when validation stops a request, the response is the same whatever the provider would have replied and whenever it is made |
| AuthController.CookieExpiryDependsOnAuthTimeOnly | src/auth/auth.controller.js:54-135 | on login or refresh success the cookie options depend on `auth_time` alone, not on `exp`, the route or `now`, and the expiry is `auth_time*1000 + 2592000000` |
| AuthController.LoginScenario | src/auth/auth.controller.js:77-93 | with `exp=1700000000` and `auth_time=1699999000`, `jwt_expired` is 1700000000000 and the cookie expires at 1702591000000 |
| SessionLifecycle.LogoutEndsSession | src/auth/auth.controller.js:99-117 | after logout the browser holds no `token`, and any later refresh-session is 401 `No token supplied` without a provider call |
| SessionLifecycle.LogoutCookieValueIsRefused | src/auth/auth.controller.js:99-117 | a browser that kept logout's cookie sends `token=''`, which refresh-session refuses the same way |
| SessionLifecycle.LoginThenRefreshPassesToken | src/auth/auth.controller.js:87-120 | a refresh-session made before the login cookie expires hands the provider exactly the refresh token the login stored, when that token is non-empty |
| SessionLifecycle.RefreshNeverExtends | src/auth/auth.controller.js:132-136 | starting from a jar whose `token` expires by a ceiling, and while every successful session keeps an `auth_time` whose thirty-day window ends by that ceiling, no sequence of refreshes leaves a `token` expiring after that ceiling |
| SessionLifecycle.NoRefreshPastCeiling | src/auth/auth.controller.js:115-117 | once the ceiling has passed, refresh-session is 401 `No token supplied` without a provider call |
| SessionLifecycle.SessionCeiling | src/auth/auth.controller.js:87-136 | after a login with `auth_time` A whose email and password pass validation (or, when validation stops it, from a jar with no later `token`), and any refreshes whose successful sessions keep A, every refresh-session from thirty days after A onwards is refused without a provider call |

## Left out

- `src/index.js` is not part of this model. That covers server start-up, middleware (helmet, CORS, the cookie and body parsers), logging, `app.listen`, and the 404 fallback. The model assumes the body parser always supplies a body object (`Fields`).
- Express routing (method and path matching) is not modelled. `AuthController.Handle` dispatches on one `Exchange` constructor per route.
- The Cognito SDK cannot be seen from this repository, so each of its calls is an input. The model records the request (`ProviderCall`) and takes the callback the provider makes (`NodeCallback`, `AuthCallback`) as a parameter. An exception thrown inside a callback, such as `result.user` on a missing result, is not modelled.
- The user-pool singleton and the environment variables are plain parameters (`Pool`, `Config`).
- Promises and `async`/`await` are not modelled. Each handler has one suspension point, and a settled promise is a `Settled` value.
- JSON and cookie serialisation are not modelled. The cookie parser's `j:` JSON cookies are not modelled either; the browser jar stores strings and sends them back unchanged.
- `Date` objects are integer milliseconds.
- AuthController.SessionResponse: does not model ECMAScript's Date range. An `exp` or `auth_time` beyond about 8.64e12 seconds would give an Invalid Date. The source would then serialise `jwt_expired` as `null`, and the cookie serialiser would throw. Provider-issued claims never reach that range.
- AuthController.LoginRoute: the Invalid Date path described above is left out for the same reason.
- AuthController.RefreshSessionRoute: the Invalid Date path described above is left out for the same reason.
- The `console.log` of the refresh token on refresh is logging only.
- Numbers are reals plus NaN. Infinities, BigInt and symbols are left out, because none of them changes a truthiness test here except `0n`, which no provider sends.
- The browser model keeps one site's cookies. It drops a cookie whose expiry is not in the future. Domain and path matching are not modelled.
