/** The session gateway (src/auth/auth.controller.js): the five route handlers,
    each a function from the request's fields, the provider's callback and the
    clock to the response the handler writes and the provider request it makes
    (None exactly when the handler makes no provider call). */
module AuthController {
  import opened JsValues
  import opened AuthService

  /** Configuration from the environment: the user pool and the cookie domain. */
  datatype Config = Config(pool: Pool, cookieDomain: Option<string>)

  /** Thirty days in milliseconds. */
  const OneMonthMs: int := 1000 * 60 * 60 * 24 * 30

  /** The attributes every `token` cookie carries (`cookieBaseOpts`). */
  datatype CookieBaseOpts = CookieBaseOpts(httpOnly: bool, secure: bool, sameSite: string, path: string, domain: Option<string>)

  /** `{...cookieBaseOpts, expires}`; times are milliseconds since the epoch. */
  datatype CookieOptions = CookieOptions(base: CookieBaseOpts, expires: int)

  datatype SetCookie = SetCookie(name: string, value: string, options: CookieOptions)

  /** The JSON bodies the handlers send. */
  datatype Body =
    | Message(message: JsValue)                         // {message}
    | Auth(jwt: string, jwtExpired: int, email: JsValue) // {jwt, jwt_expired, email}
    | Json(value: JsValue)                              // a value sent as it is

  datatype Response = Response(status: int, body: Body, cookie: Option<SetCookie>)

  /** A handler's effect: the response, and the provider request it made. */
  datatype Handled = Handled(response: Response, call: Option<ProviderCall>)

  /** A parsed request body or cookie jar: own data properties by name. */
  type Fields = map<string, JsValue>

  /** Destructuring a field out of a parsed body: absent is `undefined`. */
  function Field(body: Fields, key: string): (v: JsValue)
    ensures key !in body ==> v == Undefined
    ensures key in body ==> v == body[key]
  {
    if key in body then body[key] else Undefined
  }

  function BaseOpts(domain: Option<string>): (o: CookieBaseOpts)
    ensures o.httpOnly && o.secure && o.sameSite == "strict" && o.path == "/" && o.domain == domain
  {
    CookieBaseOpts(true, true, "strict", "/", domain)
  }

  /** `res.status(status).json({message})` with no cookie. */
  function Fail(status: int, message: JsValue): Response
  {
    Response(status, Message(message), None)
  }

  const MissingCredentials: Response := Fail(400, Str("missing email or password"))
  const MissingCode: Response := Fail(400, Str("missing email or code"))
  const NoToken: Response := Fail(401, Str("No token supplied"))

  /** The success path shared by login and refresh-session: the access token,
      its expiry in milliseconds and the e-mail claim in the body, and the new
      refresh token in a cookie that expires thirty days after `auth_time`. */
  function SessionResponse(cfg: Config, s: Session): (r: Response)
    ensures r.status == 200
    ensures r.body == Auth(s.accessJwt, s.exp * 1000, s.email)
    ensures r.cookie.Some? && r.cookie.value.name == "token" && r.cookie.value.value == s.refreshToken
    ensures r.cookie.value.options == CookieOptions(BaseOpts(cfg.cookieDomain), s.authTime * 1000 + 2592000000)
  {
    Response(200, Auth(s.accessJwt, s.exp * 1000, s.email),
             Some(SetCookie("token", s.refreshToken,
                            CookieOptions(BaseOpts(cfg.cookieDomain), s.authTime * 1000 + OneMonthMs))))
  }

  /** POST /signup */
  function SignupRoute(cfg: Config, body: Fields, cb: NodeCallback<SignUpResult>): (h: Handled)
    ensures h.call.None? <==> !Truthy(Field(body, "email")) || !Truthy(Field(body, "password"))
    ensures h.call.None? ==> h.response == MissingCredentials
    ensures h.call.Some? ==>
              h.call.value == SignUp(cfg.pool, Field(body, "email"), Field(body, "password"),
                                     [Attribute("email", Field(body, "email"))], Null)
    ensures h.call.Some? && Truthy(cb.err) ==> h.response == Fail(400, ExtractError(cb.err))
    ensures h.call.Some? && !Truthy(cb.err) ==> h.response == Response(200, Json(cb.result.user), None)
    ensures h.response.cookie.None?
  {
    var email, password := Field(body, "email"), Field(body, "password");
    if !Truthy(email) || !Truthy(password) then
      Handled(MissingCredentials, None)
    else
      var inv := Signup(cfg.pool, email, password, cb);
      var resp := match inv.settled
                  case Resolved(user) => Response(200, Json(user), None)
                  case Rejected(e) => Fail(400, e);
      Handled(resp, Some(inv.call))
  }

  /** POST /login */
  function LoginRoute(cfg: Config, body: Fields, cb: AuthCallback): (h: Handled)
    ensures h.call.None? <==> !Truthy(Field(body, "email")) || !Truthy(Field(body, "password"))
    ensures h.call.None? ==> h.response == MissingCredentials
    ensures h.call.Some? ==> h.call.value == AuthenticateUser(cfg.pool, Field(body, "email"), Field(body, "password"))
    ensures h.call.Some? && cb.OnFailure? ==> h.response == Fail(400, ExtractError(cb.err))
    ensures h.call.Some? && cb.OnSuccess? ==> h.response == SessionResponse(cfg, cb.session)
  {
    var email, password := Field(body, "email"), Field(body, "password");
    if !Truthy(email) || !Truthy(password) then
      Handled(MissingCredentials, None)
    else
      var inv := Login(cfg.pool, email, password, cb);
      var resp := match inv.settled
                  case Resolved(session) => SessionResponse(cfg, session)
                  case Rejected(e) => Fail(400, e);
      Handled(resp, Some(inv.call))
  }

  /** POST /logout: whatever the request holds, `{message: 'Success'}` with the
      default status and a `token` cookie that is empty and expires now. */
  function LogoutRoute(cfg: Config, body: Fields, cookies: Option<Fields>, now: int): (h: Handled)
    ensures h.call.None?
    ensures h.response.status == 200 && h.response.body == Message(Str("Success"))
    ensures h.response.cookie == Some(SetCookie("token", "", CookieOptions(BaseOpts(cfg.cookieDomain), now)))
  {
    Handled(Response(200, Message(Str("Success")),
                     Some(SetCookie("token", "", CookieOptions(BaseOpts(cfg.cookieDomain), now)))),
            None)
  }

  /** GET /refresh-session: `cookies` is `req.cookies`, None when absent. */
  function RefreshSessionRoute(cfg: Config, cookies: Option<Fields>, cb: NodeCallback<Session>): (h: Handled)
    ensures h.call.None? <==> cookies.None? || !Truthy(Field(cookies.value, "token"))
    ensures h.call.None? ==> h.response == NoToken
    ensures h.call.Some? ==> h.call.value == RefreshSession(cfg.pool, Str(""), Field(cookies.value, "token"))
    ensures h.call.Some? && Truthy(cb.err) ==> h.response == Fail(401, ExtractError(cb.err))
    ensures h.call.Some? && !Truthy(cb.err) ==> h.response == SessionResponse(cfg, cb.result)
  {
    if cookies.None? || !Truthy(Field(cookies.value, "token")) then
      Handled(NoToken, None)
    else
      var inv := RefreshSessionWith(cfg.pool, Field(cookies.value, "token"), cb);
      var resp := match inv.settled
                  case Resolved(session) => SessionResponse(cfg, session)
                  case Rejected(e) => Fail(401, e);
      Handled(resp, Some(inv.call))
  }

  /** POST /confirm */
  function ConfirmRoute(cfg: Config, body: Fields, cb: NodeCallback<JsValue>): (h: Handled)
    ensures h.call.None? <==> !Truthy(Field(body, "email")) || !Truthy(Field(body, "code"))
    ensures h.call.None? ==> h.response == MissingCode
    ensures h.call.Some? ==> h.call.value == ConfirmRegistration(cfg.pool, Field(body, "email"), Field(body, "code"), true)
    ensures h.call.Some? && Truthy(cb.err) ==> h.response == Fail(400, ExtractError(cb.err))
    ensures h.call.Some? && !Truthy(cb.err) ==> h.response == Response(200, Message(Str("Success")), None)
  {
    var email, code := Field(body, "email"), Field(body, "code");
    if !Truthy(email) || !Truthy(code) then
      Handled(MissingCode, None)
    else
      var inv := ConfirmSignup(cfg.pool, email, code, cb);
      var resp := match inv.settled
                  case Resolved(_) => Response(200, Message(Str("Success")), None)
                  case Rejected(e) => Fail(400, e);
      Handled(resp, Some(inv.call))
  }

  /** One exchange with the gateway: a route with its request and the
      provider's callback for it. */
  datatype Exchange =
    | SignupEx(body: Fields, signupCb: NodeCallback<SignUpResult>)
    | LoginEx(body: Fields, loginCb: AuthCallback)
    | LogoutEx(body: Fields, cookies: Option<Fields>)
    | RefreshEx(cookies: Option<Fields>, refreshCb: NodeCallback<Session>)
    | ConfirmEx(body: Fields, confirmCb: NodeCallback<JsValue>)

  /** The router: each exchange goes to its handler. */
  function Handle(cfg: Config, ex: Exchange, now: int): Handled
  {
    match ex
    case SignupEx(body, cb) => SignupRoute(cfg, body, cb)
    case LoginEx(body, cb) => LoginRoute(cfg, body, cb)
    case LogoutEx(body, cookies) => LogoutRoute(cfg, body, cookies, now)
    case RefreshEx(cookies, cb) => RefreshSessionRoute(cfg, cookies, cb)
    case ConfirmEx(body, cb) => ConfirmRoute(cfg, body, cb)
  }

  /** Every cookie the gateway sets is `token`, with the fixed attributes and the
      configured domain. */
  lemma EveryCookieHasBaseOpts(cfg: Config, ex: Exchange, now: int)
    ensures var c := Handle(cfg, ex, now).response.cookie;
            c.Some? ==>
              && c.value.name == "token"
              && c.value.options.base.httpOnly
              && c.value.options.base.secure
              && c.value.options.base.sameSite == "strict"
              && c.value.options.base.path == "/"
              && c.value.options.base.domain == cfg.cookieDomain
  {
  }

  /** Statuses: 200 on success, 401 only from refresh-session, 400 otherwise;
      a response that is not a success never sets a cookie. */
  lemma StatusCodes(cfg: Config, ex: Exchange, now: int)
    ensures var r := Handle(cfg, ex, now).response;
            && (r.status == 200 || r.status == 400 || r.status == 401)
            && (r.status == 401 <==> ex.RefreshEx? && r.status != 200)
            && (r.status != 200 ==> r.cookie.None? && r.body.Message? && Truthy(r.body.message))
  {
  }

  /** Only logout sets a cookie without asking the provider, and every
      provider failure on login or refresh-session leaves the cookie alone. */
  lemma CookieOnlyFromProviderSession(cfg: Config, ex: Exchange, now: int)
    ensures var h := Handle(cfg, ex, now);
            h.response.cookie.Some? && !ex.LogoutEx? ==>
              && h.call.Some?
              && (ex.LoginEx? ==>
                    ex.loginCb.OnSuccess? && h.response.cookie.value.value == ex.loginCb.session.refreshToken)
              && (ex.RefreshEx? ==>
                    !Truthy(ex.refreshCb.err) && h.response.cookie.value.value == ex.refreshCb.result.refreshToken)
              && !ex.SignupEx? && !ex.ConfirmEx?
  {
  }

  /** When validation stops a request, the provider's callback has no bearing
      on the response: the provider was not asked. */
  lemma ValidationFailureIgnoresProvider(cfg: Config, ex: Exchange, other: Exchange, now: int, later: int)
    requires Handle(cfg, ex, now).call.None? && !ex.LogoutEx?
    requires SameRequest(ex, other)
    ensures Handle(cfg, other, later) == Handle(cfg, ex, now)
  {
  }

  /** Two exchanges on the same route with the same request, whatever the provider replies. */
  predicate SameRequest(a: Exchange, b: Exchange)
  {
    match a
    case SignupEx(body, _) => b.SignupEx? && b.body == body
    case LoginEx(body, _) => b.LoginEx? && b.body == body
    case LogoutEx(_, _) => b.LogoutEx?
    case RefreshEx(cookies, _) => b.RefreshEx? && b.cookies == cookies
    case ConfirmEx(body, _) => b.ConfirmEx? && b.body == body
  }

  /** The cookie's expiry is fixed by `auth_time` alone: two sessions with the
      same `auth_time` get the same expiry, whatever their `exp`, the route, or
      the time of the request. */
  lemma CookieExpiryDependsOnAuthTimeOnly(cfg: Config, a: Exchange, b: Exchange, nowA: int, nowB: int)
    requires a.LoginEx? || a.RefreshEx?
    requires b.LoginEx? || b.RefreshEx?
    requires Handle(cfg, a, nowA).response.cookie.Some? && Handle(cfg, b, nowB).response.cookie.Some?
    requires a.LoginEx? ==> a.loginCb.OnSuccess?
    requires b.LoginEx? ==> b.loginCb.OnSuccess?
    requires SessionOf(a).authTime == SessionOf(b).authTime
    ensures Handle(cfg, a, nowA).response.cookie.value.options == Handle(cfg, b, nowB).response.cookie.value.options
    ensures Handle(cfg, a, nowA).response.cookie.value.options.expires == SessionOf(a).authTime * 1000 + 2592000000
  {
  }

  /** The session a login or refresh-session exchange's provider reports on success. */
  function SessionOf(ex: Exchange): Session
    requires ex.LoginEx? ==> ex.loginCb.OnSuccess?
    requires ex.LoginEx? || ex.RefreshEx?
  {
    if ex.LoginEx? then ex.loginCb.session else ex.refreshCb.result
  }

  /** A login whose access token has `exp` 1700000000 and `auth_time`
      1699999000 answers with `jwt_expired` 1700000000000 and a cookie expiring
      at 1699999000000 + 2592000000. */
  lemma LoginScenario(cfg: Config, jwt: string, email: JsValue, refresh: string)
    ensures var body := map["email" := Str("a@b.c"), "password" := Str("pw")];
            var s := Session(jwt, 1700000000, 1699999000, email, refresh);
            var r := LoginRoute(cfg, body, OnSuccess(s)).response;
            r.status == 200 && r.body == Auth(jwt, 1700000000000, email)
            && r.cookie.value.options.expires == 1702591000000
  {
    var body := map["email" := Str("a@b.c"), "password" := Str("pw")];
    assert Field(body, "email") == Str("a@b.c") && Field(body, "password") == Str("pw");
  }
}
