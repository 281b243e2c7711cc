/** The refresh-credential lifecycle across requests: a browser keeps the
    `token` cookie the gateway sets, sends it back while it has not expired,
    and drops it when a Set-Cookie's expiry is not in the future (section 5.3
    of RFC 6265). Only the one site's cookies are kept; domain and path
    matching are not modelled. */
module SessionLifecycle {
  import opened JsValues
  import opened AuthService
  import opened AuthController

  datatype StoredCookie = StoredCookie(value: string, expires: int)

  /** The browser's cookies for the gateway, by name. */
  type Jar = map<string, StoredCookie>

  /** The cookies sent at `now`, as the cookie parser hands them to a handler. */
  function Sent(jar: Jar, now: int): (f: Fields)
    ensures forall k :: k in f <==> k in jar && jar[k].expires > now
    ensures forall k :: k in f ==> f[k] == Str(jar[k].value)
  {
    map k | k in jar && jar[k].expires > now :: Str(jar[k].value)
  }

  /** Applying a response's Set-Cookie, received at `now`. */
  function Store(jar: Jar, c: Option<SetCookie>, now: int): Jar
  {
    match c
    case None => jar
    case Some(sc) =>
      if sc.options.expires <= now then jar - {sc.name}
      else jar[sc.name := StoredCookie(sc.value, sc.options.expires)]
  }

  /** The browser's `token`, if it holds one, expires no later than `ceiling`. */
  predicate TokenExpiresBy(jar: Jar, ceiling: int)
  {
    "token" in jar ==> jar["token"].expires <= ceiling
  }

  /** After logout the browser holds no `token`, whatever it held before, and a
      later refresh-session is refused with 401 without asking the provider. */
  lemma LogoutEndsSession(cfg: Config, jar: Jar, body: Fields, cookies: Option<Fields>,
                          now: int, later: int, cb: NodeCallback<Session>)
    requires now <= later
    ensures var j := Store(jar, LogoutRoute(cfg, body, cookies, now).response.cookie, now);
            "token" !in j && RefreshSessionRoute(cfg, Some(Sent(j, later)), cb) == Handled(NoToken, None)
  {
    var j := Store(jar, LogoutRoute(cfg, body, cookies, now).response.cookie, now);
    assert "token" !in Sent(j, later);
  }

  /** Even a browser that kept the logout cookie would send an empty `token`,
      which refresh-session refuses in the same way. */
  lemma LogoutCookieValueIsRefused(cfg: Config, sent: Fields, body: Fields, cookies: Option<Fields>,
                                   now: int, cb: NodeCallback<Session>)
    ensures var c := LogoutRoute(cfg, body, cookies, now).response.cookie.value;
            RefreshSessionRoute(cfg, Some(sent[c.name := Str(c.value)]), cb) == Handled(NoToken, None)
  {
  }

  /** The refresh credential is opaque: the token a login stores is handed,
      unchanged, to the provider by a refresh-session made before it expires. */
  lemma LoginThenRefreshPassesToken(cfg: Config, jar: Jar, body: Fields, s: Session,
                                    now: int, later: int, cb: NodeCallback<Session>)
    requires Truthy(Field(body, "email")) && Truthy(Field(body, "password"))
    requires s.refreshToken != ""
    requires now <= later < s.authTime * 1000 + OneMonthMs
    ensures var j := Store(jar, LoginRoute(cfg, body, OnSuccess(s)).response.cookie, now);
            RefreshSessionRoute(cfg, Some(Sent(j, later)), cb).call
              == Some(RefreshSession(cfg.pool, Str(""), Str(s.refreshToken)))
  {
    var j := Store(jar, LoginRoute(cfg, body, OnSuccess(s)).response.cookie, now);
    assert j["token"] == StoredCookie(s.refreshToken, s.authTime * 1000 + OneMonthMs);
    assert Field(Sent(j, later), "token") == Str(s.refreshToken);
  }

  /** One refresh-session attempt: when it is made and what the provider replies. */
  datatype Attempt = Attempt(at: int, cb: NodeCallback<Session>)

  /** The browser's jar after making each attempt in turn. */
  function RefreshAll(cfg: Config, jar: Jar, attempts: seq<Attempt>): Jar
    decreases |attempts|
  {
    if attempts == [] then jar
    else
      var a := attempts[0];
      var h := RefreshSessionRoute(cfg, Some(Sent(jar, a.at)), a.cb);
      RefreshAll(cfg, Store(jar, h.response.cookie, a.at), attempts[1..])
  }

  /** Refreshing never moves the session's end: when every session the provider
      issues on success keeps an `auth_time` whose thirty-day window ends by `ceiling`,
      no sequence of refresh-session requests leaves a `token` expiring later. */
  lemma {:induction false} RefreshNeverExtends(cfg: Config, jar: Jar, attempts: seq<Attempt>, ceiling: int)
    requires TokenExpiresBy(jar, ceiling)
    requires forall i :: 0 <= i < |attempts| && !Truthy(attempts[i].cb.err) ==>
               attempts[i].cb.result.authTime * 1000 + OneMonthMs <= ceiling
    ensures TokenExpiresBy(RefreshAll(cfg, jar, attempts), ceiling)
  {
    if attempts != [] {
      var a := attempts[0];
      var h := RefreshSessionRoute(cfg, Some(Sent(jar, a.at)), a.cb);
      var next := Store(jar, h.response.cookie, a.at);
      assert TokenExpiresBy(next, ceiling);
      assert forall i :: 0 <= i < |attempts[1..]| ==> attempts[1..][i] == attempts[i + 1];
      RefreshNeverExtends(cfg, next, attempts[1..], ceiling);
    }
  }

  /** From the ceiling on, refresh-session is refused with 401 and the provider
      is not asked. */
  lemma NoRefreshPastCeiling(cfg: Config, jar: Jar, ceiling: int, now: int, cb: NodeCallback<Session>)
    requires TokenExpiresBy(jar, ceiling)
    requires ceiling <= now
    ensures RefreshSessionRoute(cfg, Some(Sent(jar, now)), cb) == Handled(NoToken, None)
  {
    assert "token" !in Sent(jar, now);
  }

  /** The absolute session ceiling: after a login whose session has `auth_time`
      A, and any refresh-session requests whose successful sessions keep A, a
      request made thirty days after A or later is refused without asking the
      provider. A login that validation stops sets no cookie, so then the jar
      from before must itself hold no later `token`. */
  lemma SessionCeiling(cfg: Config, jar: Jar, body: Fields, s: Session, loginAt: int,
                       attempts: seq<Attempt>, now: int, cb: NodeCallback<Session>)
    requires (Truthy(Field(body, "email")) && Truthy(Field(body, "password")))
             || TokenExpiresBy(jar, s.authTime * 1000 + OneMonthMs)
    requires forall i :: 0 <= i < |attempts| && !Truthy(attempts[i].cb.err) ==>
               attempts[i].cb.result.authTime == s.authTime
    requires s.authTime * 1000 + OneMonthMs <= now
    ensures var afterLogin := Store(jar, LoginRoute(cfg, body, OnSuccess(s)).response.cookie, loginAt);
            RefreshSessionRoute(cfg, Some(Sent(RefreshAll(cfg, afterLogin, attempts), now)), cb)
              == Handled(NoToken, None)
  {
    var ceiling := s.authTime * 1000 + OneMonthMs;
    var afterLogin := Store(jar, LoginRoute(cfg, body, OnSuccess(s)).response.cookie, loginAt);
    assert TokenExpiresBy(afterLogin, ceiling);
    RefreshNeverExtends(cfg, afterLogin, attempts, ceiling);
    NoRefreshPastCeiling(cfg, RefreshAll(cfg, afterLogin, attempts), ceiling, now, cb);
  }
}
