/** The identity-client façade (src/auth/auth.service.js): error normalisation,
    and the four wrappers that hand one request to the user pool and settle a
    promise from the provider's callback. The provider itself is an input: the
    request it is given is part of the result, and the callback it makes is a
    parameter. */
module AuthService {
  import opened JsValues

  /** The sentinel returned when no usable message can be extracted. */
  const UnknownError: JsValue := Str("Unknown error")

  /** `extractError`: `err.message || 'Unknown error'`, and when reading
      `.message` throws, `err || 'Unknown error'`. */
  function ExtractError(err: JsValue): (r: JsValue)
    ensures Truthy(r)
    ensures Nullish(err) ==> r == UnknownError
    ensures !err.Obj? && !Nullish(err) ==> r == UnknownError
    ensures err.Obj? && Get(err.obj, "message") == None ==> r == err
    ensures err.Obj? && Get(err.obj, "message").Some? ==>
              r == (if Truthy(Get(err.obj, "message").value) then Get(err.obj, "message").value else UnknownError)
  {
    match GetMessage(err)
    case Some(m) => Or(m, UnknownError)
    case None => Or(err, UnknownError)
  }

  /** The normalised error is always the value's own truthy message, the error
      itself (only when reading its message threw), or the sentinel. */
  lemma ExtractErrorIsMessageOrSentinel(err: JsValue)
    ensures var r := ExtractError(err);
            r == UnknownError
            || (GetMessage(err) == Some(r) && Truthy(r))
            || (GetMessage(err) == None && r == err && err.Obj?)
  {
  }

  /** The catch branch is taken exactly when reading `.message` throws; for a
      value without accessor properties that is exactly `null` and `undefined`. */
  lemma CatchOnlyForNullish(err: JsValue)
    requires err.Obj? ==> NoGetters(err.obj)
    ensures GetMessage(err) == None <==> Nullish(err)
  {
    if err.Obj? {
      NoGettersGetIsSafe(err.obj, "message");
    }
  }

  /** ECMAScript's Error.prototype: its `message` is the empty string. */
  const ErrorPrototype: JsObject :=
    JsObject(map["message" := Data(Str("")), "name" := Data(Str("Error"))], None)

  /** `new Error(m)`: an own `message` only when one was given. */
  function NewError(message: Option<string>): JsObject
  {
    match message
    case None => JsObject(map[], Some(ErrorPrototype))
    case Some(m) => JsObject(map["message" := Data(Str(m))], Some(ErrorPrototype))
  }

  /** An Error with a non-empty message normalises to it; one without a message
      inherits the empty one from Error.prototype and normalises to the sentinel. */
  lemma ExtractErrorOfNewError(message: Option<string>)
    ensures message.Some? && message.value != "" ==> ExtractError(Obj(NewError(message))) == Str(message.value)
    ensures message.None? ==> ExtractError(Obj(NewError(message))) == UnknownError
  {
  }

  /** A raw string error is not passed through: `"Y".message` is `undefined`. */
  lemma ExtractErrorOfRawString(s: string)
    ensures ExtractError(Str(s)) == UnknownError
  {
  }

  /** The configuration of the user pool handle, from the environment. */
  datatype Pool = Pool(userPoolId: Option<string>, clientId: Option<string>)

  datatype Attribute = Attribute(name: string, value: JsValue)

  /** The one request a wrapper makes of the provider. */
  datatype ProviderCall =
    | SignUp(pool: Pool, username: JsValue, password: JsValue, attributes: seq<Attribute>, validationData: JsValue)
    | AuthenticateUser(pool: Pool, username: JsValue, password: JsValue)
    | RefreshSession(pool: Pool, username: JsValue, refreshToken: JsValue)
    | ConfirmRegistration(pool: Pool, username: JsValue, code: JsValue, forceAliasCreation: bool)

  /** A Node-style `(err, result)` callback from the provider. */
  datatype NodeCallback<R> = NodeCallback(err: JsValue, result: R)

  /** The `onSuccess` / `onFailure` callbacks of `authenticateUser`. */
  datatype AuthCallback = OnSuccess(session: Session) | OnFailure(err: JsValue)

  /** What the provider's `signUp` passes on success. */
  datatype SignUpResult = SignUpResult(user: JsValue, userConfirmed: bool, userSub: string)

  /** A user session: the access token (its JWT and its `exp` and `auth_time`
      claims, in seconds), the `email` claim of the id token, and the refresh token. */
  datatype Session = Session(accessJwt: string, exp: int, authTime: int, email: JsValue, refreshToken: string)

  /** How a promise settles. */
  datatype Settled<T> = Resolved(value: T) | Rejected(reason: JsValue)

  /** A wrapper call: the request made of the provider and the promise's outcome. */
  datatype Invocation<T> = Invocation(call: ProviderCall, settled: Settled<T>)

  /** `if (err) reject(extractError(err)); else resolve(result)`. */
  function SettleNode<R>(cb: NodeCallback<R>): (s: Settled<R>)
    ensures s.Rejected? <==> Truthy(cb.err)
    ensures s.Rejected? ==> s.reason == ExtractError(cb.err) && Truthy(s.reason)
    ensures s.Resolved? ==> s.value == cb.result
  {
    if Truthy(cb.err) then Rejected(ExtractError(cb.err)) else Resolved(cb.result)
  }

  /** `signup`: registers `email` with the e-mail attribute and no validation
      data (`null`), and resolves with `result.user` rather than the whole result. */
  function Signup(pool: Pool, email: JsValue, password: JsValue, cb: NodeCallback<SignUpResult>): (inv: Invocation<JsValue>)
    ensures inv.call == SignUp(pool, email, password, [Attribute("email", email)], Null)
    ensures inv.settled.Rejected? <==> Truthy(cb.err)
    ensures inv.settled.Rejected? ==> inv.settled.reason == ExtractError(cb.err)
    ensures inv.settled.Resolved? ==> inv.settled.value == cb.result.user
  {
    var s := SettleNode(cb);
    Invocation(SignUp(pool, email, password, [Attribute("email", email)], Null),
               match s case Resolved(r) => Resolved(r.user) case Rejected(e) => Rejected(e))
  }

  /** `login`: authenticates `email` with `password`; `onFailure` rejects
      whatever the error value is, `onSuccess` resolves with the session. */
  function Login(pool: Pool, email: JsValue, password: JsValue, cb: AuthCallback): (inv: Invocation<Session>)
    ensures inv.call == AuthenticateUser(pool, email, password)
    ensures inv.settled.Rejected? <==> cb.OnFailure?
    ensures cb.OnFailure? ==> inv.settled.reason == ExtractError(cb.err)
    ensures cb.OnSuccess? ==> inv.settled.value == cb.session
  {
    Invocation(AuthenticateUser(pool, email, password),
               match cb
               case OnSuccess(session) => Resolved(session)
               case OnFailure(err) => Rejected(ExtractError(err)))
  }

  /** `refreshSession`: exchanges the refresh token, untouched, for a new
      session, on behalf of a user with an empty name. */
  function RefreshSessionWith(pool: Pool, refreshToken: JsValue, cb: NodeCallback<Session>): (inv: Invocation<Session>)
    ensures inv.call == RefreshSession(pool, Str(""), refreshToken)
    ensures inv.settled.Rejected? <==> Truthy(cb.err)
    ensures inv.settled.Rejected? ==> inv.settled.reason == ExtractError(cb.err)
    ensures inv.settled.Resolved? ==> inv.settled.value == cb.result
  {
    Invocation(RefreshSession(pool, Str(""), refreshToken), SettleNode(cb))
  }

  /** `confirmSignup`: confirms `email` with `code`, forcing alias creation. */
  function ConfirmSignup(pool: Pool, email: JsValue, code: JsValue, cb: NodeCallback<JsValue>): (inv: Invocation<JsValue>)
    ensures inv.call == ConfirmRegistration(pool, email, code, true)
    ensures inv.settled.Rejected? <==> Truthy(cb.err)
    ensures inv.settled.Rejected? ==> inv.settled.reason == ExtractError(cb.err)
    ensures inv.settled.Resolved? ==> inv.settled.value == cb.result
  {
    Invocation(ConfirmRegistration(pool, email, code, true), SettleNode(cb))
  }

  /** Every rejection any wrapper produces carries a truthy reason, the
      normalised error; so `{message: e}` never holds a falsy message. */
  lemma RejectionsAreNormalised(pool: Pool, email: JsValue, secret: JsValue,
                                s: NodeCallback<SignUpResult>, a: AuthCallback,
                                r: NodeCallback<Session>, c: NodeCallback<JsValue>)
    ensures Signup(pool, email, secret, s).settled.Rejected? ==>
              Truthy(Signup(pool, email, secret, s).settled.reason)
    ensures Login(pool, email, secret, a).settled.Rejected? ==>
              Truthy(Login(pool, email, secret, a).settled.reason)
    ensures RefreshSessionWith(pool, secret, r).settled.Rejected? ==>
              Truthy(RefreshSessionWith(pool, secret, r).settled.reason)
    ensures ConfirmSignup(pool, email, secret, c).settled.Rejected? ==>
              Truthy(ConfirmSignup(pool, email, secret, c).settled.reason)
  {
  }
}
