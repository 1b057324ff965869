/** The `protect` middleware of server/middleware/authMiddleware.js, from
    the passport callback's `(err, user, info)` to its one effect: a 401
    response or the user attached to the request and `next` called. */
module AuthMiddleware {
  import opened JsValues

  /** The `info` argument; `name` is the error class of a failed check. */
  datatype AuthInfo = AuthInfo(name: Option<string>)

  /** What passport hands the callback: `err` is whether the error argument
      is truthy, `user` is `None` when it is falsy (`false` when no user was
      found), `info` is `None` when it is absent. */
  datatype PassportVerdict<U> = PassportVerdict(err: bool, user: Option<U>, info: Option<AuthInfo>)

  /** The branch taken: `res.status(401).json({ message })`, or
      `req.user = user; next()`. */
  datatype GuardOutcome<U> = Unauthorized(status: int, message: string) | Proceed(user: U)

  const ExpiredMessage := "Not authorized, token expired"
  const InvalidMessage := "Not authorized, invalid token"
  const FailedMessage := "Not authorized, token failed"

  /** Whether `info && info.name === name`. */
  predicate InfoNamed(info: Option<AuthInfo>, name: string)
  {
    info.Some? && info.value.name == Some(name)
  }

  /** The passport callback of `protect` (lines 5-15). */
  function Protect<U>(v: PassportVerdict<U>): (r: GuardOutcome<U>)
    ensures r.Proceed? <==> !v.err && v.user.Some?
    ensures r.Proceed? ==> r.user == v.user.value
    ensures r.Unauthorized? ==> r.status == 401
    ensures r.Unauthorized? ==>
      && (r.message == ExpiredMessage <==> InfoNamed(v.info, "TokenExpiredError"))
      && (r.message == InvalidMessage <==> InfoNamed(v.info, "JsonWebTokenError"))
      && (r.message == FailedMessage <==>
            !InfoNamed(v.info, "TokenExpiredError") && !InfoNamed(v.info, "JsonWebTokenError"))
  {
    if v.err || v.user.None? then
      var message :=
        if InfoNamed(v.info, "TokenExpiredError") then ExpiredMessage
        else if InfoNamed(v.info, "JsonWebTokenError") then InvalidMessage
        else FailedMessage;
      Unauthorized(401, message)
    else
      Proceed(v.user.value)
  }

  /** The observable effects of one request on `res`, `req` and `next`. */
  datatype Effects<U> = Effects(status: Option<int>, jsonMessage: Option<string>, requestUser: Option<U>, nextCalls: nat)

  function EffectsOf<U>(o: GuardOutcome<U>): Effects<U>
  {
    match o
    case Unauthorized(status, message) => Effects(Some(status), Some(message), None, 0)
    case Proceed(user) => Effects(None, None, Some(user), 1)
  }

  /** On every path exactly one of "respond 401" and "call `next` once with
      the user attached" happens; an error wins even when a user is present. */
  lemma ExactlyOneEffect<U>(v: PassportVerdict<U>)
    ensures var e := EffectsOf(Protect(v));
      && (e.status.Some? <==> e.nextCalls == 0)
      && (e.status.Some? ==> e.status.value == 401 && e.requestUser.None? && e.jsonMessage.Some?)
      && (e.nextCalls == 1 <==> e.requestUser == v.user && !v.err && v.user.Some?)
      && e.nextCalls <= 1
    ensures v.err ==> EffectsOf(Protect(v)).nextCalls == 0
  {
  }
}
