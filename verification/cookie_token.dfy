/**
 * The session issuer: signs a token from the user's identity, sets it as a
 * cookie and writes the success response with sensitive columns cleared.
 */
module CookieToken {
  import opened Wrappers
  import opened UserStore
  import opened Http

  /** Seven days, in milliseconds. */
  const SessionLifetimeMs: int := 7 * 24 * 60 * 60 * 1000
  const TokenCookieName := "token"
  const StrictSameSite := "Strict"
  const ProductionEnv := "production"

  /**
   * The token signer, taking `(id, email, role)`. Its internals are not part of
   * this model.
   */
  type Signer = (Id, Option<string>, Option<string>) -> string

  /** The token, the options and the response one call produces. */
  datatype Session = Session(response: Response, token: string, options: CookieOptions)

  /**
   * The role the issuer reads from the user. A stored user has a `userType`
   * column and no `role` column, so the read is always `undefined`.
   */
  function Role(u: User): Option<string> {
    None
  }

  /** The cookie options, given the clock reading and the runtime mode. */
  function Options(now: int, nodeEnv: Option<string>): (o: CookieOptions)
    ensures o.expires == now + 604800000
    ensures o.httpOnly
    ensures o.secure <==> nodeEnv == Some("production")
    ensures o.sameSite == "Strict"
  {
    CookieOptions(now + SessionLifetimeMs, true, nodeEnv == Some(ProductionEnv), StrictSameSite)
  }

  /** The user as it goes into the body: password and createdAt cleared, all else kept. */
  function ClearSensitive(u: User): (v: User)
    ensures v.password.None? && v.createdAt.None?
    ensures v.(password := u.password, createdAt := u.createdAt) == u
  {
    u.(password := None, createdAt := None)
  }

  /** `cookieToken(user, res)`: the response it writes and the `{token, options}` it returns. */
  function IssueSession(user: User, now: int, nodeEnv: Option<string>, sign: Signer): (s: Session)
    ensures s.response.status == 200
    ensures s.response.body.Succeeded() && s.response.body.token == s.token
    ensures s.response.body.user.password.None? && s.response.body.user.createdAt.None?
    ensures s.response.body.user == ClearSensitive(user)
    ensures s.response.cookie == Some(Cookie("token", s.token, s.options))
    ensures s.options == Options(now, nodeEnv)
    ensures s.token == sign(user.id, user.email, None)
  {
    var token := sign(user.id, user.email, Role(user));
    var options := Options(now, nodeEnv);
    Session(Response(OkStatus, Issued(ClearSensitive(user), token), Some(Cookie(TokenCookieName, token, options))),
            token, options)
  }

  /** The token depends on the id and email only: name, userType and every other column are ignored. */
  lemma TokenDependsOnlyOnIdAndEmail(u1: User, u2: User, now1: int, now2: int, env1: Option<string>, env2: Option<string>, sign: Signer)
    requires u1.id == u2.id && u1.email == u2.email
    ensures IssueSession(u1, now1, env1, sign).token == IssueSession(u2, now2, env2, sign).token
  {
  }
}
