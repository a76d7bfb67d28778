/** The parts of an HTTP response the handlers set: status, JSON body and cookie. */
module Http {
  import opened Wrappers
  import opened UserStore

  const OkStatus := 200
  const BadRequestStatus := 400
  const InternalErrorStatus := 500

  /** The options object handed to the cookie setter; `expires` is in milliseconds since the epoch. */
  datatype CookieOptions = CookieOptions(expires: int, httpOnly: bool, secure: bool, sameSite: string)

  datatype Cookie = Cookie(name: string, value: string, options: CookieOptions)

  /**
   * The JSON body: `{success: false, message}` or `{success: true, user, token}`.
   * A user column that is `None` is absent from the serialised body.
   */
  datatype Body = Failed(message: string) | Issued(user: User, token: string) {
    /** The body's `success` field. */
    predicate Succeeded() {
      Issued?
    }
  }

  datatype Response = Response(status: int, body: Body, cookie: Option<Cookie>)
}
