/**
 * The signup handler: validate the five required fields, refuse a duplicate
 * email or phone, hash the password, create the row and hand the row without
 * its password to the session issuer. Anything thrown on the way is caught and
 * mapped to a 400 (unique-constraint code) or a 500.
 */
module UserController {
  import opened Wrappers
  import opened UserStore
  import opened Http
  import CookieToken

  /** The bcrypt work factor. */
  const SaltRounds: nat := 12
  const DefaultUserType := "USER"

  const MissingFieldsMessage := "All fields are required: name, email, phone, password, location"
  const DuplicateMessage := "User already exists with this email or phone"
  const ConflictMessage := "Email or phone already exists"
  const InternalErrorMessage := "Internal server error"

  /** The request body; a field missing from the JSON is `None`. */
  datatype Request = Request(
    name: Option<string>,
    email: Option<string>,
    phone: Option<string>,
    password: Option<string>,
    location: Option<string>,
    userType: Option<string>)

  /** The password hasher, taking `(plaintext, rounds)`. Its internals are not part of this model. */
  type Hasher = (string, nat) -> string

  /** Where an exception can be thrown inside the handler's `try`. */
  datatype Stage =
    | Lookup   // the duplicate query
    | Insert   // the create call, e.g. a concurrent signup winning the race for the email
    | Session  // the session issuer, e.g. the token signer failing

  /** An exception thrown at `stage` carrying the error code `code`. */
  datatype Fault = Fault(stage: Stage, code: string)

  /**
   * Everything the handler takes from outside the request: the identifier the
   * store assigns, the clock, the runtime mode and an optional exception.
   */
  datatype Env = Env(newId: Id, now: int, nodeEnv: Option<string>, fault: Option<Fault>)

  /** The store after the call and the response written. */
  datatype Outcome = Outcome(store: Store, response: Response)

  /** JavaScript truthiness of a string field: neither absent nor empty. */
  predicate Present(f: Option<string>) {
    f.Some? && f.value != ""
  }

  /** The validation gate: the five required fields are truthy; `userType` is not among them. */
  predicate Validate(req: Request) {
    Present(req.name) && Present(req.email) && Present(req.phone) && Present(req.password) && Present(req.location)
  }

  /** The duplicate query: some stored user has this email or this phone. */
  predicate HasConflict(s: Store, email: string, phone: string) {
    exists k :: k in s && (s[k].email == Some(email) || s[k].phone == Some(phone))
  }

  function FaultAt(env: Env, stage: Stage): Option<string> {
    if env.fault.Some? && env.fault.value.stage == stage then Some(env.fault.value.code) else None
  }

  /** The `userType || "USER"` default. */
  function UserTypeOrDefault(userType: Option<string>): (t: string)
    ensures Present(userType) ==> t == userType.value
    ensures !Present(userType) ==> t == "USER"
  {
    if Present(userType) then userType.value else DefaultUserType
  }

  /** The columns the handler creates: the hashed password, the userType default, no avatar. */
  function NewFields(req: Request, hash: Hasher): (d: Fields)
    requires Validate(req)
    ensures d.password == Some(hash(req.password.value, 12))
    ensures d.userType == Some(UserTypeOrDefault(req.userType))
    ensures d.name == req.name && d.email == req.email && d.phone == req.phone && d.location == req.location
    ensures d.avatar.None?
  {
    Fields(req.name, req.email, req.phone, Some(hash(req.password.value, SaltRounds)), req.location,
           Some(UserTypeOrDefault(req.userType)), None)
  }

  /** The row a successful signup stores. */
  function NewRecord(req: Request, env: Env, hash: Hasher): User
    requires Validate(req)
  {
    Materialize(env.newId, NewFields(req, hash), env.now)
  }

  /** The object handed to the session issuer: the row without its password. */
  function StripPassword(u: User): (v: User)
    ensures v.password.None?
    ensures v.(password := u.password) == u
  {
    u.(password := None)
  }

  function Rejected(message: string): Response {
    Response(BadRequestStatus, Failed(message), None)
  }

  /** The catch block: a unique-constraint code is a 400 naming the conflict, anything else a generic 500. */
  function Caught(code: string): (r: Response)
    ensures code == "P2002" ==> r == Response(400, Failed("Email or phone already exists"), None)
    ensures code != "P2002" ==> r == Response(500, Failed("Internal server error"), None)
  {
    if code == UniqueViolationCode then Rejected(ConflictMessage)
    else Response(InternalErrorStatus, Failed(InternalErrorMessage), None)
  }

  /** `signup(req, res)`. */
  function Signup(s: Store, req: Request, env: Env, hash: Hasher, sign: CookieToken.Signer): (r: Outcome)
    // the validation gate
    ensures !Validate(req) ==> r == Outcome(s, Response(400, Failed(MissingFieldsMessage), None))
    // the duplicate check
    ensures Validate(req) && FaultAt(env, Lookup).None? && HasConflict(s, req.email.value, req.phone.value) ==>
      r == Outcome(s, Response(400, Failed(DuplicateMessage), None))
    // exceptions reach the catch block
    ensures (Validate(req) && env.fault.Some? &&
             (env.fault.value.stage == Lookup ||
              (!HasConflict(s, req.email.value, req.phone.value) && (env.fault.value.stage == Insert || env.newId !in s))))
      ==> r.response == Caught(env.fault.value.code)
    // the store's own constraint on the identifier
    ensures (Validate(req) && FaultAt(env, Lookup).None? && FaultAt(env, Insert).None? &&
             !HasConflict(s, req.email.value, req.phone.value) && env.newId in s)
      ==> r == Outcome(s, Caught("P2002"))
    ensures r.response.status == 200 || r.response.status == 400 || r.response.status == 500
    ensures r.response.status != 200 ==> !r.response.body.Succeeded() && r.response.cookie.None?
    // when it succeeds
    ensures r.response.status == 200 <==>
      Validate(req) && env.fault.None? && !HasConflict(s, req.email.value, req.phone.value) && env.newId !in s
    ensures r.response.status == 200 ==>
      var u := NewRecord(req, env, hash);
      && r.store == s[env.newId := u]
      && r.response.body == Issued(u.(password := None, createdAt := None), sign(env.newId, req.email, None))
      && r.response.cookie == Some(Cookie("token", r.response.body.token, CookieToken.Options(env.now, env.nodeEnv)))
    // the store changes only by one new row
    ensures r.store == s || (env.newId !in s && r.store == s[env.newId := NewRecord(req, env, hash)])
    ensures (Validate(req) && env.fault.Some? && env.fault.value.stage == Session &&
             !HasConflict(s, req.email.value, req.phone.value) && env.newId !in s)
      ==> r.store == s[env.newId := NewRecord(req, env, hash)]
    ensures r.store != s ==> r.response.status == 200 || (Validate(req) && env.fault == Some(Fault(Session, env.fault.value.code)))
    ensures Valid(s) ==> Valid(r.store)
  {
    if !Validate(req) then Outcome(s, Rejected(MissingFieldsMessage))
    else if FaultAt(env, Lookup).Some? then Outcome(s, Caught(FaultAt(env, Lookup).value))
    else if HasConflict(s, req.email.value, req.phone.value) then Outcome(s, Rejected(DuplicateMessage))
    else if FaultAt(env, Insert).Some? then Outcome(s, Caught(FaultAt(env, Insert).value))
    else
      match Create(s, env.newId, NewFields(req, hash), env.now)
      case Failure(e) => Outcome(s, Caught(Code(e)))
      case Success(s') =>
        if FaultAt(env, Session).Some? then Outcome(s', Caught(FaultAt(env, Session).value))
        else
          var user := StripPassword(NewRecord(req, env, hash));
          Outcome(s', CookieToken.IssueSession(user, env.now, env.nodeEnv, sign).response)
  }
}

/** Properties relating signup calls to each other and to concrete requests. */
module SignupProperties {
  import opened Wrappers
  import opened UserStore
  import opened Http
  import opened UserController

  /** `userType` plays no part in validation: changing it alone never changes the verdict. */
  lemma UserTypeNotRequired(req: Request, t: Option<string>)
    ensures Validate(req.(userType := t)) == Validate(req)
  {
  }

  /**
   * After a signup succeeds, a later request that shares its email or its phone
   * is refused as a duplicate and creates nothing.
   */
  lemma SecondSignupIsDuplicate(s: Store, req: Request, env: Env, req2: Request, env2: Env,
                                                   hash: Hasher, sign: CookieToken.Signer)
    requires Signup(s, req, env, hash, sign).response.status == 200
    requires Validate(req2) && FaultAt(env2, Lookup).None?
    requires req2.email == req.email || req2.phone == req.phone
    ensures var s1 := Signup(s, req, env, hash, sign).store;
      Signup(s1, req2, env2, hash, sign) == Outcome(s1, Response(400, Failed(DuplicateMessage), None))
  {
  }

  /** The hash replaces the plaintext: with a hasher that never returns its input, the stored password differs from it. */
  lemma StoredPasswordIsNotPlaintext(s: Store, req: Request, env: Env, hash: Hasher, sign: CookieToken.Signer)
    requires forall p: string, n: nat {:trigger hash(p, n)} :: hash(p, n) != p
    requires Signup(s, req, env, hash, sign).response.status == 200
    ensures Signup(s, req, env, hash, sign).store[env.newId].password != req.password
  {
  }

  /** Signup of a complete request on an empty store, outside production, without faults. */
  lemma FirstSignupOnEmptyStore(hash: Hasher, sign: CookieToken.Signer)
    ensures var req := Request(Some("Ada"), Some("ada@x.com"), Some("555"), Some("secret1"), Some("NYC"), None);
      var r := Signup(map[], req, Env("u1", 1000, Some("development"), None), hash, sign);
      && r.response.status == 200
      && r.store.Keys == {"u1"}
      && r.store["u1"].userType == Some("USER")
      && r.store["u1"].password == Some(hash("secret1", 12))
      && r.response.body.Succeeded() && r.response.body.user.password.None?
      && r.response.cookie.Some? && r.response.cookie.value.options.expires == 604801000
      && !r.response.cookie.value.options.secure
  {
  }

  /** A second signup with the same email and another phone is refused and the store keeps one matching row. */
  lemma SameEmailOtherPhone(hash: Hasher, sign: CookieToken.Signer)
    ensures var req := Request(Some("Ada"), Some("ada@x.com"), Some("555"), Some("secret1"), Some("NYC"), None);
      var req2 := req.(phone := Some("556"));
      var s1 := Signup(map[], req, Env("u1", 1000, None, None), hash, sign).store;
      var r := Signup(s1, req2, Env("u2", 2000, None, None), hash, sign);
      && r.response == Response(400, Failed("User already exists with this email or phone"), None)
      && r.store == s1 && r.store.Keys == {"u1"}
  {
  }
}
