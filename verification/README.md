# User signup, session issuing and identity-provider sync — a Dafny model

This project models the decision logic of a small real-estate backend:

- **Signup** (`controllers/userControllers.js`): a validation gate over five
  required fields, a duplicate query on email OR phone, bcrypt hashing with 12
  rounds, creation of the user row with `userType` defaulting to `"USER"`,
  removal of the password before the session step, and the catch block that
  maps a unique-constraint error (`P2002`) to 400 and everything else to 500.
- **Session issuing** (`utils/cookieToken.js`): the token signed from
  `(id, email, role)`, the cookie options (7-day expiry in milliseconds,
  `httpOnly`, `secure` only when `NODE_ENV` is `"production"`,
  `sameSite: "Strict"`), clearing of `password` and `createdAt`, the 200
  response `{success: true, user, token}` and the returned `{token, options}`.
- **Identity-provider sync** (`inngest/index.js`): the handlers for
  `clerk/user.created`, `clerk/user.updated` and `clerk/user.deleted`, which
  translate the payload (first entry of `email_addresses` becomes `email`,
  `image_url` becomes `avatar`) and create, update or delete the row keyed by
  `id`.

The user table is an immutable `map<Id, User>` (module `UserStore`) with the
unique constraints on `id`, `email` and `phone` that the `P2002` handling
relies on; `Valid` is the invariant "keys are ids, emails and phones are each
unique". Every operation is a pure function. The hasher and the token signer
are function-typed parameters; the clock (`Date.now()`), `NODE_ENV`, the
identifier the store assigns and any exception thrown inside signup's `try`
are parameters too (`UserController.Env`).

Modules: `Wrappers` (Option/Result), `UserStore` (the table and its writes),
`Http` (response, body and cookie shapes), `CookieToken`, `UserController`
with `SignupProperties`, and `ClerkSync` with `ClerkSyncProperties`.

Behaviour of the code worth noting:

- The updated handler passes `undefined` for every key the payload lacks, and
  the database client leaves such a column untouched. So the handler
  overwrites only the columns the payload supplies and does not blank the
  others. This includes `email`: an entry of `email_addresses` without
  `email_address` leaves the stored email as it is on update, and stores a
  null email on create.
- The created handler stores `userType` as received; there is no `"USER"`
  default on that path.
- The token is signed with `user.role`, and a stored user has a `userType`
  column but no `role` column. The signer therefore always receives
  `undefined` as the role (`CookieToken.Role`).
- On success the status is 200, set by the session issuer.
- If the token signer throws after the row was created, the caller gets a
  500 and the row stays.

## Model

| member | source | states |
|---|---|---|
| UserStore.Create | inngest/index.js:24 | an insert succeeds exactly when the id is new and neither the email nor the phone is already taken, otherwise it fails with the unique-constraint error; on success the store gains exactly one row under that id with the supplied columns and the creation time, every prior row is unchanged, and the integrity invariant is kept |
| UserStore.Update | inngest/index.js:55 | an update fails with not-found exactly when the id is absent, succeeds exactly when it is present and the written email/phone clash with no other row; on success the key set is the same, only that row changes (supplied columns replaced, absent ones kept, id and creation time kept) and the invariant is kept |
| UserStore.Delete | inngest/index.js:35 | a delete succeeds exactly when the id is present, removes exactly that key, leaves every other row unchanged and keeps the invariant; otherwise it fails with not-found |
| UserStore.CreateThenDelete | inngest/index.js:24-35 | deleting a row just created restores the store exactly |
| UserStore.UpdateIdempotent | inngest/index.js:55 | applying the same update twice gives the same store as applying it once |
| UserStore.UpdateWithOwnFields | inngest/index.js:55 | in a valid store, writing a row's own columns back changes nothing |
| CookieToken.Options | utils/cookieToken.js:5-10 | expiry is the clock reading plus 604800000 ms (7 days), httpOnly is always set, sameSite is always "Strict", and secure holds exactly when NODE_ENV is "production" |
| CookieToken.ClearSensitive | utils/cookieToken.js:11-12 | the user in the body has no password and no createdAt, and every other column is as given |
| CookieToken.IssueSession | utils/cookieToken.js:3-20 | status 200, body `{success: true, user, token}` whose user has password and createdAt cleared whatever the input held, a cookie named "token" carrying exactly the returned token and options, and a token signed from (id, email, undefined role) |
| CookieToken.TokenDependsOnlyOnIdAndEmail | utils/cookieToken.js:4 | two users with the same id and email get the same token, whatever their userType, name or other columns, clock or mode |
| UserController.UserTypeOrDefault | controllers/userControllers.js:46 | the stored userType is the supplied one when it is non-empty and "USER" otherwise |
| UserController.NewFields | controllers/userControllers.js:35-47 | the created row's password is hash(password, 12), its userType follows the default rule, name/email/phone/location are as submitted and there is no avatar |
| UserController.StripPassword | controllers/userControllers.js:50-51 | the object handed to the session issuer has no password and otherwise equals the created row |
| UserController.Caught | controllers/userControllers.js:56-71 | an error with code P2002 gives 400 "Email or phone already exists"; any other gives 500 "Internal server error" |
| UserController.Signup | controllers/userControllers.js:6-72 | a missing or empty required field gives 400 with the store unchanged; a stored user with the same email or phone gives 400 with the duplicate message and no row; thrown errors reach the catch mapping; the result is 200 exactly when validation passes, nothing throws, there is no duplicate and the id is new, and then the store gains exactly the new row, the body user has no password or createdAt and the cookie carries the token; when the session step throws after a successful insert the new row stays although the response is the caught error; in every other case the store is unchanged; email/phone uniqueness is preserved |
| SignupProperties.UserTypeNotRequired | controllers/userControllers.js:11 | changing or removing userType alone never changes the validation verdict |
| SignupProperties.SecondSignupIsDuplicate | controllers/userControllers.js:19-33 | after a successful signup, a valid request sharing its email or its phone whose duplicate query does not throw is refused with 400 and the duplicate message, and the store stays as it is |
| SignupProperties.StoredPasswordIsNotPlaintext | controllers/userControllers.js:36-44 | for a hasher that never returns its input, the stored password after a successful signup differs from the submitted plaintext |
| SignupProperties.FirstSignupOnEmptyStore | controllers/userControllers.js:6-54 | the Ada request on an empty store outside production succeeds with 200, one row whose userType is "USER" and whose password is the hash, a body without password, and a non-secure cookie expiring 7 days later |
| SignupProperties.SameEmailOtherPhone | controllers/userControllers.js:19-33 | a second signup with the same email and another phone gets 400 with the duplicate message, and the store keeps its single row |
| ClerkSync.UserData | inngest/index.js:13-23 | an empty email list is a failure; otherwise email is the first entry's address (absent when that entry has none), avatar is image_url, and name, phone, password, location and userType are copied verbatim |
| ClerkSync.SaveUserData | inngest/index.js:12-25 | an empty email list fails before any write; otherwise it succeeds exactly when the id is new and the mapped email/phone clash with no stored row, and fails with the unique-constraint error otherwise; on success the row is keyed by the payload id with the mapped columns (userType verbatim, no default), prior rows unchanged, invariant kept |
| ClerkSync.UpdateUserData | inngest/index.js:44-56 | an empty email list fails before any write; an absent id is not-found; otherwise it succeeds exactly when the mapped email/phone clash with no other row, and fails with the unique-constraint error otherwise; on success only the row with that id changes, its id and creation time are kept, email (from the first address) and every other mapped column are overwritten when supplied; invariant kept |
| ClerkSync.DeleteUserData | inngest/index.js:33-36 | succeeds exactly when the id is present, removes exactly that row and leaves the others unchanged; an absent id is not-found |
| ClerkSync.Dispatch | inngest/index.js:8-60 | a created event runs the created handler with the delivery time, an updated event the updated handler, a deleted event the delete handler on the payload id; an event no registered function listens to changes nothing; every successful dispatch keeps the invariant |
| ClerkSync.Replay | inngest/index.js:60 | a sequence of deliveries, failed ones leaving the store as it was, keeps the invariant |
| ClerkSyncProperties.CreateThenRename | inngest/index.js:24-55 | a created event then an updated event for the same id changing only the name succeeds, gives the new name, keeps the id and leaves every other column as created |
| ClerkSyncProperties.CreateThenDelete | inngest/index.js:24-35 | a created event then a deleted event for the same id restores the store |
| ClerkSyncProperties.UpdateRedelivery | inngest/index.js:55 | redelivering a successful updated event changes nothing further |
| ClerkSyncProperties.DeleteRedelivery | inngest/index.js:35 | redelivering a successful deleted event is a not-found failure, not a silent success |
| ClerkSyncProperties.ReplayConcat | inngest/index.js:60 | delivering one sequence of events and then another gives the same store as delivering them concatenated, since the store is the only state the handlers share |
| ClerkSyncProperties.ReplayUnlistened | inngest/index.js:8-60 | deliveries whose event names none of the three registered functions listens to leave the store unchanged |

## Left out

- HTTP server wiring, middleware, routing and the event-ingestion endpoint (`index.js`, `routes/userRoutes.js`) are not part of this model: they are framework configuration with no decision logic.
- The database connection and its logging (`db/index.js`) are not part of this model: they are I/O.
- The internals of bcrypt, token signing (`helpers/getJwtToken.js` is not part of this model), the database client and the event client are left out. The hasher and signer are uninterpreted function parameters. The table is an abstract map whose writes enforce unique `id`, `email` and `phone`, and a missing row on update/delete is a not-found error.
- The database schema is not part of this model. Column defaults (for example a schema-level default for `userType` on the created-event path) and the store-assigned identifier format are not modelled; the new identifier is a parameter.
- Request fields and event payload fields are strings or absent. Non-string JSON values (numbers, booleans, objects) and the difference between `null` and a missing key are not modelled. In particular, an explicit `null` in an updated event (for example `"phone": null`) would make the client write NULL, whereas the model treats it like a missing key and keeps the column.
- Event payloads always carry an `id`. A payload without one depends on the schema and the client's validation, neither of which is visible. A missing `email_addresses` list is treated like an empty one, since both throw before any write.
- The concurrency behind the check-then-create race is represented only by the optional exception `UserController.Fault` at the insert stage. Transient store failures inside event handlers and the delivery layer's retries are not modelled; `ClerkSync.Replay` simply skips a failed event.
- Console logging is left out.
- The serialisation of the cookie's `Date` and the range limit of JavaScript dates are left out; the expiry stays an integer number of milliseconds.
- SignupProperties.StoredPasswordIsNotPlaintext: states "not the plaintext" only for a hasher that never returns its own input, because bcrypt's output format is not modelled.
