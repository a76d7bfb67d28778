/**
 * The three identity-provider event handlers: each translates the event's
 * user payload into store columns and performs one store write keyed by `id`.
 * A handler's failure propagates to the event-delivery layer; no response is
 * written.
 */
module ClerkSync {
  import opened Wrappers
  import opened UserStore

  const UserCreatedEvent := "clerk/user.created"
  const UserUpdatedEvent := "clerk/user.updated"
  const UserDeletedEvent := "clerk/user.deleted"

  /** One entry of `email_addresses`; an entry without `email_address` has `None`. */
  datatype EmailAddress = EmailAddress(emailAddress: Option<string>)

  /** The event's `data`; a key absent from the payload is `None`. */
  datatype UserPayload = UserPayload(
    id: Id,
    name: Option<string>,
    emailAddresses: seq<EmailAddress>,
    phone: Option<string>,
    password: Option<string>,
    location: Option<string>,
    userType: Option<string>,
    imageUrl: Option<string>)

  datatype Event = Event(name: string, data: UserPayload)

  /** An event delivered at clock reading `at` (milliseconds). */
  datatype Delivery = Delivery(event: Event, at: int)

  datatype HandlerError =
    | MissingPrimaryEmail              // `email_addresses[0]` is undefined: a TypeError before any write
    | StoreRejected(error: StoreError) // the write itself failed

  /**
   * The payload-to-columns translation both the created and the updated handler
   * perform: the first email address becomes `email`, `image_url` becomes
   * `avatar`, the rest is copied verbatim (no `userType` default).
   */
  function UserData(p: UserPayload): (r: Result<Fields, HandlerError>)
    ensures r.Failure? <==> |p.emailAddresses| == 0
    ensures r.Failure? ==> r.error == MissingPrimaryEmail
    ensures r.Success? ==>
      && r.value.email == p.emailAddresses[0].emailAddress
      && r.value.avatar == p.imageUrl
      && r.value.name == p.name && r.value.phone == p.phone && r.value.password == p.password
      && r.value.location == p.location && r.value.userType == p.userType
  {
    if |p.emailAddresses| == 0 then Failure(MissingPrimaryEmail)
    else Success(Fields(p.name, p.emailAddresses[0].emailAddress, p.phone, p.password, p.location,
                        p.userType, p.imageUrl))
  }

  function Lift(r: Result<Store, StoreError>): Result<Store, HandlerError> {
    match r
    case Success(s) => Success(s)
    case Failure(e) => Failure(StoreRejected(e))
  }

  /** `saveUserData`: create the row keyed by the payload's `id`. */
  function SaveUserData(s: Store, p: UserPayload, now: int): (r: Result<Store, HandlerError>)
    ensures |p.emailAddresses| == 0 ==> r == Failure(MissingPrimaryEmail)
    ensures |p.emailAddresses| > 0 ==> (r.Success? <==> p.id !in s && !Clashes(s, p.id, UserData(p).value))
    ensures r.Failure? && |p.emailAddresses| > 0 ==> r.error == StoreRejected(UniqueViolation)
    ensures r.Success? ==>
      && p.id !in s
      && r.value.Keys == s.Keys + {p.id}
      && (forall k :: k in s ==> r.value[k] == s[k])
      && r.value[p.id].id == p.id
      && r.value[p.id].email == p.emailAddresses[0].emailAddress
      && r.value[p.id].avatar == p.imageUrl
      && r.value[p.id].userType == p.userType
      && r.value[p.id].name == p.name && r.value[p.id].phone == p.phone
      && r.value[p.id].password == p.password && r.value[p.id].location == p.location
    ensures p.id in s && |p.emailAddresses| > 0 ==> r == Failure(StoreRejected(UniqueViolation))
    ensures r.Success? && Valid(s) ==> Valid(r.value)
  {
    var data :- UserData(p);
    Lift(Create(s, p.id, data, now))
  }

  /** `updateUserData`: rewrite the row with the payload's `id`; the `id` itself is not among the columns written. */
  function UpdateUserData(s: Store, p: UserPayload): (r: Result<Store, HandlerError>)
    ensures |p.emailAddresses| == 0 ==> r == Failure(MissingPrimaryEmail)
    ensures |p.emailAddresses| > 0 && p.id !in s ==> r == Failure(StoreRejected(RecordNotFound))
    ensures |p.emailAddresses| > 0 ==> (r.Success? <==> p.id in s && !Clashes(s, p.id, UserData(p).value))
    ensures |p.emailAddresses| > 0 && p.id in s && r.Failure? ==> r.error == StoreRejected(UniqueViolation)
    ensures r.Success? ==>
      && r.value.Keys == s.Keys
      && (forall k :: k in s && k != p.id ==> r.value[k] == s[k])
      && r.value[p.id].id == s[p.id].id
      && r.value[p.id].createdAt == s[p.id].createdAt
      && r.value[p.id].email == Overwrite(s[p.id].email, p.emailAddresses[0].emailAddress)
      && r.value[p.id].avatar == Overwrite(s[p.id].avatar, p.imageUrl)
      && r.value[p.id].name == Overwrite(s[p.id].name, p.name)
      && r.value[p.id].phone == Overwrite(s[p.id].phone, p.phone)
      && r.value[p.id].password == Overwrite(s[p.id].password, p.password)
      && r.value[p.id].location == Overwrite(s[p.id].location, p.location)
      && r.value[p.id].userType == Overwrite(s[p.id].userType, p.userType)
    ensures r.Success? && Valid(s) ==> Valid(r.value)
  {
    var data :- UserData(p);
    Lift(Update(s, p.id, data))
  }

  /** `deleteUserData`: remove the row with the given `id`. */
  function DeleteUserData(s: Store, id: Id): (r: Result<Store, HandlerError>)
    ensures r.Success? <==> id in s
    ensures r.Failure? ==> r.error == StoreRejected(RecordNotFound)
    ensures r.Success? ==> r.value.Keys == s.Keys - {id} && forall k :: k in r.value ==> r.value[k] == s[k]
    ensures r.Success? && Valid(s) ==> Valid(r.value)
  {
    Lift(Delete(s, id))
  }

  /** True when one of the registered functions is triggered by events named `name`. */
  predicate Listened(name: string) {
    name == UserCreatedEvent || name == UserUpdatedEvent || name == UserDeletedEvent
  }

  /** The registered functions, each triggered by its event name; an event no function listens to changes nothing. */
  function Dispatch(s: Store, d: Delivery): (r: Result<Store, HandlerError>)
    ensures !Listened(d.event.name) ==> r == Success(s)
    ensures d.event.name == "clerk/user.created" ==> r == SaveUserData(s, d.event.data, d.at)
    ensures d.event.name == "clerk/user.updated" ==> r == UpdateUserData(s, d.event.data)
    ensures d.event.name == "clerk/user.deleted" ==> r == DeleteUserData(s, d.event.data.id)
    ensures r.Success? && Valid(s) ==> Valid(r.value)
  {
    var e := d.event;
    if e.name == UserCreatedEvent then SaveUserData(s, e.data, d.at)
    else if e.name == UserUpdatedEvent then UpdateUserData(s, e.data)
    else if e.name == UserDeletedEvent then DeleteUserData(s, e.data.id)
    else Success(s)
  }

  /**
   * The store after a sequence of deliveries, in order, where an event whose
   * handler fails leaves the store as it was.
   */
  function Replay(s: Store, ds: seq<Delivery>): (r: Store)
    ensures Valid(s) ==> Valid(r)
    decreases |ds|
  {
    if |ds| == 0 then s
    else
      var next := Dispatch(s, ds[0]);
      Replay(if next.Success? then next.value else s, ds[1..])
  }
}

/** Properties relating the event handlers to each other. */
module ClerkSyncProperties {
  import opened Wrappers
  import opened UserStore
  import opened ClerkSync

  /**
   * Round trip: a created event followed by an updated event for the same
   * `id` that changes only the name leaves a row with the new name, the same
   * `id` and every other column as created.
   */
  lemma CreateThenRename(s: Store, p: UserPayload, now: int, newName: string)
    requires SaveUserData(s, p, now).Success?
    ensures var s1 := SaveUserData(s, p, now).value;
      var r := UpdateUserData(s1, p.(name := Some(newName)));
      && r.Success?
      && r.value[p.id].name == Some(newName)
      && r.value[p.id].id == p.id
      && r.value[p.id] == s1[p.id].(name := Some(newName))
  {
  }

  /** A created event followed by a deleted event for the same `id` gives back the store as it was. */
  lemma CreateThenDelete(s: Store, p: UserPayload, now: int)
    requires SaveUserData(s, p, now).Success?
    ensures DeleteUserData(SaveUserData(s, p, now).value, p.id) == Success(s)
  {
    var s1 := SaveUserData(s, p, now).value;
    assert s1 - {p.id} == s;
  }

  /** Redelivering an updated event that succeeded changes nothing further. */
  lemma UpdateRedelivery(s: Store, p: UserPayload)
    requires UpdateUserData(s, p).Success?
    ensures UpdateUserData(UpdateUserData(s, p).value, p) == UpdateUserData(s, p)
  {
    UserStore.UpdateIdempotent(s, p.id, UserData(p).value);
  }

  /** Redelivering a deleted event that succeeded is reported as not found rather than a silent success. */
  lemma DeleteRedelivery(s: Store, id: Id)
    requires DeleteUserData(s, id).Success?
    ensures DeleteUserData(DeleteUserData(s, id).value, id) == Failure(StoreRejected(RecordNotFound))
  {
  }

  /** Delivering `a` and then `b` is the same as delivering `a + b`: the store is the only state carried between events. */
  lemma {:induction false} ReplayConcat(s: Store, a: seq<Delivery>, b: seq<Delivery>)
    ensures Replay(s, a + b) == Replay(Replay(s, a), b)
    decreases |a|
  {
    if |a| > 0 {
      var next := Dispatch(s, a[0]);
      assert (a + b)[1..] == a[1..] + b;
      ReplayConcat(if next.Success? then next.value else s, a[1..], b);
    } else {
      assert a + b == b;
    }
  }

  /** Deliveries that no registered function listens to leave the store as it was. */
  lemma {:induction false} ReplayUnlistened(s: Store, ds: seq<Delivery>)
    requires forall i :: 0 <= i < |ds| ==> !Listened(ds[i].event.name)
    ensures Replay(s, ds) == s
    decreases |ds|
  {
    if |ds| > 0 {
      ReplayUnlistened(s, ds[1..]);
    }
  }
}
