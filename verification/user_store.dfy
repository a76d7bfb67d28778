/**
 * The user table as the handlers see it through the database client: records
 * keyed by identifier, with unique constraints on the identifier, the email
 * and the phone. The client itself is not part of this model; this module
 * states only the behaviour the handlers rely on.
 */
module UserStore {
  import opened Wrappers

  type Id = string

  /**
   * The columns a write supplies. On create a `None` column is stored as null;
   * on update a `None` column is left as it is (the client ignores a key whose
   * value is `undefined`).
   */
  datatype Fields = Fields(
    name: Option<string>,
    email: Option<string>,
    phone: Option<string>,
    password: Option<string>,
    location: Option<string>,
    userType: Option<string>,
    avatar: Option<string>)

  /** One stored user. `createdAt` is set by the store when the row is created. */
  datatype User = User(
    id: Id,
    name: Option<string>,
    email: Option<string>,
    phone: Option<string>,
    password: Option<string>,
    location: Option<string>,
    userType: Option<string>,
    avatar: Option<string>,
    createdAt: Option<int>)

  type Store = map<Id, User>

  /** What a write can fail with. */
  datatype StoreError = UniqueViolation | RecordNotFound

  /** The error codes the client attaches to these failures. */
  const UniqueViolationCode := "P2002"
  const RecordNotFoundCode := "P2025"

  function Code(e: StoreError): (c: string)
    ensures c == UniqueViolationCode <==> e == UniqueViolation
  {
    match e
    case UniqueViolation => UniqueViolationCode
    case RecordNotFound => RecordNotFoundCode
  }

  /** Every record sits under its own identifier. */
  ghost predicate KeyedById(s: Store) {
    forall k :: k in s ==> s[k].id == k
  }

  /** No two records share a (non-null) email. */
  ghost predicate UniqueEmails(s: Store) {
    forall a, b :: a in s && b in s && a != b && s[a].email.Some? ==> s[a].email != s[b].email
  }

  /** No two records share a (non-null) phone. */
  ghost predicate UniquePhones(s: Store) {
    forall a, b :: a in s && b in s && a != b && s[a].phone.Some? ==> s[a].phone != s[b].phone
  }

  /** The store's integrity constraints. */
  ghost predicate Valid(s: Store) {
    KeyedById(s) && UniqueEmails(s) && UniquePhones(s)
  }

  /** The columns of a stored record, in the shape a write supplies them. */
  function FieldsOf(u: User): Fields {
    Fields(u.name, u.email, u.phone, u.password, u.location, u.userType, u.avatar)
  }

  /** True when writing `d` to the record `id` would repeat the email or phone of another record. */
  predicate Clashes(s: Store, id: Id, d: Fields) {
    exists k :: k in s && k != id &&
      ((d.email.Some? && s[k].email == d.email) || (d.phone.Some? && s[k].phone == d.phone))
  }

  /** The row a create with columns `d` produces. */
  function Materialize(id: Id, d: Fields, now: int): (u: User)
    ensures u.id == id && u.createdAt == Some(now)
    ensures FieldsOf(u) == d
  {
    User(id, d.name, d.email, d.phone, d.password, d.location, d.userType, d.avatar, Some(now))
  }

  function Overwrite(current: Option<string>, supplied: Option<string>): Option<string> {
    if supplied.Some? then supplied else current
  }

  /** The row an update with columns `d` produces: supplied columns replace, absent ones stay. */
  function ApplyPatch(u: User, d: Fields): (v: User)
    ensures v.id == u.id && v.createdAt == u.createdAt
  {
    u.(name := Overwrite(u.name, d.name),
       email := Overwrite(u.email, d.email),
       phone := Overwrite(u.phone, d.phone),
       password := Overwrite(u.password, d.password),
       location := Overwrite(u.location, d.location),
       userType := Overwrite(u.userType, d.userType),
       avatar := Overwrite(u.avatar, d.avatar))
  }

  /** `create`: insert a new row, refused by the unique constraints. */
  function Create(s: Store, id: Id, d: Fields, now: int): (r: Result<Store, StoreError>)
    ensures r.Success? <==> id !in s && !Clashes(s, id, d)
    ensures r.Failure? ==> r.error == UniqueViolation
    ensures r.Success? ==> r.value.Keys == s.Keys + {id} && r.value[id] == Materialize(id, d, now)
    ensures r.Success? ==> forall k :: k in s ==> r.value[k] == s[k]
    ensures r.Success? && Valid(s) ==> Valid(r.value)
  {
    if id in s || Clashes(s, id, d) then Failure(UniqueViolation)
    else Success(s[id := Materialize(id, d, now)])
  }

  /** `update where {id}`: rewrite an existing row, refused when it is absent or a constraint breaks. */
  function Update(s: Store, id: Id, d: Fields): (r: Result<Store, StoreError>)
    ensures r == Failure(RecordNotFound) <==> id !in s
    ensures r.Success? <==> id in s && !Clashes(s, id, d)
    ensures r.Success? ==> r.value.Keys == s.Keys && r.value[id] == ApplyPatch(s[id], d)
    ensures r.Success? ==> forall k :: k in s && k != id ==> r.value[k] == s[k]
    ensures r.Success? && Valid(s) ==> Valid(r.value)
  {
    if id !in s then Failure(RecordNotFound)
    else if Clashes(s, id, d) then Failure(UniqueViolation)
    else Success(s[id := ApplyPatch(s[id], d)])
  }

  /** `delete where {id}`: remove an existing row, refused when it is absent. */
  function Delete(s: Store, id: Id): (r: Result<Store, StoreError>)
    ensures r.Success? <==> id in s
    ensures r.Failure? ==> r.error == RecordNotFound
    ensures r.Success? ==> r.value.Keys == s.Keys - {id}
    ensures r.Success? ==> forall k :: k in r.value ==> r.value[k] == s[k]
    ensures r.Success? && Valid(s) ==> Valid(r.value)
  {
    if id in s then Success(s - {id}) else Failure(RecordNotFound)
  }

  /** Deleting the row just created gives back the store as it was. */
  lemma CreateThenDelete(s: Store, id: Id, d: Fields, now: int)
    requires Create(s, id, d, now).Success?
    ensures Delete(Create(s, id, d, now).value, id) == Success(s)
  {
    var s1 := Create(s, id, d, now).value;
    assert s1 - {id} == s;
  }

  /** Applying the same update twice is the same as applying it once. */
  lemma UpdateIdempotent(s: Store, id: Id, d: Fields)
    requires Update(s, id, d).Success?
    ensures Update(Update(s, id, d).value, id, d) == Update(s, id, d)
  {
    var s1 := Update(s, id, d).value;
    assert ApplyPatch(s1[id], d) == s1[id];
    assert !Clashes(s1, id, d);
    assert s1[id := ApplyPatch(s1[id], d)] == s1;
  }

  /** Writing back a row's own columns changes nothing. */
  lemma UpdateWithOwnFields(s: Store, id: Id)
    requires Valid(s) && id in s
    ensures Update(s, id, FieldsOf(s[id])) == Success(s)
  {
    assert s[id := ApplyPatch(s[id], FieldsOf(s[id]))] == s;
  }
}
