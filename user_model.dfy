/**
 * The user directory of backend/src/controller/userController.ts as values:
 * the record type, the seed collection, and each of the five request
 * handlers as a transition from the old collection to the new collection and
 * the response. The class in user_controller.dfy runs these transitions in
 * place; the lemmas in user_properties.dfy are stated over them.
 */
module UserModel {
  import opened Wrappers
  import opened Decimal

  /** One user record; every field is a string, as in the source. */
  datatype User = User(id: string, name: string, email: string, city: string, role: string, createdAt: string)

  /** The editable fields of a request body; None is a key that is absent. */
  datatype Fields = Fields(name: Option<string>, email: Option<string>, city: Option<string>, role: Option<string>)

  /** The two errors the handlers pass to the error middleware. */
  datatype HttpError = BadRequest | NotFound {

    /** The HTTP status passed to `next`: a client error, 404 exactly for NotFound. */
    function Status(): (s: nat)
      ensures 400 <= s < 500
      ensures s == 404 <==> NotFound?
    {
      match this
      case BadRequest => 400
      case NotFound => 404
    }

    /** The message passed to `next`; the two errors never share one. */
    function Message(): (m: string)
      ensures m != ""
      ensures m == "User not found" <==> NotFound?
    {
      match this
      case BadRequest => "All fields are required"
      case NotFound => "User not found"
    }
  }

  /** The `data` member of a success envelope: one record or the collection. */
  datatype Payload = Record(user: User) | Collection(users: seq<User>)

  /** A success envelope `{status, message?, data}` or an error signal. */
  datatype Response = Ok(status: nat, message: Option<string>, data: Payload) | Err(error: HttpError)

  /** The three records the store starts with. */
  function Seed(): (s: seq<User>)
    ensures SequentialIds(s)
  {
    assert NatToDecimal(1) == "1" && NatToDecimal(2) == "2" && NatToDecimal(3) == "3";
    [ User("1", "Amit Kumar", "amit@example.com", "Bangalore", "developer", "2025-01-10T09:00:00Z"),
      User("2", "Priya Sharma", "priya@example.com", "Mumbai", "designer", "2025-01-12T14:30:00Z"),
      User("3", "Rahul Verma", "rahul@example.com", "Delhi", "manager", "2025-01-15T11:15:00Z") ]
  }

  /** JavaScript truthiness of a body field: present and not the empty string. */
  predicate Supplied(v: Option<string>): (b: bool)
    ensures !b <==> v == None || v == Some("")
  {
    v.Some? && v.value != ""
  }

  /** The guard of a create: none of the four fields is absent or empty. */
  predicate AllSupplied(f: Fields): (b: bool)
    ensures !b <==> f.name in {None, Some("")} || f.email in {None, Some("")}
                    || f.city in {None, Some("")} || f.role in {None, Some("")}
  {
    Supplied(f.name) && Supplied(f.email) && Supplied(f.city) && Supplied(f.role)
  }

  ghost predicate HasId(users: seq<User>, id: string) {
    exists i :: 0 <= i < |users| && users[i].id == id
  }

  /** k is the position of the first record whose id is `id`. */
  ghost predicate FirstWithId(users: seq<User>, id: string, k: int) {
    && 0 <= k < |users|
    && users[k].id == id
    && forall j :: 0 <= j < k ==> users[j].id != id
  }

  /** Every record's id is the decimal rendering of its 1-based position. */
  ghost predicate SequentialIds(users: seq<User>) {
    forall i :: 0 <= i < |users| ==> users[i].id == NatToDecimal(i + 1)
  }

  ghost predicate DistinctIds(users: seq<User>) {
    forall i, j :: 0 <= i < j < |users| ==> users[i].id != users[j].id
  }

  /** Array.prototype.find by id: the first matching position, if any. */
  function FindIndex(users: seq<User>, id: string): (r: Option<nat>)
    ensures r.Some? ==> FirstWithId(users, id, r.value)
    ensures r.None? <==> !HasId(users, id)
    decreases |users|
  {
    if |users| == 0 then None
    else if users[0].id == id then Some(0)
    else
      match FindIndex(users[1..], id)
      case None => None
      case Some(k) => Some(k + 1)
  }

  /** The identifier a create assigns: the collection's length plus one. */
  function NextId(users: seq<User>): (id: string)
    ensures AllDigits(id) && DecimalValue(id) == |users| + 1
    ensures id[0] != '0'
  {
    DecimalRoundTrip(|users| + 1);
    NatToDecimal(|users| + 1)
  }

  /** A field after an update: overwritten only by a truthy value. */
  function Overwrite(current: string, v: Option<string>): (r: string)
    ensures Supplied(v) ==> r == v.value
    ensures v == None || v == Some("") ==> r == current
  {
    if Supplied(v) then v.value else current
  }

  /** A record after an update; id and createdAt are never touched. */
  function Patched(u: User, f: Fields): (r: User)
    ensures r.id == u.id && r.createdAt == u.createdAt
    ensures r.name == Overwrite(u.name, f.name) && r.email == Overwrite(u.email, f.email)
    ensures r.city == Overwrite(u.city, f.city) && r.role == Overwrite(u.role, f.role)
  {
    u.(name := Overwrite(u.name, f.name), email := Overwrite(u.email, f.email),
       city := Overwrite(u.city, f.city), role := Overwrite(u.role, f.role))
  }

  /** Array.prototype.filter keeping the records whose id differs from `id`. */
  function Without(users: seq<User>, id: string): (r: seq<User>)
    ensures !HasId(r, id)
    ensures !HasId(users, id) ==> r == users
    ensures HasId(users, id) ==> |r| < |users|
    decreases |users|
  {
    if |users| == 0 then []
    else (if users[0].id == id then [] else [users[0]]) + Without(users[1..], id)
  }

  /** getUsers: the whole collection, with status 200. */
  function List(users: seq<User>): (r: Response)
    ensures r.Ok? && r.status == 200 && r.message.None?
    ensures r.data.Collection? && r.data.users == users
  {
    Ok(200, None, Collection(users))
  }

  /** getUserById: the first record with the id, or NotFound when there is none. */
  function Get(users: seq<User>, id: string): (r: Response)
    ensures r.Err? <==> !HasId(users, id)
    ensures r.Err? ==> r.error == NotFound
    ensures r.Ok? ==> r.status == 200 && r.message.None? && r.data.Record?
    ensures r.Ok? ==> var k := FindIndex(users, id).value; FirstWithId(users, id, k) && r.data.user == users[k]
  {
    match FindIndex(users, id)
    case None => Err(NotFound)
    case Some(k) => Ok(200, None, Record(users[k]))
  }

  /**
   * createUser: BadRequest with no change unless all four fields are truthy;
   * otherwise one record appended at the end, whose id is NextId.
   */
  function Create(users: seq<User>, f: Fields, createdAt: string): (r: (seq<User>, Response))
    ensures !AllSupplied(f) ==> r == (users, Err(BadRequest))
    ensures AllSupplied(f) ==>
      && |r.0| == |users| + 1
      && r.0[..|users|] == users
      && r.0[|users|] == User(NextId(users), f.name.value, f.email.value, f.city.value, f.role.value, createdAt)
      && r.1 == Ok(201, Some("User created successfully"), Record(r.0[|users|]))
  {
    if !AllSupplied(f) then (users, Err(BadRequest))
    else
      var u := User(NextId(users), f.name.value, f.email.value, f.city.value, f.role.value, createdAt);
      (users + [u], Ok(201, Some("User created successfully"), Record(u)))
  }

  /**
   * updateUser: NotFound with no change for an unknown id; otherwise only the
   * first record with the id is patched, and returned.
   */
  function Update(users: seq<User>, id: string, f: Fields): (r: (seq<User>, Response))
    ensures |r.0| == |users|
    ensures forall i :: 0 <= i < |users| ==> r.0[i].id == users[i].id && r.0[i].createdAt == users[i].createdAt
    ensures !HasId(users, id) ==> r == (users, Err(NotFound))
    ensures HasId(users, id) ==>
      var k := FindIndex(users, id).value;
      && FirstWithId(users, id, k)
      && r.0 == users[k := Patched(users[k], f)]
      && r.1 == Ok(200, None, Record(r.0[k]))
  {
    match FindIndex(users, id)
    case None => (users, Err(NotFound))
    case Some(k) =>
      var u := Patched(users[k], f);
      (users[k := u], Ok(200, None, Record(u)))
  }

  /**
   * deleteUser: NotFound with no change for an unknown id; otherwise every
   * record with the id is dropped and the remaining collection returned.
   */
  function Delete(users: seq<User>, id: string): (r: (seq<User>, Response))
    ensures !HasId(users, id) ==> r == (users, Err(NotFound))
    ensures HasId(users, id) ==>
      && r.0 == Without(users, id)
      && |r.0| < |users|
      && r.1 == Ok(200, Some("User deleted successfully"), Collection(r.0))
  {
    if FindIndex(users, id).None? then (users, Err(NotFound))
    else
      var rest := Without(users, id);
      (rest, Ok(200, Some("User deleted successfully"), Collection(rest)))
  }

  /** One request to the router, with the values it carries. */
  datatype Request =
    | ListRequest
    | GetRequest(id: string)
    | CreateRequest(fields: Fields, createdAt: string)
    | UpdateRequest(id: string, fields: Fields)
    | DeleteRequest(id: string)

  /** A request handled to completion against the collection. */
  function Step(users: seq<User>, req: Request): (r: (seq<User>, Response))
    ensures req.ListRequest? || req.GetRequest? ==> r.0 == users
  {
    match req
    case ListRequest => (users, List(users))
    case GetRequest(id) => (users, Get(users, id))
    case CreateRequest(f, t) => Create(users, f, t)
    case UpdateRequest(id, f) => Update(users, id, f)
    case DeleteRequest(id) => Delete(users, id)
  }

  /** The collection after the requests are handled one after another. */
  function Run(users: seq<User>, reqs: seq<Request>): (after: seq<User>)
    decreases |reqs|
  {
    if |reqs| == 0 then users else Run(Step(users, reqs[0]).0, reqs[1..])
  }
}
