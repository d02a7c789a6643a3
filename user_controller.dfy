/**
 * The module-level `users` array of backend/src/controller/userController.ts
 * and its five Express handlers. The array is the field `users`; a handler's
 * request values are its parameters and its `res.json(...)` or `next(...)`
 * argument is the returned Response.
 */
module UserController {
  import opened Wrappers
  import opened UserModel

  class UserStore {
    var users: seq<User>

    /** The store as the module loads: the three seed records. */
    constructor ()
      ensures users == Seed()
    {
      users := Seed();
    }

    /** GET /users/get: reads the collection and changes nothing. */
    method GetUsers() returns (r: Response)
      ensures r == List(users)
    {
      r := Ok(200, None, Collection(users));
    }

    /** GET /users/getbyid/:id: the first record with the id, or NotFound. */
    method GetUserById(id: string) returns (r: Response)
      ensures r == Get(users, id)
    {
      var found := FindIndex(users, id);
      if found.None? {
        return Err(NotFound);
      }
      r := Ok(200, None, Record(users[found.value]));
    }

    /** POST /users/create: validates the body, then pushes the new record. */
    method CreateUser(f: Fields, createdAt: string) returns (r: Response)
      modifies this
      ensures (users, r) == Create(old(users), f, createdAt)
      ensures !AllSupplied(f) ==> users == old(users) && r == Err(BadRequest)
      ensures AllSupplied(f) ==>
        users == old(users) + [User(NextId(old(users)), f.name.value, f.email.value,
                                    f.city.value, f.role.value, createdAt)]
    {
      if !Supplied(f.name) || !Supplied(f.email) || !Supplied(f.city) || !Supplied(f.role) {
        return Err(BadRequest);
      }
      var newUser := User(NextId(users), f.name.value, f.email.value,
                          f.city.value, f.role.value, createdAt);
      users := users + [newUser];
      r := Ok(201, Some("User created successfully"), Record(newUser));
    }

    /** PUT /users/update/:id: overwrites the truthy fields of the first match. */
    method UpdateUser(id: string, f: Fields) returns (r: Response)
      modifies this
      ensures (users, r) == Update(old(users), id, f)
      ensures |users| == |old(users)|
      ensures !HasId(old(users), id) ==> users == old(users) && r == Err(NotFound)
    {
      var found := FindIndex(users, id);
      if found.None? {
        return Err(NotFound);
      }
      var k := found.value;
      var user := users[k];
      if Supplied(f.name) { user := user.(name := f.name.value); }
      if Supplied(f.email) { user := user.(email := f.email.value); }
      if Supplied(f.city) { user := user.(city := f.city.value); }
      if Supplied(f.role) { user := user.(role := f.role.value); }
      users := users[k := user];
      r := Ok(200, None, Record(user));
    }

    /** DELETE /users/delete/:id: checks existence, then filters the id out. */
    method DeleteUser(id: string) returns (r: Response)
      modifies this
      ensures (users, r) == Delete(old(users), id)
      ensures !HasId(old(users), id) ==> users == old(users) && r == Err(NotFound)
      ensures HasId(old(users), id) ==> users == Without(old(users), id) && !HasId(users, id)
    {
      var existing := FindIndex(users, id);
      if existing.None? {
        return Err(NotFound);
      }
      users := Without(users, id);
      r := Ok(200, Some("User deleted successfully"), Collection(users));
    }
  }
}
