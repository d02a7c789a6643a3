# User directory store, modelled in Dafny

This project models the in-memory user store of the user-management backend
(`backend/src/controller/userController.ts`) and proves properties of it. The
store is an array of user records `{id, name, email, city, role, createdAt}`,
all strings, seeded with three records whose ids are "1", "2" and "3". Five
request handlers work on it:

- **getUsers** returns the whole collection.
- **getUserById** returns the first record with the id, or 404 "User not found".
- **createUser** answers 400 "All fields are required" unless name, email,
  city and role are all truthy. Otherwise it pushes a record whose id is the
  collection's length plus one, written in decimal.
- **updateUser** answers 404 for an unknown id. Otherwise it overwrites, in
  place, each truthy field of the first matching record.
- **deleteUser** answers 404 for an unknown id. Otherwise it replaces the
  array by a filter that drops every record with that id.

Files:

- `wrappers.dfy`: `Option`, used for body fields that may be absent.
- `decimal.dfy`: `Number.prototype.toString()` on a non-negative integer
  below 2^53, that is every safe integer (`NatToDecimal`), its inverse
  (`DecimalValue`), the round trip and injectivity. Ids are array lengths
  plus one, at most 2^32, far below that bound.
- `user_model.dfy`: the record, request and response types, the seed data, and
  each handler as a pure transition from the old collection to the new
  collection and the response. `Step` and `Run` replay a sequence of requests,
  handled one at a time as the single-threaded server does.
- `user_controller.dfy`: class `UserStore`. Its field `users: seq<User>` is the
  module-level array. Its methods carry the handlers' names and update the
  field in place: `push` becomes appending, the aliased field writes of an
  update become a sequence update at the found index, and the `filter`
  becomes a reassignment. Each method's `ensures` ties the new state and the
  response to the transition in `user_model.dfy`.
- `user_properties.dfy`: lemmas over several requests.

Body fields are `Option<string>`. JavaScript truthiness (`!name`) is modelled
as `Supplied`: a field counts only if it is present and not `""`. The
`createdAt` timestamp is a parameter, because `new Date().toLocaleString()`
reads the clock.

**Identifier defect.** Ids come from the collection's length, so a create
that follows a delete can give the new record an id that a remaining record
already has. A delete alone never creates a duplicate
(`DeleteKeepsDistinctIds`). `WithoutDeletesIdsStayUnique` proves
that, starting from the seed, any sequence of requests with no delete among
them leaves the ids exactly "1".."n". `DeleteThenCreateDuplicatesId` proves the
opposite case: delete "2" from the seed, then create a user. The new record
gets id "3", which "Rahul Verma" already has, and a later get-by-id of "3"
still returns Rahul's record. `CreateThenGet` states both cases of the
create-then-get round trip.

**Delete removes every match.** Delete's filter removes every record with
the id, not only the first. When ids are distinct that is exactly one record
(`DeleteRemovesExactlyOne`).

## Model

| member | source | states |
|---|---|---|
| `Decimal.NatToDecimal` | backend/src/controller/userController.ts:59 | the id rendering is a non-empty string of digits, and it starts with '0' only for zero |
| `Decimal.DecimalRoundTrip` | backend/src/controller/userController.ts:59 | reading back the decimal rendering of n gives n |
| `Decimal.DecimalInjective` | backend/src/controller/userController.ts:59 | distinct numbers have distinct renderings, so distinct lengths give distinct ids |
| `UserModel.Seed` | backend/src/controller/userController.ts:3-28 | the three seed records have ids "1", "2", "3", one per position |
| `UserModel.HttpError.Status` | backend/src/controller/userController.ts:42-103 | the status passed to `next` is a client error, and 404 exactly for NotFound |
| `UserModel.HttpError.Message` | backend/src/controller/userController.ts:42-103 | the message passed to `next` is non-empty, and "User not found" exactly for NotFound |
| `UserProperties.ErrorSignals` | backend/src/controller/userController.ts:42-103 | BadRequest is 400 "All fields are required" (line 55); NotFound is 404 "User not found" (lines 42, 82, 103) |
| `UserModel.Supplied` | backend/src/controller/userController.ts:54 | a body field is falsy exactly when it is absent or the empty string |
| `UserModel.AllSupplied` | backend/src/controller/userController.ts:54 | the create guard fails exactly when any of the four fields is absent or empty |
| `UserModel.NextId` | backend/src/controller/userController.ts:59 | the assigned id is a digit string without leading zero whose value is the length plus one |
| `UserModel.Overwrite` | backend/src/controller/userController.ts:85-88 | a field takes a truthy supplied value, and keeps its old value when the supplied one is absent or "" |
| `UserModel.Step` | backend/src/controller/userController.ts:30-113 | the route table's dispatch of one request to its handler; a list or get-by-id request leaves the collection unchanged |
| `UserModel.FindIndex` | backend/src/controller/userController.ts:39 | `find` by id gives the first position whose id matches, and nothing exactly when no record has the id |
| `UserModel.Patched` | backend/src/controller/userController.ts:85-88 | each field is overwritten only by a truthy value; id and createdAt are untouched |
| `UserModel.Without` | backend/src/controller/userController.ts:106 | after the filter no record has the id; with no match the collection is unchanged; with a match it is strictly shorter |
| `UserModel.List` | backend/src/controller/userController.ts:30-35 | status 200, no message, data is the whole collection in order |
| `UserModel.Get` | backend/src/controller/userController.ts:37-49 | NotFound exactly when no record has the id; otherwise 200 with the first record whose id matches |
| `UserModel.Create` | backend/src/controller/userController.ts:51-74 | any missing or empty field gives BadRequest and no change; otherwise the old collection plus one record at the end with id = decimal(length + 1), the given fields and createdAt, and 201 "User created successfully" with that record |
| `UserModel.Update` | backend/src/controller/userController.ts:76-94 | length, ids and createdAt of every record kept; unknown id gives NotFound and no change; otherwise only the first match is patched, and 200 with the patched record |
| `UserModel.Delete` | backend/src/controller/userController.ts:96-113 | unknown id gives NotFound and no change; otherwise the filtered collection, strictly shorter, and 200 "User deleted successfully" with it |
| `UserController.UserStore.constructor` | backend/src/controller/userController.ts:3-28 | the store starts with the seed records |
| `UserController.UserStore.GetUsers` | backend/src/controller/userController.ts:30-35 | answers as `List` on the current collection and changes nothing |
| `UserController.UserStore.GetUserById` | backend/src/controller/userController.ts:37-49 | answers as `Get` on the current collection and changes nothing |
| `UserController.UserStore.CreateUser` | backend/src/controller/userController.ts:51-74 | new state and response are those of `Create`: no change on BadRequest, else exactly one record appended |
| `UserController.UserStore.UpdateUser` | backend/src/controller/userController.ts:76-94 | new state and response are those of `Update`; the length is kept; no change on NotFound |
| `UserController.UserStore.DeleteUser` | backend/src/controller/userController.ts:96-113 | new state and response are those of `Delete`; no change on NotFound; otherwise the filtered collection, with no record of that id left |
| `UserProperties.SequentialIdsAreDistinct` | backend/src/controller/userController.ts:59 | ids that are "1".."n" by position are pairwise distinct |
| `UserProperties.NextIdIsFresh` | backend/src/controller/userController.ts:59 | while ids are "1".."n", the id a create assigns is not taken |
| `UserProperties.StepKeepsSequentialIds` | backend/src/controller/userController.ts:30-94 | a list, get, create or update request keeps the ids "1".."n" |
| `UserProperties.RunKeepsSequentialIds` | backend/src/controller/userController.ts:30-94 | any sequence of requests with no delete keeps the ids "1".."n" |
| `UserProperties.WithoutDeletesIdsStayUnique` | backend/src/controller/userController.ts:3-94 | from the seed, requests with no delete leave ids exactly "1".."n" and distinct |
| `UserProperties.DeleteThenCreateDuplicatesId` | backend/src/controller/userController.ts:59-106 | deleting "2" from the seed and then creating a user gives two records with id "3", and get-by-id of "3" returns the old record |
| `UserProperties.DeleteThenCreateState` | backend/src/controller/userController.ts:59-106 | deleting "2" from the seed and then creating a user leaves the first seed record, Rahul's record, and the new record with id "3", in that order |
| `UserProperties.CreateThenGet` | backend/src/controller/userController.ts:58-67 | after a create, get-by-id of the new id returns the new record if that id was free, and otherwise the older record that already had it |
| `UserProperties.CreateThenGetFromSequential` | backend/src/controller/userController.ts:59 | with ids "1".."n", a created record is found again by its id |
| `UserProperties.DeleteThenGetNotFound` | backend/src/controller/userController.ts:106 | after a delete of an id, get-by-id of it is NotFound |
| `UserProperties.WithoutConcat` | backend/src/controller/userController.ts:106 | the filter distributes over concatenation, so survivors keep their relative order |
| `UserProperties.WithoutMembers` | backend/src/controller/userController.ts:106 | a record survives the filter exactly when it was in the collection and its id differs |
| `UserProperties.DeleteKeepsDistinctIds` | backend/src/controller/userController.ts:106 | a delete keeps distinct ids distinct: the filter only removes records |
| `UserProperties.DeleteRemovesExactlyOne` | backend/src/controller/userController.ts:106 | with distinct ids, delete removes exactly the matching record and keeps the others in order; the length drops by one |
| `UserProperties.PatchedIdempotent` | backend/src/controller/userController.ts:85-88 | patching twice with the same fields is patching once |
| `UserProperties.UpdateIdempotent` | backend/src/controller/userController.ts:80-93 | the same update twice gives the same collection and response as once |
| `UserProperties.EmptyStoreScenario` | backend/src/controller/userController.ts:51-113 | on an empty store two creates get ids "1" and "2", and deleting "1" leaves only the second record |
| `UserProperties.EmptyNameRejected` | backend/src/controller/userController.ts:54-56 | a create with an empty name is BadRequest and adds nothing |
| `UserProperties.UpdateUnknownIdNotFound` | backend/src/controller/userController.ts:80-83 | an update of an unknown id is NotFound and changes nothing |

## Left out

- Express plumbing (`req.params`, `req.body`, `res.status().json()`, `next`): a handler's inputs are parameters, and its JSON body or error object is the returned `Response`.
- The error middleware that turns `next({status, message})` into an HTTP reply: `errorHandler` is not part of this model. `HttpError.Status` and `HttpError.Message` give the status and message the handlers pass to it. The generic 500 path never arises from this logic.
- `console.log` in deleteUser: output only, with no effect on state.
- The clock: `createdAt` is a parameter, not `new Date().toLocaleString()`.
- Non-string JSON body values (numbers, booleans, objects): fields are modelled as optional strings, so truthiness is only "present and non-empty".
- Aliasing of response data: the source's responses hold references to the stored objects, but they are serialised at once, so a `Response` holds values.
- JavaScript's array-length limit: `users` is an unbounded `seq`, so the model does not capture that a `push` beyond 2^32-1 elements throws a RangeError, nor that `toString` rounds from 2^53 on and switches to exponent form from 10^21 on, which such lengths never reach.
- Concurrency: each request runs to completion before the next, as in the single-threaded server.
- `backend/src/server.ts`, `backend/src/routes/userRoute.ts` and `frontend/src/components/Dashboard.tsx`: bootstrap, a static route table and the browser UI, with no store logic.
