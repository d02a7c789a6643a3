/**
 * What the handlers of backend/src/controller/userController.ts do over
 * several requests: identifiers stay "1".."n" while nothing is deleted, a
 * delete followed by a create can duplicate an existing identifier, and the
 * round trips and frame facts of create, update and delete.
 */
module UserProperties {
  import opened Wrappers
  import opened Decimal
  import opened UserModel

  /** The status and message of each error signal the handlers raise. */
  lemma ErrorSignals()
    ensures BadRequest.Status() == 400 && BadRequest.Message() == "All fields are required"
    ensures NotFound.Status() == 404 && NotFound.Message() == "User not found"
  {
  }

  /** Identifiers that are the renderings of distinct positions are distinct. */
  lemma SequentialIdsAreDistinct(users: seq<User>)
    requires SequentialIds(users)
    ensures DistinctIds(users)
  {
    forall i, j | 0 <= i < j < |users| ensures users[i].id != users[j].id {
      if users[i].id == users[j].id {
        DecimalInjective(i + 1, j + 1);
      }
    }
  }

  /** While ids are sequential, the id a create assigns is not yet taken. */
  lemma NextIdIsFresh(users: seq<User>)
    requires SequentialIds(users)
    ensures !HasId(users, NextId(users))
  {
    forall i | 0 <= i < |users| ensures users[i].id != NextId(users) {
      if users[i].id == NextId(users) {
        DecimalInjective(i + 1, |users| + 1);
      }
    }
  }

  /** Every request except a delete keeps the ids sequential. */
  lemma StepKeepsSequentialIds(users: seq<User>, req: Request)
    requires SequentialIds(users) && !req.DeleteRequest?
    ensures SequentialIds(Step(users, req).0)
  {
  }

  lemma {:induction false} RunKeepsSequentialIds(users: seq<User>, reqs: seq<Request>)
    requires SequentialIds(users)
    requires forall i :: 0 <= i < |reqs| ==> !reqs[i].DeleteRequest?
    ensures SequentialIds(Run(users, reqs))
    decreases |reqs|
  {
    if |reqs| > 0 {
      StepKeepsSequentialIds(users, reqs[0]);
      RunKeepsSequentialIds(Step(users, reqs[0]).0, reqs[1..]);
    }
  }

  /**
   * From the seed, any sequence of list, get, create and update requests
   * leaves ids that are exactly "1".."n" and pairwise distinct.
   */
  lemma WithoutDeletesIdsStayUnique(reqs: seq<Request>)
    requires forall i :: 0 <= i < |reqs| ==> !reqs[i].DeleteRequest?
    ensures SequentialIds(Run(Seed(), reqs))
    ensures DistinctIds(Run(Seed(), reqs))
  {
    RunKeepsSequentialIds(Seed(), reqs);
    SequentialIdsAreDistinct(Run(Seed(), reqs));
  }

  /**
   * The identifier defect: deleting "2" from the seed and then creating a
   * user gives the new record id "3", which "Rahul Verma" already has, and a
   * get-by-id of "3" still answers with the old record.
   */
  lemma DeleteThenCreateDuplicatesId(f: Fields, createdAt: string)
    requires AllSupplied(f)
    ensures var after := Run(Seed(), [DeleteRequest("2"), CreateRequest(f, createdAt)]);
      && |after| == 3
      && after[1].id == "3" && after[2].id == "3"
      && after[1] == Seed()[2]
      && !DistinctIds(after)
      && Get(after, "3") == Ok(200, None, Record(Seed()[2]))
  {
    var after := Run(Seed(), [DeleteRequest("2"), CreateRequest(f, createdAt)]);
    DeleteThenCreateState(f, createdAt);
    DeleteTwoFromSeed();
    assert after[0].id == "1" && after[1].id == "3";
    assert FindIndex(after, "3") == Some(1);
  }

  /** The collection after deleting "2" from the seed and then creating a user. */
  lemma DeleteThenCreateState(f: Fields, createdAt: string)
    requires AllSupplied(f)
    ensures Run(Seed(), [DeleteRequest("2"), CreateRequest(f, createdAt)])
         == [Seed()[0], Seed()[2], User("3", f.name.value, f.email.value, f.city.value, f.role.value, createdAt)]
  {
    var seed := Seed();
    var s1 := Delete(seed, "2").0;
    DeleteTwoFromSeed();
    var reqs := [DeleteRequest("2"), CreateRequest(f, createdAt)];
    assert Run(seed, reqs) == Run(s1, reqs[1..]);
    assert Run(s1, reqs[1..]) == Create(s1, f, createdAt).0;
    assert NatToDecimal(3) == "3";
  }

  /** Deleting "2" from the seed leaves the first and third records. */
  lemma DeleteTwoFromSeed()
    ensures Delete(Seed(), "2").0 == [Seed()[0], Seed()[2]]
    ensures Seed()[0].id == "1" && Seed()[2].id == "3"
  {
  }

  /**
   * Create then get-by-id of the new id: the new record when its id was free,
   * and otherwise the earlier record that already carries that id.
   */
  lemma CreateThenGet(users: seq<User>, f: Fields, createdAt: string)
    requires AllSupplied(f)
    ensures var (after, r) := Create(users, f, createdAt);
      && (!HasId(users, NextId(users)) ==> Get(after, NextId(users)) == Ok(200, None, r.data))
      && (HasId(users, NextId(users)) ==> Get(after, NextId(users)) == Get(users, NextId(users)))
  {
  }

  /** Starting with ids "1".."n", a created user is found again by its id. */
  lemma CreateThenGetFromSequential(users: seq<User>, f: Fields, createdAt: string)
    requires SequentialIds(users) && AllSupplied(f)
    ensures Get(Create(users, f, createdAt).0, NextId(users)) == Ok(200, None, Create(users, f, createdAt).1.data)
  {
    NextIdIsFresh(users);
    CreateThenGet(users, f, createdAt);
  }

  /** After a delete of an id, a get-by-id of that id is NotFound. */
  lemma DeleteThenGetNotFound(users: seq<User>, id: string)
    ensures Get(Delete(users, id).0, id) == Err(NotFound)
  {
  }

  /** The filter of a delete keeps the survivors in their relative order. */
  lemma {:induction false} WithoutConcat(a: seq<User>, b: seq<User>, id: string)
    ensures Without(a + b, id) == Without(a, id) + Without(b, id)
    decreases |a|
  {
    if |a| == 0 {
      assert a + b == b;
    } else {
      assert (a + b)[1..] == a[1..] + b;
      WithoutConcat(a[1..], b, id);
    }
  }

  /** The filter of a delete keeps exactly the records whose id differs. */
  lemma {:induction false} WithoutMembers(users: seq<User>, id: string, u: User)
    ensures u in Without(users, id) <==> u in users && u.id != id
    decreases |users|
  {
    if |users| > 0 {
      assert users == [users[0]] + users[1..];
      WithoutMembers(users[1..], id, u);
    }
  }

  /** The filter only removes records, so distinct ids stay distinct. */
  lemma {:induction false} WithoutKeepsDistinct(users: seq<User>, id: string)
    requires DistinctIds(users)
    ensures DistinctIds(Without(users, id))
    decreases |users|
  {
    if |users| > 0 {
      var rest := users[1..];
      WithoutKeepsDistinct(rest, id);
      if users[0].id != id {
        var tail := Without(rest, id);
        forall j | 0 <= j < |tail| ensures tail[j].id != users[0].id {
          WithoutMembers(rest, id, tail[j]);
        }
        assert Without(users, id) == [users[0]] + tail;
      }
    }
  }

  /** A delete on its own never makes two records share an id. */
  lemma DeleteKeepsDistinctIds(users: seq<User>, id: string)
    requires DistinctIds(users)
    ensures DistinctIds(Delete(users, id).0)
  {
    WithoutKeepsDistinct(users, id);
  }

  /** With distinct ids, a successful delete removes exactly the matching record. */
  lemma DeleteRemovesExactlyOne(users: seq<User>, id: string, k: nat)
    requires DistinctIds(users) && FirstWithId(users, id, k)
    ensures Delete(users, id).0 == users[..k] + users[k + 1..]
    ensures |Delete(users, id).0| == |users| - 1
  {
    var pre, post := users[..k], users[k + 1..];
    assert users == pre + [users[k]] + post;
    assert !HasId(pre, id);
    assert !HasId(post, id) by {
      assert forall i :: 0 <= i < |post| ==> post[i] == users[k + 1 + i];
    }
    WithoutOneMatch(pre, users[k], post, id);
  }

  /** Filtering out a record that no other record shares an id with. */
  lemma {:induction false} WithoutOneMatch(pre: seq<User>, u: User, post: seq<User>, id: string)
    requires !HasId(pre, id) && !HasId(post, id) && u.id == id
    ensures Without(pre + [u] + post, id) == pre + post
    decreases |pre|
  {
    var all := pre + [u] + post;
    if |pre| == 0 {
      assert all == [u] + post && all[1..] == post;
    } else {
      assert all[0] == pre[0] && all[1..] == pre[1..] + [u] + post;
      assert !HasId(pre[1..], id) by {
        assert forall i :: 0 <= i < |pre| - 1 ==> pre[1..][i] == pre[i + 1];
      }
      WithoutOneMatch(pre[1..], u, post, id);
      assert pre + post == [pre[0]] + (pre[1..] + post);
    }
  }

  /** Patching a record twice with the same fields is patching it once. */
  lemma PatchedIdempotent(u: User, f: Fields)
    ensures Patched(Patched(u, f), f) == Patched(u, f)
  {
  }

  /** Applying the same update twice gives the same state and response as once. */
  lemma UpdateIdempotent(users: seq<User>, id: string, f: Fields)
    ensures var once := Update(users, id, f).0;
      Update(once, id, f) == (once, Update(users, id, f).1)
  {
    var once := Update(users, id, f).0;
    match FindIndex(users, id)
    case None =>
    case Some(k) =>
      assert once == users[k := Patched(users[k], f)];
      assert FindIndex(once, id) == Some(k) by {
        assert FirstWithId(once, id, k);
        FirstWithIdUnique(once, id, k, FindIndex(once, id).value);
      }
      PatchedIdempotent(users[k], f);
      assert once[k := Patched(once[k], f)] == once;
  }

  lemma FirstWithIdUnique(users: seq<User>, id: string, k: int, m: int)
    requires FirstWithId(users, id, k) && FirstWithId(users, id, m)
    ensures k == m
  {
  }

  /**
   * The walk-through of an empty store: two creates get ids "1" and "2", and
   * deleting "1" leaves only the second record.
   */
  lemma EmptyStoreScenario(t1: string, t2: string)
    ensures var f := Fields(Some("A"), Some("a@x.com"), Some("C"), Some("developer"));
      var (s1, r1) := Create([], f, t1);
      var (s2, r2) := Create(s1, f, t2);
      && r1 == Ok(201, Some("User created successfully"), Record(User("1", "A", "a@x.com", "C", "developer", t1)))
      && r2 == Ok(201, Some("User created successfully"), Record(User("2", "A", "a@x.com", "C", "developer", t2)))
      && List(Delete(s2, "1").0).data.users == [s2[1]]
  {
  }

  /** A create whose body has a missing or empty field adds nothing. */
  lemma EmptyNameRejected(users: seq<User>, t: string)
    ensures Create(users, Fields(Some(""), Some("a@x.com"), Some("C"), Some("developer")), t) == (users, Err(BadRequest))
  {
  }

  /** An update of an id nobody has is NotFound and changes nothing. */
  lemma UpdateUnknownIdNotFound(users: seq<User>, f: Fields)
    requires !HasId(users, "999")
    ensures Update(users, "999", f) == (users, Err(NotFound))
  {
  }
}
