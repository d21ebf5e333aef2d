/** The users collection and its queries
    (services/data/firestore/operations/users.go). Documents are held in
    the store's document order; each is keyed by its user id. */
module UserOperations {
  import opened Errors
  import opened Resources

  function UserPath(id: string): string { "users/" + id }

  /** Index of the document stored under `id`, if any. */
  function IndexOf(docs: seq<User>, id: string): (r: Option<nat>)
    ensures r.Some? ==> r.value < |docs| && docs[r.value].id == id
    ensures r.None? ==> forall i :: 0 <= i < |docs| ==> docs[i].id != id
  {
    if docs == [] then None
    else if docs[|docs| - 1].id == id then Some(|docs| - 1)
    else IndexOf(docs[..|docs| - 1], id)
  }

  /** No two documents share a key. */
  predicate UniqueIds(docs: seq<User>) {
    forall i, j :: 0 <= i < j < |docs| ==> docs[i].id != docs[j].id
  }

  /** Under unique keys, the document stored under `id` is the only one
      with that id. */
  lemma IndexOfUnique(docs: seq<User>, id: string, k: nat)
    requires UniqueIds(docs) && k < |docs| && docs[k].id == id
    ensures IndexOf(docs, id) == Some(k)
  {
  }

  /** Number of documents whose `stripeCustomerID` is `stripeID`. */
  function CountWithStripe(docs: seq<User>, stripeID: string): nat {
    |set i | 0 <= i < |docs| && docs[i].stripeCustomerID == stripeID|
  }

  class UserStore {
    var docs: seq<User>

    predicate Valid()
      reads this
    {
      UniqueIds(docs)
    }

    constructor ()
      ensures docs == [] && Valid()
    {
      docs := [];
    }

    /** `CreateUser`: creates the document under `user.id`; fails, changing
        nothing, when one exists. */
    method CreateUser(user: User) returns (r: Outcome)
      requires Valid()
      modifies this
      ensures Valid()
      ensures old(IndexOf(docs, user.id)).Some? ==> r == Fail(AlreadyExists(UserPath(user.id))) && docs == old(docs)
      ensures old(IndexOf(docs, user.id)).None? ==> r == Pass && docs == old(docs) + [user]
    {
      var k := IndexOf(docs, user.id);
      if k.Some? {
        return Fail(AlreadyExists(UserPath(user.id)));
      }
      docs := docs + [user];
      return Pass;
    }

    /** `UpdateUser`: `Set` replaces the whole document stored under
        `user.id`, or creates it. */
    method UpdateUser(user: User) returns (r: Outcome)
      requires Valid()
      modifies this
      ensures Valid() && r == Pass
      ensures old(IndexOf(docs, user.id)).Some? ==> docs == old(docs)[old(IndexOf(docs, user.id)).value := user]
      ensures old(IndexOf(docs, user.id)).None? ==> docs == old(docs) + [user]
    {
      var k := IndexOf(docs, user.id);
      if k.Some? {
        docs := docs[k.value := user];
      } else {
        docs := docs + [user];
      }
      return Pass;
    }

    /** `GetUser`: the document stored under `id`. */
    method GetUser(id: string) returns (r: Result<User>)
      requires Valid()
      ensures r.Ok? <==> exists i :: 0 <= i < |docs| && docs[i].id == id
      ensures r.Ok? ==> r.value in docs && r.value.id == id
      ensures r.Ok? ==> r.value == docs[IndexOf(docs, id).value]
      ensures r.Err? ==> r.error == NotFound(UserPath(id))
    {
      var k := IndexOf(docs, id);
      if k.None? {
        return Err(NotFound(UserPath(id)));
      }
      return Ok(docs[k.value]);
    }

    /** `HandleIsAvailable`: true exactly when no stored user has the handle. */
    method HandleIsAvailable(handle: string) returns (available: bool)
      ensures available <==> forall i :: 0 <= i < |docs| ==> docs[i].handle != handle
    {
      var i := 0;
      while i < |docs|
        invariant 0 <= i <= |docs|
        invariant forall j :: 0 <= j < i ==> docs[j].handle != handle
      {
        if docs[i].handle == handle {
          return false;
        }
        i := i + 1;
      }
      return true;
    }

    /** `GetUserWithStripe`: exactly one user may carry the customer id. */
    method GetUserWithStripe(stripeID: string) returns (r: Result<User>)
      ensures CountWithStripe(docs, stripeID) == 0 ==> r == Err(Failure("No user found."))
      ensures CountWithStripe(docs, stripeID) > 1 ==> r == Err(Failure("Multiple users found with the same stripe id"))
      ensures CountWithStripe(docs, stripeID) == 1 ==> r.Ok? && r.value in docs && r.value.stripeCustomerID == stripeID
    {
      var matches: seq<User> := [];
      ghost var positions: set<int> := {};
      for i := 0 to |docs|
        invariant positions == set j | 0 <= j < i && docs[j].stripeCustomerID == stripeID
        invariant |matches| == |positions|
        invariant forall m :: 0 <= m < |matches| ==> matches[m] in docs && matches[m].stripeCustomerID == stripeID
      {
        if docs[i].stripeCustomerID == stripeID {
          assert i !in positions;
          positions := positions + {i};
          matches := matches + [docs[i]];
        }
      }
      assert positions == set j | 0 <= j < |docs| && docs[j].stripeCustomerID == stripeID;
      if |matches| == 0 {
        return Err(Failure("No user found."));
      }
      if |matches| != 1 {
        return Err(Failure("Multiple users found with the same stripe id"));
      }
      return Ok(matches[0]);
    }
  }
}
