/** Locally persisted subscription records
    (services/data/firestore/operations/subscriptions.go). A record lives
    under `users/<userID>/subscriptions/<stripe subscription id>`, so the
    store is a map from that pair of keys. */
module SubscriptionOperations {
  import opened Errors
  import opened Resources

  datatype SubscriptionKey = SubscriptionKey(userID: string, stripeSubscriptionID: string)

  function SubscriptionPath(k: SubscriptionKey): string {
    "users/" + k.userID + "/subscriptions/" + k.stripeSubscriptionID
  }

  const AlreadyCreated: Error := Failure("Subscription already created")

  /** The record a first save stores. */
  function NewRecord(id: string, userID: string, subscriptionID: string, customerID: string, planID: int): (s: Subscription)
    ensures s.id == id && s.userID == userID && s.stripeSubscriptionID == subscriptionID
    ensures s.stripeCustomerID == customerID && s.planID == planID
  {
    Subscription(id, userID, planID, customerID, subscriptionID)
  }

  class SubscriptionStore {
    var records: map<SubscriptionKey, Subscription>

    constructor ()
      ensures records == map[]
    {
      records := map[];
    }

    /** `SaveStripeSubscription`: insert-if-absent under (user, stripe
        subscription id); `freshID` is the generated record id. */
    method SaveStripeSubscription(userID: string, subscriptionID: string, customerID: string, planID: int, freshID: string)
      returns (r: Outcome)
      modifies this
      ensures var k := SubscriptionKey(userID, subscriptionID);
        k in old(records) ==> r == Fail(AlreadyCreated)
      ensures SubscriptionKey(userID, subscriptionID) !in old(records) ==> r == Pass
      ensures records == Saved(old(records), userID, subscriptionID, customerID, planID, freshID)
    {
      var k := SubscriptionKey(userID, subscriptionID);
      if k in records {
        return Fail(AlreadyCreated);
      }
      records := records[k := NewRecord(freshID, userID, subscriptionID, customerID, planID)];
      return Pass;
    }

    /** `GetSubscription`: the stored record, or the store's not-found error
        (never a missing record without an error). */
    method GetSubscription(userID: string, subscriptionID: string) returns (r: Result<Subscription>)
      ensures var k := SubscriptionKey(userID, subscriptionID);
        r == if k in records then Ok(records[k]) else Err(NotFound(SubscriptionPath(k)))
    {
      var k := SubscriptionKey(userID, subscriptionID);
      if k !in records {
        return Err(NotFound(SubscriptionPath(k)));
      }
      return Ok(records[k]);
    }
  }

  /** The store after a save: insert-if-absent. */
  function Saved(records: map<SubscriptionKey, Subscription>, userID: string, subscriptionID: string,
                 customerID: string, planID: int, freshID: string): map<SubscriptionKey, Subscription>
  {
    var k := SubscriptionKey(userID, subscriptionID);
    if k in records then records else records[k := NewRecord(freshID, userID, subscriptionID, customerID, planID)]
  }

  /** A second save under the same key changes nothing: the first record
      is kept, whatever the second save carries. */
  lemma SecondSaveKeepsFirst(records: map<SubscriptionKey, Subscription>, userID: string, subscriptionID: string,
                             customerID: string, customerID': string, planID: int, planID': int, id: string, id': string)
    ensures var once := Saved(records, userID, subscriptionID, customerID, planID, id);
      Saved(once, userID, subscriptionID, customerID', planID', id') == once
    ensures var once := Saved(records, userID, subscriptionID, customerID, planID, id);
      SubscriptionKey(userID, subscriptionID) !in records ==>
        once[SubscriptionKey(userID, subscriptionID)] == NewRecord(id, userID, subscriptionID, customerID, planID)
  {
  }
}
