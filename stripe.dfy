/** Selecting and cancelling a customer's provider subscriptions
    (services/stripe/subscriptions.go). The provider's list call is a
    function from customer id to what its iterator yields: the listed
    subscriptions and, possibly, an error after the last of them. */
module StripeSubscriptions {
  import opened Errors
  import opened Resources

  datatype SubscriptionItem = SubscriptionItem(
    priceID: string,
    currentPeriodStart: int,
    currentPeriodEnd: int)

  datatype StripeSubscription = StripeSubscription(
    id: string,
    status: string,
    items: seq<SubscriptionItem>)

  /** What iterating a list call yields. */
  datatype Listing = Listing(subscriptions: seq<StripeSubscription>, err: Option<Error>)

  const StatusActive: string := "active"
  const StatusPastDue: string := "past_due"

  /** `SubscriptionStatus`: the provider's view of the selected subscription. */
  datatype SubscriptionStatus = SubscriptionStatus(
    id: string,
    status: string,
    priceID: string,
    billingCycleStart: Instant,
    billingCycleEnd: Instant)

  /** A listed subscription `CheckUserSubscription` may select. */
  predicate Qualifies(s: StripeSubscription) {
    s.status == StatusActive && |s.items| > 0
  }

  /** What is reported for a selected subscription: its own id and status,
      and the price and billing period of its first item. */
  function StatusOf(s: StripeSubscription): (r: SubscriptionStatus)
    requires |s.items| > 0
    ensures r.id == s.id && r.status == s.status && r.priceID == s.items[0].priceID
    ensures r.billingCycleStart == UnixSeconds(s.items[0].currentPeriodStart)
    ensures r.billingCycleEnd == UnixSeconds(s.items[0].currentPeriodEnd)
  {
    var item := s.items[0];
    SubscriptionStatus(s.id, s.status, item.priceID, UnixSeconds(item.currentPeriodStart), UnixSeconds(item.currentPeriodEnd))
  }

  function ListingError(e: Error): Error {
    Failure("error checking subscriptions: " + e.Text())
  }

  /** Index of the first listed subscription that qualifies, if any. */
  function FirstQualifying(subs: seq<StripeSubscription>): (k: Option<nat>)
    ensures k.Some? ==> k.value < |subs| && Qualifies(subs[k.value]) &&
                        forall j :: 0 <= j < k.value ==> !Qualifies(subs[j])
    ensures k.None? ==> forall j :: 0 <= j < |subs| ==> !Qualifies(subs[j])
  {
    if subs == [] then None
    else if Qualifies(subs[0]) then Some(0)
    else
      var rest := FirstQualifying(subs[1..]);
      assert forall j :: 0 < j < |subs| ==> subs[j] == subs[1..][j - 1];
      if rest.Some? then Some(rest.value + 1) else None
  }

  /** What `CheckUserSubscription` reports for a listing: the first
      qualifying subscription; otherwise the iterator's error, if any;
      otherwise nothing. */
  function SelectSubscription(listing: Listing): Result<Option<SubscriptionStatus>> {
    var k := FirstQualifying(listing.subscriptions);
    if k.Some? then Ok(Some(StatusOf(listing.subscriptions[k.value])))
    else if listing.err.Some? then Err(ListingError(listing.err.value))
    else Ok(None)
  }

  /** A subscription is reported exactly when one qualifies, and then it is
      the first one; an iterator error surfaces only when none qualifies. */
  lemma SelectionIsFirstMatch(listing: Listing)
    ensures var r := SelectSubscription(listing); var subs := listing.subscriptions;
      (r.Ok? && r.value.Some? <==> exists k :: 0 <= k < |subs| && Qualifies(subs[k])) &&
      (r.Ok? && r.value.Some? ==>
         exists k :: 0 <= k < |subs| && Qualifies(subs[k]) && (forall j :: 0 <= j < k ==> !Qualifies(subs[j])) &&
           r.value.value == StatusOf(subs[k])) &&
      (r.Err? <==> listing.err.Some? && forall k :: 0 <= k < |subs| ==> !Qualifies(subs[k]))
  {
    var k := FirstQualifying(listing.subscriptions);
    if k.Some? {
      assert Qualifies(listing.subscriptions[k.value]);
    }
  }

  /** `CheckUserSubscription`: walks the listing until a subscription
      qualifies. */
  method CheckUserSubscription(stripeCustomerID: string, list: string -> Listing)
    returns (r: Result<Option<SubscriptionStatus>>)
    ensures r == SelectSubscription(list(stripeCustomerID))
  {
    var listing := list(stripeCustomerID);
    var subs := listing.subscriptions;
    var i := 0;
    while i < |subs|
      invariant 0 <= i <= |subs|
      invariant forall j :: 0 <= j < i ==> !Qualifies(subs[j])
    {
      var sub := subs[i];
      if sub.status != StatusActive {
        i := i + 1;
        continue;
      }
      if |sub.items| == 0 {
        i := i + 1;
        continue;
      }
      return Ok(Some(StatusOf(sub)));
    }
    if listing.err.Some? {
      return Err(ListingError(listing.err.value));
    }
    return Ok(None);
  }

  /** Ids of the listed subscriptions that are not ignored, in listing order. */
  function ToCancel(subs: seq<StripeSubscription>, ignore: set<string>): (ids: seq<string>)
    ensures |ids| <= |subs|
  {
    if subs == [] then []
    else
      var front := ToCancel(subs[..|subs| - 1], ignore);
      var last := subs[|subs| - 1];
      if last.id in ignore then front else front + [last.id]
  }

  /** The errors of the cancellations that failed, in call order. */
  function CancelFailures(ids: seq<string>, cancel: string -> Option<Error>): (errs: seq<Error>)
    ensures |errs| <= |ids|
  {
    if ids == [] then []
    else
      var front := CancelFailures(ids[..|ids| - 1], cancel);
      var e := cancel(ids[|ids| - 1]);
      if e.Some? then front + [e.value] else front
  }

  /** A subscription is cancelled exactly when it is listed and its id is
      not ignored. */
  lemma {:induction false} ToCancelExact(subs: seq<StripeSubscription>, ignore: set<string>, id: string)
    ensures id in ToCancel(subs, ignore) <==> id !in ignore && exists k :: 0 <= k < |subs| && subs[k].id == id
  {
    if subs != [] {
      var front := subs[..|subs| - 1];
      ToCancelExact(front, ignore, id);
      if exists k :: 0 <= k < |subs| && subs[k].id == id {
        var k :| 0 <= k < |subs| && subs[k].id == id;
        if k < |subs| - 1 {
          assert front[k].id == id;
        }
      }
      if exists k :: 0 <= k < |front| && front[k].id == id {
        var k :| 0 <= k < |front| && front[k].id == id;
        assert subs[k].id == id;
      }
    }
  }

  /** The positions of the ids whose cancellation the provider refused. */
  ghost function FailedPositions(ids: seq<string>, cancel: string -> Option<Error>): set<int> {
    set i | 0 <= i < |ids| && cancel(ids[i]).Some?
  }

  lemma FailedPositionsStep(ids: seq<string>, cancel: string -> Option<Error>)
    requires ids != []
    ensures var n := |ids| - 1;
      FailedPositions(ids, cancel) ==
        FailedPositions(ids[..n], cancel) + (if cancel(ids[n]).Some? then {n} else {})
  {
    var n := |ids| - 1;
    var front := ids[..n];
    assert forall i :: 0 <= i < n ==> front[i] == ids[i];
  }

  /** Every cancellation that fails is reported: the failures are as many
      as the cancelled ids the provider refused. */
  lemma {:induction false} AllFailuresReported(ids: seq<string>, cancel: string -> Option<Error>)
    ensures |CancelFailures(ids, cancel)| == |FailedPositions(ids, cancel)|
  {
    if ids != [] {
      var n := |ids| - 1;
      AllFailuresReported(ids[..n], cancel);
      FailedPositionsStep(ids, cancel);
      assert n !in FailedPositions(ids[..n], cancel);
    }
  }

  function IgnoreSet(subsToIgnore: seq<string>): set<string> {
    set i | 0 <= i < |subsToIgnore| :: subsToIgnore[i]
  }

  /** `CancelUserSubsctiptions`: cancels every listed subscription that is
      not in `subsToIgnore`, keeps going after a failed cancellation, and
      appends the iterator's error last. Besides the Go result it returns
      the ids it asked the provider to cancel. */
  method CancelUserSubsctiptions(
    customerID: string,
    subsToIgnore: seq<string>,
    list: string -> Listing,
    cancel: string -> Option<Error>)
    returns (errors: seq<Error>, cancelled: seq<string>)
    ensures cancelled == ToCancel(list(customerID).subscriptions, IgnoreSet(subsToIgnore))
    ensures var e := list(customerID).err;
      errors == CancelFailures(cancelled, cancel) + (if e.Some? then [e.value] else [])
  {
    var ignoreMap: map<string, bool> := map[];
    for i := 0 to |subsToIgnore|
      invariant ignoreMap.Keys == IgnoreSet(subsToIgnore[..i])
      invariant forall id :: id in ignoreMap ==> ignoreMap[id]
    {
      assert IgnoreSet(subsToIgnore[..i + 1]) == IgnoreSet(subsToIgnore[..i]) + {subsToIgnore[i]};
      ignoreMap := ignoreMap[subsToIgnore[i] := true];
    }
    assert subsToIgnore[..|subsToIgnore|] == subsToIgnore;

    var listing := list(customerID);
    var subs := listing.subscriptions;
    errors, cancelled := [], [];
    for i := 0 to |subs|
      invariant cancelled == ToCancel(subs[..i], IgnoreSet(subsToIgnore))
      invariant errors == CancelFailures(cancelled, cancel)
    {
      var sub := subs[i];
      assert subs[..i + 1][..i] == subs[..i];
      if sub.id in ignoreMap && ignoreMap[sub.id] {
        continue;
      }
      var err := cancel(sub.id);
      assert (cancelled + [sub.id])[..|cancelled|] == cancelled;
      cancelled := cancelled + [sub.id];
      if err.Some? {
        errors := errors + [err.value];
      }
    }
    assert subs[..|subs|] == subs;
    if listing.err.Some? {
      errors := errors + [listing.err.value];
    }
  }
}
