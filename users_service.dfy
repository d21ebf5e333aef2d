/** The user service (services/users/user.go): account creation, the
    free-seconds balance, profile updates, the provider subscription of a
    user and the usage of the current billing cycle. The clock reading,
    the provider's customer creation and its subscription listing are
    parameters. */
module Users {
  import opened Errors
  import opened Resources
  import opened Configurations
  import opened StripeSubscriptions
  import opened UserOperations
  import SubscriptionOperations
  import TranscriptOperations

  /** Every stored balance is non-negative: what the entitlement split
      relies on. */
  predicate NonNegativeBalances(docs: seq<User>) {
    forall i :: 0 <= i < |docs| ==> docs[i].freeTranscriptionSeconds >= 0
  }

  /** The record `AddUser` creates: the full free allowance, no provider
      customer, no profile yet. */
  function NewUserRecord(id: string, data: NewUser, now: Instant): (u: User)
    ensures u.id == id && u.email == data.email && u.prefersDarkMode == data.prefersDarkMode
    ensures u.freeTranscriptionSeconds == FreeAudioSeconds == 1800 && u.stripeCustomerID == ""
    ensures u.handle == "" && u.firstName == "" && u.lastName == "" && u.createdAt == now
  {
    User(id, "", data.email, "", "", "", data.prefersDarkMode, FreeAudioSeconds, now)
  }

  /** `AddUser`. */
  method AddUser(users: UserStore, id: string, data: NewUser, now: Instant) returns (r: Outcome)
    requires users.Valid()
    modifies users
    ensures users.Valid()
    ensures old(IndexOf(users.docs, id)).Some? ==>
      r == Fail(AlreadyExists(UserPath(id))) && users.docs == old(users.docs)
    ensures old(IndexOf(users.docs, id)).None? ==>
      r == Pass && users.docs == old(users.docs) + [NewUserRecord(id, data, now)]
    ensures NonNegativeBalances(old(users.docs)) ==> NonNegativeBalances(users.docs)
  {
    r := users.CreateUser(NewUserRecord(id, data, now));
  }

  /** The display name handed to the provider: first and last name joined
      by one space. */
  function CustomerName(u: User): (name: string)
    ensures |name| == |u.firstName| + 1 + |u.lastName|
    ensures name[..|u.firstName|] == u.firstName && name[|u.firstName|] == ' '
    ensures name[|u.firstName| + 1..] == u.lastName
  {
    u.firstName + " " + u.lastName
  }

  /** `AddStripe`: creates a provider customer for the stored user and
      records its id on the user, changing nothing else. */
  method AddStripe(users: UserStore, userID: string, createCustomer: (string, string) -> Result<string>)
    returns (r: Result<string>)
    requires users.Valid()
    modifies users
    ensures users.Valid()
    ensures var k := old(IndexOf(users.docs, userID));
      k.None? ==> r == Err(NotFound(UserPath(userID))) && users.docs == old(users.docs)
    ensures var k := old(IndexOf(users.docs, userID));
      k.Some? ==>
        var u := old(users.docs[k.value]);
        var c := createCustomer(u.email, CustomerName(u));
        (c.Err? ==> r == Err(c.error) && users.docs == old(users.docs)) &&
        (c.Ok? ==> r == Ok(c.value) && users.docs == old(users.docs)[k.value := u.(stripeCustomerID := c.value)])
    ensures NonNegativeBalances(old(users.docs)) ==> NonNegativeBalances(users.docs)
  {
    var user :- users.GetUser(userID);
    var customer := createCustomer(user.email, CustomerName(user));
    if customer.Err? {
      return Err(customer.error);
    }
    var updated := user.(stripeCustomerID := customer.value);
    var _ := users.UpdateUser(updated);
    return Ok(customer.value);
  }

  /** `AddSubscriptionToUser`: records the provider subscription under the
      one user that carries the customer id. */
  method AddSubscriptionToUser(users: UserStore, subs: SubscriptionOperations.SubscriptionStore,
                               customerID: string, subscriptionID: string, planID: int, freshID: string)
    returns (r: Outcome)
    modifies subs
    ensures CountWithStripe(users.docs, customerID) == 0 ==>
      r == Fail(Failure("No user found.")) && subs.records == old(subs.records)
    ensures CountWithStripe(users.docs, customerID) > 1 ==>
      r == Fail(Failure("Multiple users found with the same stripe id")) && subs.records == old(subs.records)
    ensures CountWithStripe(users.docs, customerID) == 1 ==>
      exists i :: 0 <= i < |users.docs| && users.docs[i].stripeCustomerID == customerID &&
        var k := SubscriptionOperations.SubscriptionKey(users.docs[i].id, subscriptionID);
        subs.records == SubscriptionOperations.Saved(old(subs.records), users.docs[i].id, subscriptionID, customerID, planID, freshID) &&
        r == (if k in old(subs.records) then Fail(SubscriptionOperations.AlreadyCreated) else Pass)
  {
    var user := users.GetUserWithStripe(customerID);
    if user.Err? {
      return Fail(user.error);
    }
    r := subs.SaveStripeSubscription(user.value.id, subscriptionID, user.value.stripeCustomerID, planID, freshID);
  }

  /** The balance after consuming `consumed` free seconds: the difference,
      clamped at zero. */
  function DecrementedBalance(balance: int, consumed: int): (b: int)
    ensures b >= 0 && b >= balance - consumed
    ensures b == 0 || b == balance - consumed
  {
    if balance - consumed > 0 then balance - consumed else 0
  }

  /** `DecrementFreeTier`: only the balance changes. */
  method DecrementFreeTier(users: UserStore, userID: string, consumedSeconds: int) returns (r: Outcome)
    requires users.Valid()
    modifies users
    ensures users.Valid()
    ensures var k := old(IndexOf(users.docs, userID));
      k.None? ==> r == Fail(NotFound(UserPath(userID))) && users.docs == old(users.docs)
    ensures var k := old(IndexOf(users.docs, userID));
      k.Some? ==>
        var u := old(users.docs[k.value]);
        r == Pass &&
        users.docs == old(users.docs)[k.value := u.(freeTranscriptionSeconds := DecrementedBalance(u.freeTranscriptionSeconds, consumedSeconds))]
    ensures NonNegativeBalances(old(users.docs)) ==> NonNegativeBalances(users.docs)
  {
    var user := users.GetUser(userID);
    if user.Err? {
      return Fail(user.error);
    }
    var updated := user.value.(freeTranscriptionSeconds := DecrementedBalance(user.value.freeTranscriptionSeconds, consumedSeconds));
    r := users.UpdateUser(updated);
  }

  /** The profile merge of `UpdateUser`: supplied fields overwrite, except
      that a handle is only ever set once; the identity, email, provider
      customer, balance and creation time are never touched. */
  function MergeProfile(u: User, data: UpdateUserRequest): (m: User)
    ensures m.id == u.id && m.email == u.email && m.stripeCustomerID == u.stripeCustomerID
    ensures m.freeTranscriptionSeconds == u.freeTranscriptionSeconds && m.createdAt == u.createdAt
    ensures u.handle != "" ==> m.handle == u.handle
    ensures m.handle != u.handle <==> u.handle == "" && data.handle.Some? && data.handle.value != ""
    ensures m.handle != u.handle ==> data.handle == Some(m.handle)
    ensures data.firstName.Some? ==> m.firstName == data.firstName.value
    ensures data.firstName.None? ==> m.firstName == u.firstName
    ensures data.lastName.Some? ==> m.lastName == data.lastName.value
    ensures data.lastName.None? ==> m.lastName == u.lastName
    ensures data.prefersDarkMode.Some? ==> m.prefersDarkMode == data.prefersDarkMode.value
    ensures data.prefersDarkMode.None? ==> m.prefersDarkMode == u.prefersDarkMode
  {
    var handle := if data.handle.Some? && u.handle == "" then data.handle.value else u.handle;
    var firstName := if data.firstName.Some? then data.firstName.value else u.firstName;
    var lastName := if data.lastName.Some? then data.lastName.value else u.lastName;
    var dark := if data.prefersDarkMode.Some? then data.prefersDarkMode.value else u.prefersDarkMode;
    u.(handle := handle, firstName := firstName, lastName := lastName, prefersDarkMode := dark)
  }

  /** Sending the same update twice has the effect of sending it once; and
      once a handle is set, no later update changes it. */
  lemma MergeIdempotent(u: User, data: UpdateUserRequest, later: UpdateUserRequest)
    ensures MergeProfile(MergeProfile(u, data), data) == MergeProfile(u, data)
    ensures data.handle.Some? && data.handle.value != "" ==>
      MergeProfile(MergeProfile(u, data), later).handle == MergeProfile(u, data).handle
  {
  }

  /** `UpdateUser`: reads the stored user, merges the supplied fields and
      writes the whole record back. */
  method UpdateUser(users: UserStore, id: string, data: UpdateUserRequest) returns (r: Outcome)
    requires users.Valid()
    modifies users
    ensures users.Valid()
    ensures var k := old(IndexOf(users.docs, id));
      k.None? ==> r == Fail(Failure("failed to get user: " + NotFound(UserPath(id)).Text())) && users.docs == old(users.docs)
    ensures var k := old(IndexOf(users.docs, id));
      k.Some? ==> r == Pass && users.docs == old(users.docs)[k.value := MergeProfile(old(users.docs[k.value]), data)]
    ensures NonNegativeBalances(old(users.docs)) ==> NonNegativeBalances(users.docs)
  {
    var snap := users.GetUser(id);
    if snap.Err? {
      return Fail(Failure("failed to get user: " + snap.error.Text()));
    }
    r := users.UpdateUser(MergeProfile(snap.value, data));
  }

  /** What `GetUserStripeSub` reports for a stored user. */
  function UserStripeSub(docs: seq<User>, id: string, list: string -> Listing): Result<Option<SubscriptionStatus>> {
    var k := IndexOf(docs, id);
    if k.None? then Err(NotFound(UserPath(id)))
    else if docs[k.value].stripeCustomerID == "" then Ok(None)
    else SelectSubscription(list(docs[k.value].stripeCustomerID))
  }

  /** `GetUserStripeSub`: a user without a provider customer has no
      subscription, and that is not an error. */
  method GetUserStripeSub(users: UserStore, id: string, list: string -> Listing)
    returns (r: Result<Option<SubscriptionStatus>>)
    requires users.Valid()
    ensures r == UserStripeSub(users.docs, id, list)
    ensures IndexOf(users.docs, id).None? ==> r == Err(NotFound(UserPath(id)))
    ensures var k := IndexOf(users.docs, id);
      k.Some? && users.docs[k.value].stripeCustomerID == "" ==> r == Ok(None)
    ensures var k := IndexOf(users.docs, id);
      k.Some? && users.docs[k.value].stripeCustomerID != "" ==>
        r == SelectSubscription(list(users.docs[k.value].stripeCustomerID))
  {
    var user :- users.GetUser(id);
    if user.stripeCustomerID == "" {
      return Ok(None);
    }
    r := CheckUserSubscription(user.stripeCustomerID, list);
  }

  /** The billing window of the usage report and what it is reported with. */
  datatype Window = Window(planName: string, start: Instant, end: Instant, limit: int, renewsAt: Option<Instant>)

  const ThirtyDays: int := 30 * 24 * 3600 * NanosPerSecond

  /** The window: without a subscription, from the epoch to thirty days
      from now under the free allowance; with one, its billing cycle under
      the limit of the tier its price belongs to. */
  function WindowFor(sub: Option<SubscriptionStatus>, mode: BackendMode, now: Instant): (r: Result<Window>)
    ensures sub.None? ==> r == Ok(Window("Free Tier", 0, now + ThirtyDays, FreeAudioSeconds, None))
    ensures sub.Some? ==>
      var s := sub.value;
      var tier := GetSubscriptionTier(mode, s.priceID);
      (tier.Err? ==> r == Err(tier.error)) &&
      (tier.Ok? ==> (r.Ok? &&
         Ok(r.value.planName) == GetPlanNameByPriceID(mode, s.priceID) &&
         Ok(r.value.limit) == GetMonthlyAudioSecondsByPriceID(mode, s.priceID) &&
         r.value.start == s.billingCycleStart && r.value.end == s.billingCycleEnd &&
         r.value.renewsAt == Some(s.billingCycleEnd)))
  {
    if sub.None? then Ok(Window("Free Tier", 0, now + ThirtyDays, FreeAudioSeconds, None))
    else
      var s := sub.value;
      var tier :- GetSubscriptionTier(mode, s.priceID);
      // A tier found by price is in the plan table, so neither lookup fails.
      var planName := GetPlanName(tier).value;
      var limit := GetMonthlyAudioSeconds(tier).value;
      Ok(Window(planName, s.billingCycleStart, s.billingCycleEnd, limit, Some(s.billingCycleEnd)))
  }

  /** Running sums of the usage report. */
  datatype Totals = Totals(count: int, audio: int, free: int, paid: int, inputTokens: int, outputTokens: int)
  {
    function Plus(o: Totals): Totals {
      Totals(count + o.count, audio + o.audio, free + o.free, paid + o.paid,
             inputTokens + o.inputTokens, outputTokens + o.outputTokens)
    }
  }

  const NoTotals: Totals := Totals(0, 0, 0, 0, 0, 0)

  /** What one transcript adds to the sums. */
  function Contribution(t: Transcript): Totals {
    Totals(1, t.consumedInputAudioSeconds, t.consumedFreeAudioSeconds,
           t.consumedInputAudioSeconds - t.consumedFreeAudioSeconds,
           t.consumedInputTokens, t.consumedOutputTokens)
  }

  function Sum(ts: seq<Transcript>): Totals {
    if ts == [] then NoTotals else Sum(ts[..|ts| - 1]).Plus(Contribution(ts[|ts| - 1]))
  }

  lemma {:induction false} SumAppend(a: seq<Transcript>, b: seq<Transcript>)
    ensures Sum(a + b) == Sum(a).Plus(Sum(b))
  {
    if b != [] {
      var n := |b| - 1;
      assert (a + b)[..|a + b| - 1] == a + b[..n];
      SumAppend(a, b[..n]);
    } else {
      assert a + b == a;
    }
  }

  lemma SplitAt<T>(b: seq<T>, k: nat)
    requires k < |b|
    ensures b == b[..k] + [b[k]] + b[k + 1..]
    ensures multiset(b[..k] + b[k + 1..]) == multiset(b) - multiset([b[k]])
  {
    assert b[k..] == [b[k]] + b[k + 1..];
    assert b == b[..k] + b[k..];
    assert multiset(b) == multiset(b[..k]) + multiset([b[k]]) + multiset(b[k + 1..]);
  }

  /** Taking one record out of the middle takes its contribution out of
      the sums. */
  lemma SumRemove(b: seq<Transcript>, k: nat)
    requires k < |b|
    ensures Sum(b) == Sum(b[..k] + b[k + 1..]).Plus(Contribution(b[k]))
  {
    var x, front, back := b[k], b[..k], b[k + 1..];
    SplitAt(b, k);
    SumAppend(front + [x], back);
    SumAppend(front, [x]);
    SumAppend(front, back);
    SumSingle(x);
  }

  lemma SumSingle(x: Transcript)
    ensures Sum([x]) == Contribution(x)
  {
    assert [x][..0] == [];
  }

  /** The sums do not depend on the order of the records. */
  lemma {:induction false} SumPermutation(a: seq<Transcript>, b: seq<Transcript>)
    requires multiset(a) == multiset(b)
    ensures Sum(a) == Sum(b)
    decreases |a|
  {
    if a == [] {
      assert |b| == |multiset(b)| == 0;
    } else {
      var n := |a| - 1;
      var x := a[n];
      assert a == a[..n] + [x];
      assert multiset(a[..n]) == multiset(a) - multiset([x]);
      assert x in multiset(b);
      var k :| 0 <= k < |b| && b[k] == x;
      SplitAt(b, k);
      SumRemove(b, k);
      SumPermutation(a[..n], b[..k] + b[k + 1..]);
    }
  }

  /** The count is the number of records, and the paid seconds are the
      total less the free ones. */
  lemma {:induction false} SumShape(ts: seq<Transcript>)
    ensures Sum(ts).count == |ts|
    ensures Sum(ts).paid == Sum(ts).audio - Sum(ts).free
  {
    if ts != [] {
      SumShape(ts[..|ts| - 1]);
    }
  }

  /** When every record bills no more free seconds than audio seconds, and
      neither is negative, the cycle's free and paid seconds are
      non-negative and within its total. */
  lemma {:induction false} SumBounds(ts: seq<Transcript>)
    requires forall i :: 0 <= i < |ts| ==> 0 <= ts[i].consumedFreeAudioSeconds <= ts[i].consumedInputAudioSeconds
    ensures 0 <= Sum(ts).free <= Sum(ts).audio
    ensures 0 <= Sum(ts).paid <= Sum(ts).audio
  {
    if ts != [] {
      SumBounds(ts[..|ts| - 1]);
      SumShape(ts);
    }
  }

  /** The usage report of a window over its records. The audio-token field
      is never filled in. */
  function UsageOf(w: Window, ts: seq<Transcript>): SubscriptionUsage {
    var s := Sum(ts);
    SubscriptionUsage(w.planName, w.renewsAt, w.limit, s.count, s.audio, s.free, s.paid, 0, s.inputTokens, s.outputTokens)
  }

  /** The report is the same whatever order the store returns the records in. */
  lemma UsageOrderIndependent(w: Window, a: seq<Transcript>, b: seq<Transcript>)
    requires multiset(a) == multiset(b)
    ensures UsageOf(w, a) == UsageOf(w, b)
  {
    SumPermutation(a, b);
  }

  /** What `GetCurrentBillingCycleUsage` reports: the user's records created
      inside the window, summed. */
  function CycleUsage(userDocs: seq<User>, transcripts: seq<TranscriptOperations.StoredTranscript>, userID: string,
                      mode: BackendMode, list: string -> Listing, now: Instant): Result<SubscriptionUsage>
  {
    var sub :- UserStripeSub(userDocs, userID, list);
    var w :- WindowFor(sub, mode, now);
    Ok(UsageOf(w, TranscriptOperations.InWindow(TranscriptOperations.OwnedBy(transcripts, userID), w.start, w.end)))
  }

  /** `GetCurrentBillingCycleUsage`. */
  method GetCurrentBillingCycleUsage(users: UserStore, transcripts: TranscriptOperations.TranscriptStore,
                                     userID: string, mode: BackendMode, list: string -> Listing, now: Instant)
    returns (r: Result<SubscriptionUsage>)
    requires users.Valid()
    ensures r == CycleUsage(users.docs, transcripts.docs, userID, mode, list, now)
  {
    var stripeSub :- GetUserStripeSub(users, userID, list);
    var w :- WindowFor(stripeSub, mode, now);
    var records := transcripts.GetTranscripts(userID, w.start, w.end);
    var usage := UsageOf(w, []);
    for i := 0 to |records|
      invariant usage == UsageOf(w, records[..i])
    {
      var t := records[i];
      assert records[..i + 1][..i] == records[..i];
      usage := usage.(
        transcriptsCount := usage.transcriptsCount + 1,
        consumedInputAudioSeconds := usage.consumedInputAudioSeconds + t.consumedInputAudioSeconds,
        consumedFreeInputAudioSeconds := usage.consumedFreeInputAudioSeconds + t.consumedFreeAudioSeconds,
        consumedPaidInputAudioSeconds := usage.consumedPaidInputAudioSeconds + (t.consumedInputAudioSeconds - t.consumedFreeAudioSeconds),
        consumedTotalInputTokens := usage.consumedTotalInputTokens + t.consumedInputTokens,
        consumedOutputTokens := usage.consumedOutputTokens + t.consumedOutputTokens);
    }
    assert records[..|records|] == records;
    UsageOrderIndependent(w, records, TranscriptOperations.InWindow(TranscriptOperations.OwnedBy(transcripts.docs, userID), w.start, w.end));
    return Ok(usage);
  }
}
