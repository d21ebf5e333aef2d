/** The transcription entitlement decision and the wait for an uploaded
    file (services/transcribe/transcribe.go). The decision is a chain of
    guarded returns over looked-up values; `Decide` states it over those
    values and `TranscriptionAllowed` performs the lookups on the stores.
    The generative engine's client, upload and generate calls are not part
    of this model; its file-status lookup is a parameter. */
module Transcribe {
  import opened Errors
  import opened Resources
  import opened Configurations
  import opened StripeSubscriptions
  import UserOperations
  import SubscriptionOperations
  import TranscriptOperations
  import Users

  /** What `TranscriptionAllowed` returns: the local subscription id the
      request is billed to (empty when the free balance covers it), the
      free seconds it consumes, and the error when it is refused. */
  datatype Decision = Decision(subscriptionID: string, consumedFreeSeconds: int, err: Option<Error>)

  function Refused(e: Error): Decision { Decision("", 0, Some(e)) }

  function Min(a: int, b: int): int { if a <= b then a else b }

  /** The decision over the looked-up values: the user, the provider
      subscription selected for the user's customer id, the local record
      for a provider subscription id, and the current cycle's usage. */
  function Decide(audioSeconds: int, user: Result<User>, stripeSub: Result<Option<SubscriptionStatus>>,
                  local: string -> Result<Subscription>, mode: BackendMode, usage: Result<SubscriptionUsage>): (d: Decision)
    // A failed user lookup refuses the request.
    ensures user.Err? ==> d == Refused(user.error)
    // A free balance that covers the audio allows it, consuming exactly the
    // audio from the balance and consulting no subscription.
    ensures user.Ok? && user.value.freeTranscriptionSeconds >= audioSeconds ==> d == Decision("", audioSeconds, None)
    // Otherwise a provider customer is needed ...
    ensures user.Ok? && user.value.freeTranscriptionSeconds < audioSeconds && user.value.stripeCustomerID == "" ==>
      d == Refused(UserHasNoStripeAccount)
    // ... with an active subscription.
    ensures user.Ok? && user.value.freeTranscriptionSeconds < audioSeconds && user.value.stripeCustomerID != "" ==>
      (stripeSub.Err? ==> d == Refused(stripeSub.error)) &&
      (stripeSub == Ok(None) ==> d == Refused(UserHasNoActiveSubscription)) &&
      (stripeSub.Ok? && stripeSub.value.Some? && stripeSub.value.value.status == StatusPastDue ==>
         d == Refused(UserSubscriptionIsExpired)) &&
      (stripeSub.Ok? && stripeSub.value.Some? && stripeSub.value.value.status !in {StatusPastDue, StatusActive} ==>
         d == Refused(UserHasNoActiveSubscription))
    // A request is only ever allowed with no error, and then it consumes
    // the smaller of the balance and the audio from the free balance.
    ensures d.err.None? ==> user.Ok? && d.consumedFreeSeconds == Min(user.value.freeTranscriptionSeconds, audioSeconds)
    // A paid request names the local record of the selected subscription.
    ensures d.subscriptionID != "" ==>
      user.Ok? && stripeSub.Ok? && stripeSub.value.Some? && local(stripeSub.value.value.id).Ok? &&
      d.subscriptionID == local(stripeSub.value.value.id).value.id
    // Every refusal except the cap names no subscription and consumes nothing.
    ensures d.err.Some? ==> d.consumedFreeSeconds == 0
    ensures d.err.Some? && d.err != Some(ExceededSubscriptionTranscriptionLimits) ==> d.subscriptionID == ""
  {
    if user.Err? then Refused(user.error)
    else
      var u := user.value;
      if u.freeTranscriptionSeconds >= audioSeconds then Decision("", audioSeconds, None)
      else if u.stripeCustomerID == "" then Refused(UserHasNoStripeAccount)
      else if stripeSub.Err? then Refused(stripeSub.error)
      else if stripeSub.value.None? then Refused(UserHasNoActiveSubscription)
      else
        var s := stripeSub.value.value;
        if s.status == StatusPastDue then Refused(UserSubscriptionIsExpired)
        else if s.status != StatusActive then Refused(UserHasNoActiveSubscription)
        else
          var subscription := local(s.id);
          if subscription.Err? then Refused(subscription.error)
          else
            var tier := GetSubscriptionTier(mode, s.priceID);
            if tier.Err? then Refused(tier.error)
            else
              // A tier found by price is in the plan table, so its cap exists.
              var limit := GetMonthlyAudioSeconds(tier.value).value;
              if usage.Err? then Refused(usage.error)
              else
                var toPay := audioSeconds - u.freeTranscriptionSeconds;
                if usage.value.consumedInputAudioSeconds + toPay > limit then
                  Decision(subscription.value.id, 0, Some(ExceededSubscriptionTranscriptionLimits))
                else Decision(subscription.value.id, u.freeTranscriptionSeconds, None)
  }

  /** The paid path: with an active subscription whose record, tier and
      usage are all found, the request is refused exactly when the cycle's
      total audio (free seconds included) plus the seconds to pay would
      exceed the tier's cap; reaching the cap exactly is allowed. */
  lemma PaidPath(audioSeconds: int, user: Result<User>, stripeSub: Result<Option<SubscriptionStatus>>,
                  local: string -> Result<Subscription>, mode: BackendMode, usage: Result<SubscriptionUsage>)
    requires user.Ok? && user.value.freeTranscriptionSeconds < audioSeconds && user.value.stripeCustomerID != ""
    requires stripeSub.Ok? && stripeSub.value.Some? && stripeSub.value.value.status == StatusActive
    requires local(stripeSub.value.value.id).Ok?
    requires GetMonthlyAudioSecondsByPriceID(mode, stripeSub.value.value.priceID).Ok?
    requires usage.Ok?
    ensures var d := Decide(audioSeconds, user, stripeSub, local, mode, usage);
      var limit := GetMonthlyAudioSecondsByPriceID(mode, stripeSub.value.value.priceID).value;
      var toPay := audioSeconds - user.value.freeTranscriptionSeconds;
      var id := local(stripeSub.value.value.id).value.id;
      (usage.value.consumedInputAudioSeconds + toPay > limit ==>
         d == Decision(id, 0, Some(ExceededSubscriptionTranscriptionLimits))) &&
      (usage.value.consumedInputAudioSeconds + toPay <= limit ==>
         d == Decision(id, user.value.freeTranscriptionSeconds, None))
  {
    var tier := GetSubscriptionTier(mode, stripeSub.value.value.priceID);
    assert tier.Ok?;
    assert GetMonthlyAudioSeconds(tier.value) == GetMonthlyAudioSecondsByPriceID(mode, stripeSub.value.value.priceID);
  }

  /** A failed record, tier or usage lookup on the paid path refuses the
      request with that lookup's error. */
  lemma LookupFailuresRefuse(audioSeconds: int, user: Result<User>, stripeSub: Result<Option<SubscriptionStatus>>,
                  local: string -> Result<Subscription>, mode: BackendMode, usage: Result<SubscriptionUsage>)
    requires user.Ok? && user.value.freeTranscriptionSeconds < audioSeconds && user.value.stripeCustomerID != ""
    requires stripeSub.Ok? && stripeSub.value.Some? && stripeSub.value.value.status == StatusActive
    ensures var d := Decide(audioSeconds, user, stripeSub, local, mode, usage);
      var s := stripeSub.value.value;
      var tier := GetSubscriptionTier(mode, s.priceID);
      (local(s.id).Err? ==> d == Refused(local(s.id).error)) &&
      (local(s.id).Ok? && tier.Err? ==> d == Refused(tier.error)) &&
      (local(s.id).Ok? && tier.Ok? && usage.Err? ==> d == Refused(usage.error))
  {
  }

  /** With a non-negative balance and non-negative audio, an allowed
      request splits the audio into free seconds within the balance and a
      non-negative paid remainder. */
  lemma AllowedSplit(audioSeconds: int, user: Result<User>, stripeSub: Result<Option<SubscriptionStatus>>,
                     local: string -> Result<Subscription>, mode: BackendMode, usage: Result<SubscriptionUsage>)
    requires user.Ok? && user.value.freeTranscriptionSeconds >= 0 && audioSeconds >= 0
    ensures var d := Decide(audioSeconds, user, stripeSub, local, mode, usage);
      d.err.None? ==>
        0 <= d.consumedFreeSeconds <= user.value.freeTranscriptionSeconds &&
        0 <= audioSeconds - d.consumedFreeSeconds &&
        Users.DecrementedBalance(user.value.freeTranscriptionSeconds, d.consumedFreeSeconds) ==
          user.value.freeTranscriptionSeconds - d.consumedFreeSeconds
  {
  }

  /** The subscription `CheckUserSubscription` selects is always active,
      so on the decision's paid path the past-due and other-status refusals
      are never reached for it. */
  lemma SelectedIsActive(listing: Listing)
    ensures var r := SelectSubscription(listing);
      r.Ok? && r.value.Some? ==> r.value.value.status == StatusActive
  {
    var r := SelectSubscription(listing);
    SelectionIsFirstMatch(listing);
    if r.Ok? && r.value.Some? {
      var k :| 0 <= k < |listing.subscriptions| && Qualifies(listing.subscriptions[k]) &&
               r.value.value == StatusOf(listing.subscriptions[k]);
    }
  }

  /** The user lookup as `GetUser` reports it. */
  function LookupUser(docs: seq<User>, userID: string): Result<User> {
    var k := UserOperations.IndexOf(docs, userID);
    if k.Some? then Ok(docs[k.value]) else Err(NotFound(UserOperations.UserPath(userID)))
  }

  /** The local record lookup as `GetSubscription` reports it. */
  function LookupSubscription(records: map<SubscriptionOperations.SubscriptionKey, Subscription>, userID: string,
                              subscriptionID: string): Result<Subscription>
  {
    var k := SubscriptionOperations.SubscriptionKey(userID, subscriptionID);
    if k in records then Ok(records[k]) else Err(NotFound(SubscriptionOperations.SubscriptionPath(k)))
  }

  /** The decision over the stores' contents. */
  function Allowed(userDocs: seq<User>, records: map<SubscriptionOperations.SubscriptionKey, Subscription>,
                   transcripts: seq<TranscriptOperations.StoredTranscript>, userID: string, audioSeconds: int,
                   mode: BackendMode, list: string -> Listing, now: Instant): Decision
  {
    var user := LookupUser(userDocs, userID);
    var stripeSub := if user.Ok? then SelectSubscription(list(user.value.stripeCustomerID)) else Ok(None);
    Decide(audioSeconds, user, stripeSub, id => LookupSubscription(records, userID, id), mode,
           Users.CycleUsage(userDocs, transcripts, userID, mode, list, now))
  }

  /** `TranscriptionAllowed`: performs only the lookups the decision
      reaches, in the order it reaches them. */
  method TranscriptionAllowed(users: UserOperations.UserStore, subs: SubscriptionOperations.SubscriptionStore,
                              transcripts: TranscriptOperations.TranscriptStore, userID: string, audioSeconds: int,
                              mode: BackendMode, list: string -> Listing, now: Instant)
    returns (subscriptionID: string, consumedFreeSeconds: int, err: Option<Error>)
    requires users.Valid()
    ensures Decision(subscriptionID, consumedFreeSeconds, err) ==
      Allowed(users.docs, subs.records, transcripts.docs, userID, audioSeconds, mode, list, now)
  {
    var user := users.GetUser(userID);
    if user.Err? {
      return "", 0, Some(user.error);
    }
    var u := user.value;
    if u.freeTranscriptionSeconds >= audioSeconds {
      return "", audioSeconds, None;
    }
    if u.stripeCustomerID == "" {
      return "", 0, Some(UserHasNoStripeAccount);
    }
    var stripeSub := CheckUserSubscription(u.stripeCustomerID, list);
    if stripeSub.Err? {
      return "", 0, Some(stripeSub.error);
    }
    if stripeSub.value.None? {
      return "", 0, Some(UserHasNoActiveSubscription);
    }
    var s := stripeSub.value.value;
    if s.status == StatusPastDue {
      return "", 0, Some(UserSubscriptionIsExpired);
    }
    if s.status != StatusActive {
      return "", 0, Some(UserHasNoActiveSubscription);
    }
    var subscription := subs.GetSubscription(userID, s.id);
    if subscription.Err? {
      return "", 0, Some(subscription.error);
    }
    var tier := GetSubscriptionTier(mode, s.priceID);
    if tier.Err? {
      return "", 0, Some(tier.error);
    }
    var limit := GetMonthlyAudioSeconds(tier.value).value;
    var usage := Users.GetCurrentBillingCycleUsage(users, transcripts, userID, mode, list, now);
    if usage.Err? {
      // Cannot happen here: the usage report repeats the user lookup, the
      // listing and the tier lookup that have just succeeded.
      assert false;
    }
    var toPay := audioSeconds - u.freeTranscriptionSeconds;
    if usage.value.consumedInputAudioSeconds + toPay > limit {
      return subscription.value.id, 0, Some(ExceededSubscriptionTranscriptionLimits);
    }
    return subscription.value.id, u.freeTranscriptionSeconds, None;
  }

  /** The engine's view of an uploaded file. */
  datatype FileState = StateUnspecified | StateProcessing | StateActive | StateFailed
  datatype File = File(state: FileState, error: string)

  const MaxStatusChecks: nat := 10

  function StatusCheckError(e: Error): Error { Failure("error checking file status: " + e.Text()) }
  function UploadFailedError(f: File): Error { Failure("Failed to upload file! Got error " + f.error) }
  const TimeoutError: Error := Failure("Timeout ocurred while awaiting the ready file state")

  /** `awaitActiveFile`: asks for the file's state at most ten times and
      stops at the first active state or the first failed lookup; `poll(i)`
      is the answer to the i-th lookup. Also returns how many lookups it
      made. The caller only logs the outcome and carries on. */
  method AwaitActiveFile(poll: nat -> Result<File>) returns (r: Outcome, checks: nat)
    ensures 1 <= checks <= MaxStatusChecks
    // Every lookup before the last one answered with a state that is not active.
    ensures forall j :: 0 <= j < checks - 1 ==> poll(j).Ok? && poll(j).value.state != StateActive
    // The wait succeeds exactly when the last lookup saw the file active.
    ensures r.Pass? <==> poll(checks - 1).Ok? && poll(checks - 1).value.state == StateActive
    ensures poll(checks - 1).Err? ==> r == Fail(StatusCheckError(poll(checks - 1).error))
    // It gives up only after ten lookups, reporting a failed upload if the
    // last state was failed and a timeout otherwise.
    ensures poll(checks - 1).Ok? && poll(checks - 1).value.state != StateActive ==>
      checks == MaxStatusChecks &&
      r == Fail(if poll(checks - 1).value.state == StateFailed then UploadFailedError(poll(checks - 1).value) else TimeoutError)
  {
    var file := File(StateUnspecified, "");
    var i: nat := 0;
    while i < MaxStatusChecks
      invariant 0 <= i <= MaxStatusChecks
      invariant forall j :: 0 <= j < i ==> poll(j).Ok? && poll(j).value.state != StateActive
      invariant i > 0 ==> file == poll(i - 1).value
    {
      var f := poll(i);
      if f.Err? {
        return Fail(StatusCheckError(f.error)), i + 1;
      }
      file := f.value;
      if file.state == StateActive {
        return Pass, i + 1;
      }
      i := i + 1;
    }
    checks := MaxStatusChecks;
    if file.state == StateFailed {
      return Fail(UploadFailedError(file)), checks;
    }
    return Fail(TimeoutError), checks;
  }
}
