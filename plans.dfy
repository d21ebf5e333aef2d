/** The plan listing (services/subscriptions/plans.go): one plan per tier
    of the configured tier list, numbered by position. */
module Plans {
  import opened Errors
  import opened Resources
  import opened Configurations

  /** The plan listed at position `i` for `tier`: its price, name and cap
      from the tier table, and the free allowance on the free trial only. */
  function PlanAt(mode: BackendMode, i: int, tier: Tier): (r: Result<SubscriptionPlan>)
    ensures r.Ok? <==> tier in PlanConfigs && !mode.OtherMode?
    ensures r.Ok? ==>
      r.value.id == i &&
      Ok(r.value.priceID) == GetPriceID(mode, tier) &&
      Ok(r.value.name) == GetPlanName(tier) &&
      Ok(r.value.transcriptionMonthlySeconds) == GetMonthlyAudioSeconds(tier) &&
      r.value.freeTranscriptionSeconds == (if tier == FreeTrial then FreeAudioSeconds else 0)
    ensures r.Err? ==> r == Err(GetPriceID(mode, tier).error)
  {
    var priceID :- GetPriceID(mode, tier);
    var planName := GetPlanName(tier).value;
    var monthlyLimit := GetMonthlyAudioSeconds(tier).value;
    var freeAudioSeconds := if tier == FreeTrial then FreeAudioSeconds else 0;
    Ok(SubscriptionPlan(i, priceID, planName, monthlyLimit, freeAudioSeconds))
  }

  /** The listing for a tier list, given how the plan at each position is
      built: one plan per tier in list order, or the error of the first
      tier that fails, and no partial list. */
  function Collect(tiers: seq<Tier>, plan: (int, Tier) -> Result<SubscriptionPlan>): (r: Result<seq<SubscriptionPlan>>)
    ensures r.Ok? <==> forall i :: 0 <= i < |tiers| ==> plan(i, tiers[i]).Ok?
    ensures r.Ok? ==> (|r.value| == |tiers| &&
      forall i :: 0 <= i < |tiers| ==> r.value[i] == plan(i, tiers[i]).value)
  {
    if tiers == [] then Ok([])
    else
      var n := |tiers| - 1;
      var front := Collect(tiers[..n], plan);
      assert forall i :: 0 <= i < n ==> tiers[..n][i] == tiers[i];
      var last := plan(n, tiers[n]);
      if front.Err? then front
      else if last.Err? then Err(last.error)
      else Ok(front.value + [last.value])
  }

  lemma CollectStep(tiers: seq<Tier>, plan: (int, Tier) -> Result<SubscriptionPlan>, i: nat)
    requires i < |tiers| && Collect(tiers[..i], plan).Ok? && plan(i, tiers[i]).Ok?
    ensures Collect(tiers[..i + 1], plan) == Ok(Collect(tiers[..i], plan).value + [plan(i, tiers[i]).value])
  {
    assert tiers[..i + 1][..i] == tiers[..i];
  }

  /** The listing fails with the error of the first tier that fails. */
  lemma {:induction false} CollectFailsAt(tiers: seq<Tier>, plan: (int, Tier) -> Result<SubscriptionPlan>, i: nat)
    requires i < |tiers| && Collect(tiers[..i], plan).Ok? && plan(i, tiers[i]).Err?
    ensures Collect(tiers, plan) == Err(plan(i, tiers[i]).error)
  {
    var n := |tiers| - 1;
    var front := tiers[..n];
    if i < n {
      assert front[..i] == tiers[..i] && front[i] == tiers[i];
      CollectFailsAt(front, plan, i);
    } else {
      assert front == tiers[..i];
    }
  }

  function Listing(mode: BackendMode, tiers: seq<Tier>): Result<seq<SubscriptionPlan>> {
    Collect(tiers, (i, tier) => PlanAt(mode, i, tier))
  }

  /** The loop of `GetSubscriptionPlans` over a tier list. */
  method ListPlans(mode: BackendMode, tiers: seq<Tier>) returns (r: Result<seq<SubscriptionPlan>>)
    ensures r == Listing(mode, tiers)
  {
    var plan := (i, tier) => PlanAt(mode, i, tier);
    var plans: seq<SubscriptionPlan> := [];
    for i := 0 to |tiers|
      invariant Collect(tiers[..i], plan) == Ok(plans)
    {
      var tier := tiers[i];
      var priceID := GetPriceID(mode, tier);
      if priceID.Err? {
        assert plan(i, tier).Err?;
        CollectFailsAt(tiers, plan, i);
        return Err(priceID.error);
      }
      var planName := GetPlanName(tier).value;
      var monthlyLimit := GetMonthlyAudioSeconds(tier).value;
      var freeAudioSeconds := 0;
      if tier == FreeTrial {
        freeAudioSeconds := FreeAudioSeconds;
      }
      var p := SubscriptionPlan(i, priceID.value, planName, monthlyLimit, freeAudioSeconds);
      assert plan(i, tier) == Ok(p);
      CollectStep(tiers, plan, i);
      plans := plans + [p];
    }
    assert tiers[..|tiers|] == tiers;
    return Ok(plans);
  }

  /** `GetSubscriptionPlans`. */
  method GetSubscriptionPlans(mode: BackendMode) returns (r: Result<seq<SubscriptionPlan>>)
    ensures r == Listing(mode, SubscriptionTiersList())
  {
    r := ListPlans(mode, SubscriptionTiersList());
  }

  /** The configured listing: in a known mode, the four plans in tier order
      with ids 0 to 3, the free allowance on the free trial alone, and each
      plan's price, name and cap from the table; in any other mode, the
      unknown-environment error. */
  lemma ConfiguredListing(mode: BackendMode)
    ensures var r := Listing(mode, SubscriptionTiersList());
      (r.Ok? <==> !mode.OtherMode?) &&
      (r.Err? ==> r.error == UnknownEnvironmentError(mode)) &&
      (r.Ok? ==> (|r.value| == 4 &&
         forall i :: 0 <= i < 4 ==>
           r.value[i].id == i &&
           r.value[i].name == PlanConfigs[i].name &&
           r.value[i].priceID == PriceOf(PlanConfigs[i], mode.Production?) &&
           r.value[i].transcriptionMonthlySeconds == PlanConfigs[i].monthlyAudioSeconds &&
           r.value[i].freeTranscriptionSeconds == (if i == 0 then 1800 else 0)))
  {
    var tiers := SubscriptionTiersList();
    var plan := (i, tier) => PlanAt(mode, i, tier);
    assert forall i :: 0 <= i < 4 ==> tiers[i] == i && i in PlanConfigs;
    if mode.OtherMode? {
      assert tiers[..0] == [];
      assert plan(0, tiers[0]) == Err(UnknownEnvironmentError(mode));
      CollectFailsAt(tiers, plan, 0);
    }
  }
}
