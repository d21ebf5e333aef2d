/** Static configuration: backend mode, supported audio formats, and the
    subscription tier table with its reverse price-to-tier index
    (configurations/configurations.go, configurations/subscriptions.go). */
module Configurations {
  import opened Errors
  import opened Text

  /** `BackendMode` is a Go string type with two named values; any other
      string is a mode the lookups reject. */
  datatype BackendMode = Development | Production | OtherMode(name: string)

  datatype Deployment = Localhost | Cloud | OtherDeployment(name: string)

  function ModeName(m: BackendMode): string {
    match m
    case Development => "development"
    case Production => "production"
    case OtherMode(n) => n
  }

  /** The mode and deployment the program is built with. */
  const SelectedBackendMode: BackendMode := Development
  const SelectedDeployment: Deployment := Localhost

  const SupportedAudioFormats: set<string> := {"wav"}

  /** Exact, case-sensitive membership in the supported formats. */
  function IsSupportedAduioFormat(format: string): (ok: bool)
    ensures ok <==> format == "wav"
  {
    format in SupportedAudioFormats
  }

  const FreeAudioSeconds: int := 30 * 60

  /** `SubscriptionTier` is a Go `int`: only 0..3 are in the table. */
  type Tier = int

  const FreeTrial: Tier := 0
  const StarterTier: Tier := 1
  const ProTier: Tier := 2
  const PremiumTier: Tier := 3

  datatype PlanConfig = PlanConfig(
    name: string,
    priceIDTest: string,
    priceIDProd: string,
    monthlyAudioSeconds: int)

  const PlanConfigs: map<Tier, PlanConfig> := map[
    FreeTrial := PlanConfig("Free Trial", "", "", 0),
    StarterTier := PlanConfig("Starter Plan", "price_1SEE8qDBXz9Kq4HnJnQgI3rR", "3", 5 * 60 * 60),
    ProTier := PlanConfig("Pro Plan", "price_1SEHXaDBXz9Kq4HnL8wPPi9z", "1", 60 * 60),
    PremiumTier := PlanConfig("Premium Plan", "price_1SEHZrDBXz9Kq4HnqqsH18xl", "2", 60 * 60)
  ]

  function SubscriptionTiersList(): seq<Tier> {
    [FreeTrial, StarterTier, ProTier, PremiumTier]
  }

  /** The price id of a plan in the test (`prod == false`) or production
      environment. */
  function PriceOf(c: PlanConfig, prod: bool): string {
    if prod then c.priceIDProd else c.priceIDTest
  }

  /** Within one environment, the non-empty price ids of different tiers
      of `table` differ. */
  predicate DistinctPrices(table: map<Tier, PlanConfig>, prod: bool) {
    forall t, u :: t in table && u in table && t != u && PriceOf(table[t], prod) != "" ==>
      PriceOf(table[t], prod) != PriceOf(table[u], prod)
  }

  /** Within each environment the non-empty price ids are pairwise distinct. */
  lemma PriceIdsDistinct(prod: bool)
    ensures DistinctPrices(PlanConfigs, prod)
  {
    assert PlanConfigs.Keys == {0, 1, 2, 3};
  }

  /** The reverse index of `table` restricted to `tiers`: every non-empty
      price id of those tiers, mapped to its own tier. */
  function ReverseIndex(table: map<Tier, PlanConfig>, tiers: set<Tier>, prod: bool): map<string, Tier>
    requires tiers <= table.Keys && DistinctPrices(table, prod)
  {
    map t | t in tiers && PriceOf(table[t], prod) != "" :: PriceOf(table[t], prod) := t
  }

  /** The index `init` builds for one environment. */
  function PriceToTier(prod: bool): map<string, Tier> {
    PriceIdsDistinct(prod);
    ReverseIndex(PlanConfigs, PlanConfigs.Keys, prod)
  }

  /** `init`: one pass over the plan table, in whatever order the map
      yields its entries, filling both reverse indexes. */
  method BuildReverseMaps() returns (priceToTierTest: map<string, Tier>, priceToTierProd: map<string, Tier>)
    ensures priceToTierTest == PriceToTier(false)
    ensures priceToTierProd == PriceToTier(true)
  {
    PriceIdsDistinct(false);
    PriceIdsDistinct(true);
    priceToTierTest, priceToTierProd := BuildIndexes(PlanConfigs);
  }

  /** The loop of `init` over any table whose price ids are distinct. */
  method BuildIndexes(table: map<Tier, PlanConfig>) returns (test: map<string, Tier>, production: map<string, Tier>)
    requires DistinctPrices(table, false) && DistinctPrices(table, true)
    ensures test == ReverseIndex(table, table.Keys, false)
    ensures production == ReverseIndex(table, table.Keys, true)
  {
    test, production := map[], map[];
    var remaining := table.Keys;
    ghost var done: set<Tier> := {};
    assert ReverseIndex(table, done, false) == map[] && ReverseIndex(table, done, true) == map[];
    while remaining != {}
      invariant done == table.Keys - remaining && remaining <= table.Keys
      invariant test == ReverseIndex(table, done, false)
      invariant production == ReverseIndex(table, done, true)
      decreases remaining
    {
      var tier := PickTier(remaining);
      test := IndexTier(table, test, done, tier, false);
      production := IndexTier(table, production, done, tier, true);
      remaining := remaining - {tier};
      done := done + {tier};
    }
    assert done == table.Keys;
  }

  /** Whichever tier the map iteration yields next. */
  method PickTier(remaining: set<Tier>) returns (tier: Tier)
    requires remaining != {}
    ensures tier in remaining
  {
    if forall t :: t !in remaining {
      assert false;
    }
    tier :| tier in remaining;
  }

  /** One step of `init`: records the tier's price id for one environment,
      when it has one. */
  method IndexTier(table: map<Tier, PlanConfig>, index: map<string, Tier>, ghost done: set<Tier>, tier: Tier, prod: bool)
    returns (index': map<string, Tier>)
    requires done <= table.Keys && tier in table && tier !in done && DistinctPrices(table, prod)
    requires index == ReverseIndex(table, done, prod)
    ensures index' == ReverseIndex(table, done + {tier}, prod)
  {
    var priceID := PriceOf(table[tier], prod);
    ReverseIndexStep(table, done, tier, prod);
    index' := index;
    if priceID != "" {
      index' := index[priceID := tier];
    }
  }

  /** Adding one tier to the index adds exactly its own price id, if any. */
  lemma ReverseIndexStep(table: map<Tier, PlanConfig>, done: set<Tier>, t: Tier, prod: bool)
    requires done <= table.Keys && t in table && t !in done && DistinctPrices(table, prod)
    ensures var p := PriceOf(table[t], prod);
      ReverseIndex(table, done + {t}, prod) ==
        if p != "" then ReverseIndex(table, done, prod)[p := t] else ReverseIndex(table, done, prod)
  {
    var p := PriceOf(table[t], prod);
    var after := ReverseIndex(table, done + {t}, prod);
    var before := ReverseIndex(table, done, prod);
    var expected := if p != "" then before[p := t] else before;
    forall k | k in after
      ensures k in expected && after[k] == expected[k]
    {
      IndexedAfterStep(table, done, t, prod, k);
    }
    forall k | k in expected
      ensures k in after
    {
      IndexedBeforeStep(table, done, t, prod, k);
    }
    assert after == expected;
  }

  lemma IndexedAfterStep(table: map<Tier, PlanConfig>, done: set<Tier>, t: Tier, prod: bool, k: string)
    requires done <= table.Keys && t in table && t !in done && DistinctPrices(table, prod)
    requires k in ReverseIndex(table, done + {t}, prod)
    ensures var p := PriceOf(table[t], prod);
      var before := ReverseIndex(table, done, prod);
      var expected := if p != "" then before[p := t] else before;
      k in expected && ReverseIndex(table, done + {t}, prod)[k] == expected[k]
  {
    var u :| u in done + {t} && PriceOf(table[u], prod) != "" && PriceOf(table[u], prod) == k;
    if u != t {
      assert k in ReverseIndex(table, done, prod) && ReverseIndex(table, done, prod)[k] == u;
    }
  }

  lemma IndexedBeforeStep(table: map<Tier, PlanConfig>, done: set<Tier>, t: Tier, prod: bool, k: string)
    requires done <= table.Keys && t in table && t !in done && DistinctPrices(table, prod)
    requires var p := PriceOf(table[t], prod);
      k in ReverseIndex(table, done, prod) || (p != "" && k == p)
    ensures k in ReverseIndex(table, done + {t}, prod)
  {
    var p := PriceOf(table[t], prod);
    if k != p || p == "" {
      var u :| u in done && PriceOf(table[u], prod) != "" && PriceOf(table[u], prod) == k;
      assert u in done + {t};
    }
  }

  /** The reverse indexes hold exactly the non-empty price ids of the
      table, each mapped to the tier that carries it. */
  lemma ReverseIndexExact(prod: bool, priceID: string)
    ensures priceID in PriceToTier(prod) <==>
      priceID != "" && exists t :: t in PlanConfigs && PriceOf(PlanConfigs[t], prod) == priceID
    ensures priceID in PriceToTier(prod) ==>
      var t := PriceToTier(prod)[priceID]; t in PlanConfigs && PriceOf(PlanConfigs[t], prod) == priceID
  {
    PriceIdsDistinct(prod);
    if priceID != "" && exists t :: t in PlanConfigs && PriceOf(PlanConfigs[t], prod) == priceID {
      var t :| t in PlanConfigs && PriceOf(PlanConfigs[t], prod) == priceID;
      assert priceID in PriceToTier(prod) && PriceToTier(prod)[priceID] == t;
    }
  }

  function UnknownTierError(tier: Tier): Error {
    Failure("unknown subscription tier: " + IntToDecimal(tier))
  }

  /** Go formats a value of the named string type `BackendMode` with the
      verb `%d` as `%!d(configurations.BackendMode=...)`. */
  function UnknownEnvironmentError(mode: BackendMode): Error {
    Failure("unknown environment: %!d(configurations.BackendMode=" + ModeName(mode) + ")")
  }

  /** `GetPriceID`: the tier must be in the table and the mode one of the two
      known ones. */
  function GetPriceID(mode: BackendMode, tier: Tier): (r: Result<string>)
    ensures r.Ok? <==> tier in PlanConfigs && !mode.OtherMode?
    ensures r.Ok? ==> r.value == PriceOf(PlanConfigs[tier], mode.Production?)
  {
    if tier !in PlanConfigs then Err(UnknownTierError(tier))
    else match mode
      case Development => Ok(PlanConfigs[tier].priceIDTest)
      case Production => Ok(PlanConfigs[tier].priceIDProd)
      case OtherMode(_) => Err(UnknownEnvironmentError(mode))
  }

  /** `GetSubscriptionTier`: looks the price id up in the reverse index of
      the selected mode. On an error Go also returns FreeTrial, the zero
      tier, which every caller discards. */
  function GetSubscriptionTier(mode: BackendMode, priceID: string): (r: Result<Tier>)
    ensures r.Ok? <==> (!mode.OtherMode? && priceID != "" &&
                        exists t :: t in PlanConfigs && PriceOf(PlanConfigs[t], mode.Production?) == priceID)
    ensures r.Ok? ==> r.value in PlanConfigs && PriceOf(PlanConfigs[r.value], mode.Production?) == priceID
  {
    var lookup :=
      match mode
      case Development => Some(PriceToTier(false))
      case Production => Some(PriceToTier(true))
      case OtherMode(_) => None;
    if lookup.None? then Err(UnknownEnvironmentError(mode))
    else
      ReverseIndexExact(mode.Production?, priceID);
      if priceID !in lookup.value then Err(Failure("unknown price ID: " + priceID))
      else Ok(lookup.value[priceID])
  }

  /** Every paid tier survives the price-id round trip in both known modes. */
  lemma TierPriceRoundTrip(mode: BackendMode, tier: Tier)
    requires !mode.OtherMode?
    requires tier in {StarterTier, ProTier, PremiumTier}
    ensures GetPriceID(mode, tier).Ok?
    ensures GetSubscriptionTier(mode, GetPriceID(mode, tier).value) == Ok(tier)
  {
    var prod := mode.Production?;
    var p := GetPriceID(mode, tier).value;
    PriceIdsDistinct(prod);
    assert p != "";
    var r := GetSubscriptionTier(mode, p);
    assert r.Ok?;
    assert PriceOf(PlanConfigs[r.value], prod) == PriceOf(PlanConfigs[tier], prod);
  }

  /** FreeTrial has no price id, so its (empty) price id is unknown. */
  lemma FreeTrialPriceIsUnknown(mode: BackendMode)
    ensures GetSubscriptionTier(mode, "").Err?
  {
  }

  function GetPlanName(tier: Tier): (r: Result<string>)
    ensures tier == FreeTrial ==> r == Ok("Free Trial")
    ensures tier == StarterTier ==> r == Ok("Starter Plan")
    ensures tier == ProTier ==> r == Ok("Pro Plan")
    ensures tier == PremiumTier ==> r == Ok("Premium Plan")
    ensures !(0 <= tier <= 3) ==> r.Err?
  {
    if tier !in PlanConfigs then Err(UnknownTierError(tier)) else Ok(PlanConfigs[tier].name)
  }

  /** The monthly audio-seconds cap of each tier. */
  function GetMonthlyAudioSeconds(tier: Tier): (r: Result<int>)
    ensures tier == FreeTrial ==> r == Ok(0)
    ensures tier == StarterTier ==> r == Ok(18000)
    ensures tier == ProTier ==> r == Ok(3600)
    ensures tier == PremiumTier ==> r == Ok(3600)
    ensures !(0 <= tier <= 3) ==> r.Err?
  {
    if tier !in PlanConfigs then Err(UnknownTierError(tier)) else Ok(PlanConfigs[tier].monthlyAudioSeconds)
  }

  /** Plan name of the tier a price id belongs to; errors of the tier lookup
      are passed on. */
  function GetPlanNameByPriceID(mode: BackendMode, priceID: string): (r: Result<string>)
    ensures GetSubscriptionTier(mode, priceID).Err? ==> r == Err(GetSubscriptionTier(mode, priceID).error)
    ensures GetSubscriptionTier(mode, priceID).Ok? ==>
      r == Ok(PlanConfigs[GetSubscriptionTier(mode, priceID).value].name)
  {
    var tier :- GetSubscriptionTier(mode, priceID);
    GetPlanName(tier)
  }

  /** Monthly cap of the tier a price id belongs to; errors of the tier
      lookup are passed on. */
  function GetMonthlyAudioSecondsByPriceID(mode: BackendMode, priceID: string): (r: Result<int>)
    ensures GetSubscriptionTier(mode, priceID).Err? ==> r == Err(GetSubscriptionTier(mode, priceID).error)
    ensures GetSubscriptionTier(mode, priceID).Ok? ==>
      r == Ok(PlanConfigs[GetSubscriptionTier(mode, priceID).value].monthlyAudioSeconds)
  {
    var tier :- GetSubscriptionTier(mode, priceID);
    GetMonthlyAudioSeconds(tier)
  }

  /** `SubscriptionTier.String`: the plan name, or `UnknownTier(n)`. */
  function TierString(tier: Tier): (s: string)
    ensures tier in PlanConfigs ==> GetPlanName(tier) == Ok(s)
    ensures tier !in PlanConfigs ==> s == "UnknownTier(" + IntToDecimal(tier) + ")"
  {
    if tier in PlanConfigs then PlanConfigs[tier].name else "UnknownTier(" + IntToDecimal(tier) + ")"
  }
}
