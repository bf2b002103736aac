/** The tier access policy of the events listing
    (src/components/EventsClient.tsx): the `tierValues` table, the
    `doesPlanCoverTier` comparison and the derivation of the user's plan from
    the identity provider's membership predicate. */
module TierPolicy {
  import opened Wrappers
  import opened EventTypes

  /** `tierValues[name]`: the rank of a tier name, undefined for every other
      string, "all" included. */
  function TierValue(name: string): (r: Option<int>)
    ensures r.Some? <==> ParseTier(name).Some?
    ensures r.Some? ==> 1 <= r.value <= 4
  {
    if name == "free" then Some(1)
    else if name == "silver" then Some(2)
    else if name == "gold" then Some(3)
    else if name == "platinum" then Some(4)
    else None
  }

  /** `tierValues[userPlan] >= tierValues[tier]`. A relational comparison
      with `undefined` on either side compares NaN and is false. It holds
      exactly when both names are tiers and the plan comes no earlier than
      the tier in the tier order. */
  predicate DoesPlanCoverTier(userPlan: string, tier: string)
    ensures DoesPlanCoverTier(userPlan, tier) <==>
      && ParseTier(userPlan).Some? && ParseTier(tier).Some?
      && OrderIndex(ParseTier(userPlan).value) >= OrderIndex(ParseTier(tier).value)
  {
    TierValue(userPlan).Some? && TierValue(tier).Some? && TierValue(userPlan).value >= TierValue(tier).value
  }

  /** The tiers in ascending order, as the record's type lists them. */
  const TIER_ORDER: seq<Tier> := [Free, Silver, Gold, Platinum]

  /** The position of a tier in TIER_ORDER. */
  function OrderIndex(t: Tier): (i: nat)
    ensures i < |TIER_ORDER| && TIER_ORDER[i] == t
  {
    match t
    case Free => 0
    case Silver => 1
    case Gold => 2
    case Platinum => 3
  }

  /** On the four tiers, a plan covers a tier exactly when it comes no earlier
      in the tier order. */
  lemma CoversIffOrder(plan: Tier, tier: Tier)
    ensures DoesPlanCoverTier(TierName(plan), TierName(tier)) <==> OrderIndex(plan) >= OrderIndex(tier)
  {
  }

  /** Against a tier, a string that names no tier neither covers nor is
      covered, and no plan covers the "all" tab. */
  lemma UnknownNeverCovers(userPlan: string, tier: string)
    requires ParseTier(userPlan).None? || ParseTier(tier).None?
    requires ParseTier(userPlan).Some? || ParseTier(tier).Some? || tier == "all"
    ensures !DoesPlanCoverTier(userPlan, tier)
  {
  }

  /** On the four tier names the relation is a total order: reflexive,
      antisymmetric, transitive and total. */
  lemma CoversIsTotalOrder(a: Tier, b: Tier, c: Tier)
    ensures DoesPlanCoverTier(TierName(a), TierName(a))
    ensures DoesPlanCoverTier(TierName(a), TierName(b)) && DoesPlanCoverTier(TierName(b), TierName(a)) ==> a == b
    ensures DoesPlanCoverTier(TierName(a), TierName(b)) && DoesPlanCoverTier(TierName(b), TierName(c))
      ==> DoesPlanCoverTier(TierName(a), TierName(c))
    ensures DoesPlanCoverTier(TierName(a), TierName(b)) || DoesPlanCoverTier(TierName(b), TierName(a))
  {
  }

  /** Platinum covers every tier; free covers free and nothing else. */
  lemma PlatinumAndFree(tier: string)
    ensures DoesPlanCoverTier("platinum", tier) <==> ParseTier(tier).Some?
    ensures DoesPlanCoverTier("free", tier) <==> tier == "free"
  {
  }

  /** The membership names in the order the plan effect asks about them. */
  const PLAN_PRIORITY: seq<string> := ["platinum", "silver", "gold"]

  /** The first name in `names` the membership predicate holds for, else
      `fallback`. */
  function FirstHeld(has: string -> bool, names: seq<string>, fallback: string): string
  {
    if names == [] then fallback
    else if has(names[0]) then names[0]
    else FirstHeld(has, names[1..], fallback)
  }

  /** The plan the effect sets when the membership predicate is available:
      the first of platinum, silver, gold that is held, else free. It is
      always one of the four tiers, and one the user holds unless it is
      free. */
  function DerivedPlan(has: string -> bool): (plan: string)
    ensures ParseTier(plan).Some?
    ensures plan == "free" || has(plan)
    ensures has("platinum") ==> plan == "platinum"
  {
    assert PLAN_PRIORITY[1..] == ["silver", "gold"];
    assert PLAN_PRIORITY[1..][1..] == ["gold"];
    assert PLAN_PRIORITY[1..][1..][1..] == [];
    FirstHeld(has, PLAN_PRIORITY, "free")
  }

  /** The derived plan asks about platinum, then silver, then gold, and
      falls back to free. */
  lemma DerivePlanIsFirstHeld(has: string -> bool)
    ensures DerivedPlan(has)
         == if has("platinum") then "platinum"
            else if has("silver") then "silver"
            else if has("gold") then "gold"
            else "free"
  {
    assert PLAN_PRIORITY[1..] == ["silver", "gold"];
    assert PLAN_PRIORITY[1..][1..] == ["gold"];
    assert PLAN_PRIORITY[1..][1..][1..] == [];
  }

  /** Silver is asked about before gold: a user holding both, and not
      platinum, gets the silver plan, which does not cover gold events. */
  lemma SilverShadowsGold(has: string -> bool)
    requires has("silver") && has("gold") && !has("platinum")
    ensures DerivedPlan(has) == "silver"
    ensures !DoesPlanCoverTier(DerivedPlan(has), "gold")
  {
  }
}
