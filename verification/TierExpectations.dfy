/**
 * Per-tier expected averages (CS per minute, vision score, KDA) and the per-role CS/min
 * correction, as used by the stat normaliser. Keys are the lower-case tier names and the
 * upper-case Riot `teamPosition` values.
 */
module TierExpectations {
  import opened Wrappers

  datatype Expectation = Expectation(csPerMin: real, visionScore: real, kda: real)

  /** The ten tiers from lowest to highest: exactly the table's keys. */
  const Tiers: seq<string> :=
    ["iron", "bronze", "silver", "gold", "platinum", "emerald", "diamond", "master", "grandmaster", "challenger"]

  /** `TIER_EXPECTATIONS[key]`; None for any other key. */
  function TierExpectation(key: string): (r: Option<Expectation>)
    ensures r.Some? <==> key in Tiers
  {
    match key
    case "iron" => Some(Expectation(4.5, 12.0, 1.2))
    case "bronze" => Some(Expectation(5.5, 15.0, 1.5))
    case "silver" => Some(Expectation(6.5, 18.0, 1.8))
    case "gold" => Some(Expectation(7.2, 21.0, 2.1))
    case "platinum" => Some(Expectation(7.8, 24.0, 2.3))
    case "emerald" => Some(Expectation(8.2, 26.0, 2.5))
    case "diamond" => Some(Expectation(8.6, 28.0, 2.7))
    case "master" => Some(Expectation(9.0, 30.0, 3.0))
    case "grandmaster" => Some(Expectation(9.2, 32.0, 3.2))
    case "challenger" => Some(Expectation(9.5, 35.0, 3.5))
    case _ => None
  }

  /** The gold row, the normaliser's fallback. */
  const GoldExpectation: Expectation := Expectation(7.2, 21.0, 2.1)

  /** Each of the three figures rises strictly from iron to challenger. */
  lemma TiersStrictlyIncreasing(i: nat, j: nat)
    requires i < j < |Tiers|
    ensures TierExpectation(Tiers[i]).Some? && TierExpectation(Tiers[j]).Some?
    ensures var a, b := TierExpectation(Tiers[i]).value, TierExpectation(Tiers[j]).value;
            a.csPerMin < b.csPerMin && a.visionScore < b.visionScore && a.kda < b.kda
  {}

  /** Every base figure is positive and every kda is at least the iron value 1.2. */
  lemma TierValuesPositive(key: string)
    requires TierExpectation(key).Some?
    ensures var e := TierExpectation(key).value;
            e.csPerMin >= 4.5 && e.visionScore >= 12.0 && e.kda >= 1.2
  {}

  lemma GoldFallbackIsGoldRow()
    ensures TierExpectation("gold") == Some(GoldExpectation)
  {}

  /** The per-role CS/min correction keys. */
  const Roles: seq<string> := ["JUNGLE", "UTILITY", "TOP", "MIDDLE", "BOTTOM"]

  /** `ROLE_CS_MODIFIER[role]`; None for any other key. */
  function RoleCsModifier(role: string): (r: Option<real>)
    ensures r.Some? <==> role in Roles
    ensures r.Some? ==> -4.0 <= r.value <= 0.0
  {
    match role
    case "JUNGLE" => Some(-3.0)
    case "UTILITY" => Some(-4.0)
    case "TOP" => Some(0.0)
    case "MIDDLE" => Some(0.0)
    case "BOTTOM" => Some(0.0)
    case _ => None
  }

  /** The one row the normaliser's lower clamp of 1 CS/min exists for: iron supports. */
  lemma IronUtilityBelowOne()
    ensures TierExpectation("iron").value.csPerMin + RoleCsModifier("UTILITY").value == 0.5
  {}
}
