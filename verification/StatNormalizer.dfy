/**
 * The tier normaliser: turns absolute per-game figures into scores from -2 (far below) to +2
 * (far above) against the player's tier average, corrected for champion and role.
 */
module StatNormalizer {
  import opened Wrappers
  import opened Text
  import opened TierExpectations
  import opened ChampionFlags

  /** The absolute figures of one game (`rawStats`). */
  datatype RawStats = RawStats(csPerMin: real, kda: real, visionScore: real)

  datatype ContextFlags = ContextFlags(isRoam: bool, isDive: bool)

  datatype Normalized = Normalized(
    csScore: int, kdaScore: int, visionScore: int, contextFlags: ContextFlags, adjustedAvg: Expectation)

  // ---------------------------------------------------------------------------
  // Relative score
  // ---------------------------------------------------------------------------

  /** `calcRelative`: the relative gap to the average, bucketed at 15% and 50%, both bounds inclusive. */
  function CalcRelative(actual: real, avg: real): (r: int)
    ensures -2 <= r <= 2
    ensures avg <= 0.0 ==> r == 0
  {
    if avg <= 0.0 then 0
    else
      var diff := (actual - avg) / avg;
      if diff >= 0.5 then 2
      else if diff >= 0.15 then 1
      else if diff <= -0.5 then -2
      else if diff <= -0.15 then -1
      else 0
  }

  /** Playing exactly at the average scores 0. */
  lemma CalcRelativeAtAverage(avg: real)
    ensures CalcRelative(avg, avg) == 0
  {}

  /** A better figure never scores lower. */
  lemma CalcRelativeMonotone(a: real, b: real, avg: real)
    requires avg > 0.0 && a <= b
    ensures CalcRelative(a, avg) <= CalcRelative(b, avg)
  {
    var da, db := (a - avg) / avg, (b - avg) / avg;
    assert da * avg == a - avg && db * avg == b - avg;
    assert da <= db;
  }

  /** Each bucket, stated on the relative difference: the boundaries belong to the outer bucket. */
  lemma CalcRelativeBuckets(actual: real, avg: real)
    requires avg > 0.0
    ensures var d := (actual - avg) / avg;
      && (CalcRelative(actual, avg) == 2 <==> d >= 0.5)
      && (CalcRelative(actual, avg) == 1 <==> 0.15 <= d < 0.5)
      && (CalcRelative(actual, avg) == 0 <==> -0.15 < d < 0.15)
      && (CalcRelative(actual, avg) == -1 <==> -0.5 < d <= -0.15)
      && (CalcRelative(actual, avg) == -2 <==> d <= -0.5)
  {}

  // ---------------------------------------------------------------------------
  // Adjusted averages
  // ---------------------------------------------------------------------------

  /** `TIER_EXPECTATIONS[tier.toLowerCase()] || TIER_EXPECTATIONS.gold`. */
  function TierRow(tier: string): (r: Expectation)
    ensures TierExpectation(Lower(tier)).Some? ==> r == TierExpectation(Lower(tier)).value
    ensures TierExpectation(Lower(tier)).None? ==> r == GoldExpectation
  {
    TierExpectation(Lower(tier)).GetOr(GoldExpectation)
  }

  /** `(role && ROLE_CS_MODIFIER[role]) || 0`. */
  function RoleModifier(role: string): (r: real)
    ensures RoleCsModifier(role).Some? ==> r == RoleCsModifier(role).value
    ensures RoleCsModifier(role).None? ==> r == 0.0
  {
    if role == "" then 0.0 else RoleCsModifier(role).GetOr(0.0)
  }

  /** The benchmark after champion and role correction. */
  function AdjustedAverage(tier: string, champion: string, role: string): (r: Expectation)
    ensures var cs := TierRow(tier).csPerMin + FlagsOf(champion).GetOr(NoFlags).csOffset + RoleModifier(role);
            r.csPerMin == if cs >= 1.0 then cs else 1.0
    ensures r.kda == TierRow(tier).kda + FlagsOf(champion).GetOr(NoFlags).kdaOffset
    ensures r.visionScore == TierRow(tier).visionScore
  {
    var base := TierRow(tier);
    var flag := FlagsOf(champion).GetOr(NoFlags);
    var cs := base.csPerMin + flag.csOffset + RoleModifier(role);
    Expectation(if cs >= 1.0 then cs else 1.0, base.visionScore, base.kda + flag.kdaOffset)
  }

  /** With the tables as they are, every adjusted average is positive, so no score is forced to 0. */
  lemma AdjustedAveragePositive(tier: string, champion: string, role: string)
    ensures AdjustedAverage(tier, champion, role).csPerMin >= 1.0
    ensures AdjustedAverage(tier, champion, role).kda >= 0.4
    ensures AdjustedAverage(tier, champion, role).visionScore >= 12.0
  {
    var e := TierExpectation(Lower(tier));
    if e.Some? {
      TierValuesPositive(Lower(tier));
    }
    if FlagsOf(champion).Some? {
      OffsetRanges(champion);
    }
  }

  /** An unlisted champion and Ahri share one benchmark. */
  lemma AhriBenchmarkIsUnlisted(tier: string, role: string, other: string)
    requires FlagsOf(other).None?
    ensures AdjustedAverage(tier, "Ahri", role) == AdjustedAverage(tier, other, role)
  {
    AhriOnlyRoams();
  }

  /** `normalizeStats`. */
  function NormalizeStats(raw: RawStats, tier: string, champion: string, role: string): (r: Normalized)
    ensures r.adjustedAvg == AdjustedAverage(tier, champion, role)
    ensures r.csScore == CalcRelative(raw.csPerMin, r.adjustedAvg.csPerMin)
    ensures r.kdaScore == CalcRelative(raw.kda, r.adjustedAvg.kda)
    ensures r.visionScore == CalcRelative(raw.visionScore, r.adjustedAvg.visionScore)
    ensures FlagsOf(champion).None? ==> r.contextFlags == ContextFlags(false, false)
    ensures FlagsOf(champion).Some? ==>
      r.contextFlags == ContextFlags(FlagsOf(champion).value.isRoam, FlagsOf(champion).value.isDive)
  {
    var avg := AdjustedAverage(tier, champion, role);
    var flag := FlagsOf(champion).GetOr(NoFlags);
    Normalized(
      CalcRelative(raw.csPerMin, avg.csPerMin),
      CalcRelative(raw.kda, avg.kda),
      CalcRelative(raw.visionScore, avg.visionScore),
      ContextFlags(flag.isRoam, flag.isDive),
      avg)
  }

  /** The flags are reported, never scored: two champions with equal offsets get equal scores. */
  lemma FlagsDoNotAffectScores(raw: RawStats, tier: string, c1: string, c2: string, role: string)
    requires FlagsOf(c1).GetOr(NoFlags).csOffset == FlagsOf(c2).GetOr(NoFlags).csOffset
    requires FlagsOf(c1).GetOr(NoFlags).kdaOffset == FlagsOf(c2).GetOr(NoFlags).kdaOffset
    ensures NormalizeStats(raw, tier, c1, role).csScore == NormalizeStats(raw, tier, c2, role).csScore
    ensures NormalizeStats(raw, tier, c1, role).kdaScore == NormalizeStats(raw, tier, c2, role).kdaScore
    ensures NormalizeStats(raw, tier, c1, role).visionScore == NormalizeStats(raw, tier, c2, role).visionScore
  {
    var a1, a2 := AdjustedAverage(tier, c1, role), AdjustedAverage(tier, c2, role);
    assert a1 == a2;
    ScoresFollowAverage(raw, tier, c1, role);
    ScoresFollowAverage(raw, tier, c2, role);
  }

  lemma ScoresFollowAverage(raw: RawStats, tier: string, champion: string, role: string)
    ensures var n, avg := NormalizeStats(raw, tier, champion, role), AdjustedAverage(tier, champion, role);
            n.csScore == CalcRelative(raw.csPerMin, avg.csPerMin) && n.kdaScore == CalcRelative(raw.kda, avg.kda)
            && n.visionScore == CalcRelative(raw.visionScore, avg.visionScore)
  {
  }

  // ---------------------------------------------------------------------------
  // Champion pool
  // ---------------------------------------------------------------------------

  /** One row of a champion breakdown; `extra` stands for the fields the normaliser copies through. */
  datatype ChampionSummary = ChampionSummary(name: string, role: string, avgCs: real, avgKda: real, extra: seq<(string, string)>)

  datatype AnalyzedChampion = AnalyzedChampion(champ: ChampionSummary, csVsAvg: int, kdaVsAvg: int, flags: ContextFlags)

  function AnalyzeChampion(c: ChampionSummary, tier: string): (r: AnalyzedChampion)
    ensures r.champ == c
    ensures var n := NormalizeStats(RawStats(c.avgCs, c.avgKda, 0.0), tier, c.name, c.role);
            r.csVsAvg == n.csScore && r.kdaVsAvg == n.kdaScore && r.flags == n.contextFlags
  {
    var n := NormalizeStats(RawStats(c.avgCs, c.avgKda, 0.0), tier, c.name, c.role);
    AnalyzedChampion(c, n.csScore, n.kdaScore, n.contextFlags)
  }

  /** `analyzeChampionPool`: same length and order, every original field kept. */
  function AnalyzeChampionPool(pool: seq<ChampionSummary>, tier: string): (r: seq<AnalyzedChampion>)
    ensures |r| == |pool|
    ensures forall i :: 0 <= i < |pool| ==> r[i].champ == pool[i] && -2 <= r[i].csVsAvg <= 2 && -2 <= r[i].kdaVsAvg <= 2
    ensures forall i :: 0 <= i < |pool| ==> r[i] == AnalyzeChampion(pool[i], tier)
  {
    seq(|pool|, i requires 0 <= i < |pool| => AnalyzeChampion(pool[i], tier))
  }

  // ---------------------------------------------------------------------------
  // Prompt sanitising
  // ---------------------------------------------------------------------------

  /** A relative score as it reaches the prompt. */
  datatype Score = Num(n: int) | AboveAvgSkip

  datatype SanitizedRelative = SanitizedRelative(
    csScore: Score, kdaScore: Score, visionScore: Score, contextFlags: ContextFlags, adjustedAvg: Expectation)

  predicate IsHighElo(tier: string) {
    Lower(tier) in ["master", "grandmaster", "challenger"]
  }

  function SanitizeScore(n: int, highElo: bool): (r: Score)
    ensures highElo && n >= 0 <==> r == AboveAvgSkip
    ensures r.Num? ==> r.n == n
  {
    if highElo && n >= 0 then AboveAvgSkip else Num(n)
  }

  /**
   * `sanitizeForPrompt` on the `relative` object: for master and above every score that is not
   * negative is hidden; the nested flag and average objects are not numbers and stay as they are.
   */
  function SanitizeRelative(rel: Normalized, tier: string): (r: SanitizedRelative)
    ensures r.contextFlags == rel.contextFlags && r.adjustedAvg == rel.adjustedAvg
    ensures !IsHighElo(tier) ==> r.csScore == Num(rel.csScore) && r.kdaScore == Num(rel.kdaScore)
                                 && r.visionScore == Num(rel.visionScore)
    ensures IsHighElo(tier) ==> (r.csScore == AboveAvgSkip <==> rel.csScore >= 0)
                                && (r.kdaScore == AboveAvgSkip <==> rel.kdaScore >= 0)
                                && (r.visionScore == AboveAvgSkip <==> rel.visionScore >= 0)
    ensures r.csScore.Num? ==> r.csScore.n == rel.csScore
    ensures r.kdaScore.Num? ==> r.kdaScore.n == rel.kdaScore
    ensures r.visionScore.Num? ==> r.visionScore.n == rel.visionScore
  {
    var high := IsHighElo(tier);
    SanitizedRelative(
      SanitizeScore(rel.csScore, high), SanitizeScore(rel.kdaScore, high), SanitizeScore(rel.visionScore, high),
      rel.contextFlags, rel.adjustedAvg)
  }
}
