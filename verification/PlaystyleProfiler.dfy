/**
 * The playstyle profiler: folds a player's recent Summoner's Rift games into five trait scores
 * from 1 to 10 (aggression, roaming, vision, CS, late game), per-game averages, a top-three
 * champion pool and a role distribution, all measured against the benchmark of the player's tier.
 */
module PlaystyleProfiler {
  import opened Wrappers
  import opened Text
  import opened Numbers
  import opened Seqs
  import opened Sorting
  import opened OrderedDict
  import opened RiotData

  // ---------------------------------------------------------------------------
  // Tier benchmarks
  // ---------------------------------------------------------------------------

  /** The average figures of one tier; a player exactly at these scores 5. */
  datatype Benchmark = Benchmark(csPerMin: real, visionPerMin: real, deaths: real, kda: real)

  /** The benchmark keys from lowest to highest. */
  const BenchmarkTiers: seq<string> :=
    ["IRON", "BRONZE", "SILVER", "GOLD", "PLATINUM", "EMERALD", "DIAMOND", "MASTER", "GRANDMASTER", "CHALLENGER"]

  /** `TIER_BENCHMARKS[tier]`; None for any other key. */
  function TierBenchmark(tier: string): (r: Option<Benchmark>)
    ensures r.Some? <==> tier in BenchmarkTiers
  {
    match tier
    case "IRON" => Some(Benchmark(4.0, 0.4, 7.0, 1.8))
    case "BRONZE" => Some(Benchmark(4.5, 0.5, 6.5, 2.0))
    case "SILVER" => Some(Benchmark(5.0, 0.6, 6.0, 2.3))
    case "GOLD" => Some(Benchmark(5.5, 0.7, 5.5, 2.5))
    case "PLATINUM" => Some(Benchmark(6.0, 0.8, 5.0, 2.8))
    case "EMERALD" => Some(Benchmark(6.5, 0.9, 4.8, 3.0))
    case "DIAMOND" => Some(Benchmark(7.0, 1.0, 4.5, 3.2))
    case "MASTER" => Some(Benchmark(7.5, 1.1, 4.2, 3.5))
    case "GRANDMASTER" => Some(Benchmark(8.0, 1.2, 4.0, 3.8))
    case "CHALLENGER" => Some(Benchmark(8.5, 1.3, 3.8, 4.0))
    case _ => None
  }

  /** `TIER_BENCHMARKS.GOLD`, the fallback. */
  const GoldBenchmark: Benchmark := Benchmark(5.5, 0.7, 5.5, 2.5)

  /** Higher tiers expect more CS, vision and KDA and fewer deaths. */
  lemma {:induction false} BenchmarksOrdered(i: nat, j: nat)
    requires i < j < |BenchmarkTiers|
    ensures TierBenchmark(BenchmarkTiers[i]).Some? && TierBenchmark(BenchmarkTiers[j]).Some?
    ensures var a, b := TierBenchmark(BenchmarkTiers[i]).value, TierBenchmark(BenchmarkTiers[j]).value;
            a.csPerMin < b.csPerMin && a.visionPerMin < b.visionPerMin && a.deaths > b.deaths && a.kda < b.kda
    decreases j
  {
    BenchmarkStep(j - 1);
    if i < j - 1 {
      BenchmarksOrdered(i, j - 1);
    }
  }

  /** Each tier's benchmark is above the one of the tier just below it. */
  lemma BenchmarkStep(k: nat)
    requires k + 1 < |BenchmarkTiers|
    ensures TierBenchmark(BenchmarkTiers[k]).Some? && TierBenchmark(BenchmarkTiers[k + 1]).Some?
    ensures var a, b := TierBenchmark(BenchmarkTiers[k]).value, TierBenchmark(BenchmarkTiers[k + 1]).value;
            a.csPerMin < b.csPerMin && a.visionPerMin < b.visionPerMin && a.deaths > b.deaths && a.kda < b.kda
  {
  }

  /** Every benchmark figure is positive, so every score below divides by a positive number. */
  lemma BenchmarksPositive(tier: string)
    requires TierBenchmark(tier).Some?
    ensures var b := TierBenchmark(tier).value;
            b.csPerMin >= 4.0 && b.visionPerMin >= 0.4 && b.deaths >= 3.8 && b.kda >= 1.8
  {}

  lemma GoldFallbackIsGoldRow()
    ensures TierBenchmark("GOLD") == Some(GoldBenchmark)
  {}

  // ---------------------------------------------------------------------------
  // Scores
  // ---------------------------------------------------------------------------

  /**
   * `scoreValue(value, benchmark)` for a figure where higher is better: the ratio to the
   * benchmark times 5, rounded and clamped to 1..10.
   */
  function ScoreValue(value: real, benchmark: real): (r: int)
    requires benchmark > 0.0
    ensures 1 <= r <= 10
  {
    Clamp(Round(value / benchmark * 5.0), 1, 10)
  }

  /** Playing exactly at the benchmark scores 5. */
  lemma ScoreAtBenchmark(benchmark: real)
    requires benchmark > 0.0
    ensures ScoreValue(benchmark, benchmark) == 5
  {
    assert benchmark / benchmark == 1.0;
  }

  /** A better figure never scores lower. */
  lemma ScoreValueMonotone(v: real, w: real, benchmark: real)
    requires benchmark > 0.0 && v <= w
    ensures ScoreValue(v, benchmark) <= ScoreValue(w, benchmark)
  {
    var x, y := v / benchmark, w / benchmark;
    assert x * benchmark == v && y * benchmark == w;
    assert x <= y;
    RoundMonotone(x * 5.0, y * 5.0);
  }

  /** 1.9 times the benchmark already scores 10; under 0.3 times it scores 1. */
  lemma ScoreValueSaturates(v: real, benchmark: real)
    requires benchmark > 0.0
    ensures v >= 1.9 * benchmark ==> ScoreValue(v, benchmark) == 10
    ensures v < 0.3 * benchmark ==> ScoreValue(v, benchmark) == 1
  {
    var x := v / benchmark;
    assert x * benchmark == v;
    assert v >= 1.9 * benchmark ==> x >= 1.9;
    assert v < 0.3 * benchmark ==> x < 0.3;
  }

  // ---------------------------------------------------------------------------
  // Tier from the rank string
  // ---------------------------------------------------------------------------

  /** `tierMap` in insertion order: Korean tier name to benchmark key. */
  const TierMap: seq<(string, string)> := [
    ("아이언", "IRON"), ("브론즈", "BRONZE"), ("실버", "SILVER"), ("골드", "GOLD"),
    ("플래티넘", "PLATINUM"), ("에메랄드", "EMERALD"), ("다이아몬드", "DIAMOND"),
    ("마스터", "MASTER"), ("그랜드마스터", "GRANDMASTER"), ("챌린저", "CHALLENGER")]

  /** The same table with '그랜드마스터' tried before '마스터', the name it contains. */
  const CorrectedTierMap: seq<(string, string)> := [
    ("아이언", "IRON"), ("브론즈", "BRONZE"), ("실버", "SILVER"), ("골드", "GOLD"),
    ("플래티넘", "PLATINUM"), ("에메랄드", "EMERALD"), ("다이아몬드", "DIAMOND"),
    ("그랜드마스터", "GRANDMASTER"), ("마스터", "MASTER"), ("챌린저", "CHALLENGER")]

  /** Every character used in a Korean tier name. */
  const TierNameChars: string := "아이언브론즈실버골드플래티넘에메랄드다이아몬드그랜드마스터챌린저"

  /** The key of the first entry whose name `rank` contains, or GOLD when none is. */
  function FirstNamed(rank: string, table: seq<(string, string)>): (r: string)
    ensures r == "GOLD" || exists i :: 0 <= i < |table| && r == table[i].1
    ensures (forall i :: 0 <= i < |table| ==> !Contains(rank, table[i].0)) ==> r == "GOLD"
    ensures forall i :: (0 <= i < |table| && Contains(rank, table[i].0)
                         && (forall j :: 0 <= j < i ==> !Contains(rank, table[j].0))) ==> r == table[i].1
  {
    if |table| == 0 then "GOLD"
    else if Contains(rank, table[0].0) then table[0].1
    else
      var r := FirstNamed(rank, table[1..]);
      assert forall i :: 1 <= i < |table| ==> table[i] == table[1..][i - 1];
      r
  }

  /** Both tables map onto the benchmark keys, the corrected one with MASTER and GRANDMASTER swapped. */
  lemma TablesMapToBenchmarks()
    ensures |TierMap| == |CorrectedTierMap| == |BenchmarkTiers|
    ensures forall i :: 0 <= i < |TierMap| ==> TierMap[i].1 == BenchmarkTiers[i]
    ensures forall i :: 0 <= i < |CorrectedTierMap| ==>
              CorrectedTierMap[i].1 == BenchmarkTiers[if i == 7 then 8 else if i == 8 then 7 else i]
  {
  }

  /** `extractTier` as written: the table order tests '마스터' before '그랜드마스터'. */
  function ExtractTierAsWritten(rank: string): (r: string)
    ensures r in BenchmarkTiers
  {
    TablesMapToBenchmarks();
    assert BenchmarkTiers[3] == "GOLD";
    FirstNamed(rank, TierMap)
  }

  /** `extractTier` with the longer name tried first, so each tier name reads as its own tier. */
  function ExtractTier(rank: string): (r: string)
    ensures r in BenchmarkTiers
  {
    TablesMapToBenchmarks();
    assert BenchmarkTiers[3] == "GOLD";
    FirstNamed(rank, CorrectedTierMap)
  }

  /** No character of `s` occurs in a tier name: digits, Latin letters, spaces, '판'. */
  predicate NoTierChars(s: string) {
    forall c :: c in s ==> c !in TierNameChars
  }

  /** For each entry, a character of its name that no later name of the corrected table has. */
  const Marks: seq<char> := ['언', '브', '실', '골', '플', '에', '몬', '그', '마', '챌']

  /** Each mark belongs to its own name and to no name after it in the corrected table. */
  lemma MarksDistinguish()
    ensures forall j :: 0 <= j < |Marks| ==> Marks[j] in CorrectedTierMap[j].0 && Marks[j] in TierNameChars
    ensures forall i, j :: 0 <= j < i < |CorrectedTierMap| ==> Marks[j] !in CorrectedTierMap[i].0
  {
    MarksOwn();
    MarksLater();
  }

  lemma MarksOwn()
    ensures forall j :: 0 <= j < |Marks| ==> Marks[j] in CorrectedTierMap[j].0 && Marks[j] in TierNameChars
  {}

  lemma MarksLater()
    ensures forall i, j :: 0 <= j < i < |CorrectedTierMap| ==> Marks[j] !in CorrectedTierMap[i].0
  {
    forall i | 0 <= i < |CorrectedTierMap|
      ensures forall j :: 0 <= j < i ==> Marks[j] !in CorrectedTierMap[i].0
    {
      var name := CorrectedTierMap[i].0;
      assert forall j :: 0 <= j < i ==> Marks[j] !in name;
    }
  }

  /** Each Korean tier name, followed by text without tier characters, reads as its own tier. */
  lemma ExtractTierReadsName(i: nat, rest: string)
    requires i < |CorrectedTierMap| && NoTierChars(rest)
    ensures ExtractTier(CorrectedTierMap[i].0 + rest) == CorrectedTierMap[i].1
  {
    var s := CorrectedTierMap[i].0 + rest;
    InfixContained([], CorrectedTierMap[i].0, rest);
    assert [] + CorrectedTierMap[i].0 + rest == s;
    MarksDistinguish();
    forall j | 0 <= j < i ensures !Contains(s, CorrectedTierMap[j].0) {
      ContainedChars(s, CorrectedTierMap[j].0, Marks[j]);
      assert Marks[j] !in s;
    }
  }

  /** As written, a grandmaster rank string reads as MASTER. */
  lemma GrandmasterReadAsMaster(rest: string)
    requires NoTierChars(rest)
    ensures ExtractTierAsWritten("그랜드마스터" + rest) == "MASTER"
  {
    var s := "그랜드마스터" + rest;
    InfixContained("그랜드", "마스터", rest);
    assert "그랜드" + "마스터" + rest == s;
    MarksDistinguish();
    forall j | 0 <= j < 7 ensures !Contains(s, TierMap[j].0) {
      assert TierMap[j] == CorrectedTierMap[j];
      ContainedChars(s, TierMap[j].0, Marks[j]);
      assert Marks[j] !in s;
    }
    assert TierMap[7].0 == "마스터";
  }

  // ---------------------------------------------------------------------------
  // Per-game records
  // ---------------------------------------------------------------------------

  /** A Summoner's Rift game: CLASSIC mode, or the solo (420) or flex (440) ranked queue. */
  predicate IsClassic(m: MatchInfo) {
    m.gameMode == "CLASSIC" || m.queueId == 420 || m.queueId == 440
  }

  /** `classicMatches`: missing match details are skipped, and so are the other modes. */
  function ClassicMatches(details: seq<Option<MatchInfo>>): (r: seq<MatchInfo>)
    ensures |r| <= |details|
    ensures forall m :: m in r ==> IsClassic(m) && Some(m) in details
    ensures forall i :: 0 <= i < |details| && details[i].Some? && IsClassic(details[i].value) ==> details[i].value in r
  {
    if |details| == 0 then []
    else
      var rest := ClassicMatches(details[1..]);
      assert forall i :: 1 <= i < |details| ==> details[i] == details[1..][i - 1];
      if details[0].Some? && IsClassic(details[0].value) then [details[0].value] + rest else rest
  }

  /** One entry of `participantData`; the gold and turret figures it also carries are never read. */
  datatype GameRecord = GameRecord(
    win: bool, kills: nat, deaths: nat, assists: nat, csPerMin: real, visionScore: int,
    visionPerMin: real, damage: int, killParticipation: int, champion: string, role: string,
    duration: real, soloKills: nat, teamId: int, teamKills: int)

  /** `Math.max(0, kills - Math.floor(assists * 0.3))`: the kills estimated to be solo kills. */
  function SoloKillEstimate(kills: nat, assists: nat): (r: nat)
    ensures r <= kills
    ensures r == 0 <==> 10 * kills <= 3 * assists
    ensures r > 0 ==> r == kills - (3 * assists) / 10
  {
    var q := (3 * assists) / 10;
    assert q as real <= assists as real * 0.3 < q as real + 1.0;
    var x := kills - (assists as real * 0.3).Floor;
    if x < 0 then 0 else x
  }

  /** A figure per minute of game, 0 for a game of no length. */
  function PerMinute(amount: int, minutes: real): (r: real)
    ensures minutes > 0.0 ==> r * minutes == amount as real
    ensures minutes <= 0.0 ==> r == 0.0
  {
    if minutes > 0.0 then amount as real / minutes else 0.0
  }

  /** `rec` copies the participant's figures, per minute where the record is per minute. */
  predicate CopiesParticipant(rec: GameRecord, p: Participant) {
    && rec.kills == p.kills && rec.assists == p.assists && rec.deaths == p.deaths
    && rec.teamId == p.teamId && rec.champion == p.championName
    && rec.role == p.teamPosition && rec.win == p.win
    && rec.csPerMin == PerMinute(p.totalMinionsKilled + p.neutralMinionsKilled, rec.duration)
    && rec.visionScore == p.visionScore
    && rec.visionPerMin == PerMinute(p.visionScore, rec.duration)
    && rec.damage == p.totalDamageDealtToChampions
  }

  /**
   * The record of the player in one game, copied from the first participant with the puuid, or None
   * when the player is not among its participants.
   */
  function RecordOf(m: MatchInfo, puuid: string): (r: Option<GameRecord>)
    ensures r.Some? <==> exists i :: 0 <= i < |m.participants| && m.participants[i].puuid == puuid
    ensures r.Some? ==> exists i :: (0 <= i < |m.participants| && m.participants[i].puuid == puuid
                                     && (forall j :: 0 <= j < i ==> m.participants[j].puuid != puuid)
                                     && CopiesParticipant(r.value, m.participants[i]))
    ensures r.Some? ==> r.value.duration * 60.0 == m.gameDuration as real
                        && r.value.killParticipation == 0 && r.value.teamKills == 0
                        && r.value.soloKills == SoloKillEstimate(r.value.kills, r.value.assists)
  {
    var found := Find(m.participants, (pp: Participant) => pp.puuid == puuid);
    if found.None? then None
    else
      var p := found.value;
      var minutes := m.gameDuration as real / 60.0;
      var cs := p.totalMinionsKilled + p.neutralMinionsKilled;
      Some(GameRecord(
        p.win, p.kills, p.deaths, p.assists, PerMinute(cs, minutes), p.visionScore,
        PerMinute(p.visionScore, minutes), p.totalDamageDealtToChampions, 0, p.championName,
        p.teamPosition, minutes, SoloKillEstimate(p.kills, p.assists), p.teamId, 0))
  }

  /** The classic games the player took part in, in order. */
  function Played(classic: seq<MatchInfo>, puuid: string): (r: seq<MatchInfo>)
    ensures |r| <= |classic|
    ensures forall m :: m in r ==> m in classic && RecordOf(m, puuid).Some?
  {
    if |classic| == 0 then []
    else (if RecordOf(classic[0], puuid).Some? then [classic[0]] else []) + Played(classic[1..], puuid)
  }

  /** `participantData` before kill participation is filled in: one record per game the player is in. */
  function ParticipantData(classic: seq<MatchInfo>, puuid: string): (r: seq<GameRecord>)
    ensures |r| == |Played(classic, puuid)|
    ensures forall i :: 0 <= i < |r| ==> Some(r[i]) == RecordOf(Played(classic, puuid)[i], puuid)
  {
    if |classic| == 0 then []
    else
      var g := RecordOf(classic[0], puuid);
      var rest, games := ParticipantData(classic[1..], puuid), Played(classic[1..], puuid);
      if g.Some? then
        assert Played(classic, puuid) == [classic[0]] + games;
        [g.value] + rest
      else
        assert Played(classic, puuid) == games;
        rest
  }

  // ---------------------------------------------------------------------------
  // Kill participation
  // ---------------------------------------------------------------------------

  /** The kills of every participant on team `teamId`. */
  function TeamKills(ps: seq<Participant>, teamId: int): nat {
    if |ps| == 0 then 0 else (if ps[0].teamId == teamId then ps[0].kills else 0) + TeamKills(ps[1..], teamId)
  }

  /** A player's kills are part of the team's kills. */
  lemma {:induction false} MemberKillsWithinTeam(ps: seq<Participant>, p: Participant)
    requires p in ps
    ensures p.kills <= TeamKills(ps, p.teamId)
    decreases |ps|
  {
    if ps[0] != p {
      MemberKillsWithinTeam(ps[1..], p);
    }
  }

  /** One pass of the kill-participation loop, pairing the record `g` with the game `m`. */
  function WithKillParticipation(g: GameRecord, m: MatchInfo): (r: GameRecord)
    ensures r.teamKills == TeamKills(m.participants, g.teamId)
    ensures r.teamKills == 0 ==> r.killParticipation == 0
    ensures r.teamKills > 0 ==> r.killParticipation == Percent(g.kills + g.assists, r.teamKills)
    ensures g.kills + g.assists <= r.teamKills ==> 0 <= r.killParticipation <= 100
    ensures r.(killParticipation := g.killParticipation, teamKills := g.teamKills) == g
  {
    var teamKills := TeamKills(m.participants, g.teamId);
    g.(teamKills := teamKills, killParticipation := if teamKills > 0 then Percent(g.kills + g.assists, teamKills) else 0)
  }

  /** The kill-participation loop: record `i` is completed from game `i`, in place. */
  method FillKillParticipation(pd: array<GameRecord>, games: seq<MatchInfo>)
    requires pd.Length <= |games|
    modifies pd
    ensures forall i :: 0 <= i < pd.Length ==> pd[i] == WithKillParticipation(old(pd[i]), games[i])
  {
    for i := 0 to pd.Length
      invariant forall k :: 0 <= k < i ==> pd[k] == WithKillParticipation(old(pd[k]), games[k])
      invariant forall k :: i <= k < pd.Length ==> pd[k] == old(pd[k])
    {
      pd[i] := WithKillParticipation(pd[i], games[i]);
    }
  }

  /**
   * The records as the loop is written: record `i` is paired with classic game `i`, although
   * the games without the player were dropped from the records but not from the games.
   */
  function PairedAsWritten(classic: seq<MatchInfo>, puuid: string): (r: seq<GameRecord>)
    ensures |r| == |ParticipantData(classic, puuid)|
    ensures forall i :: 0 <= i < |r| ==> r[i] == WithKillParticipation(ParticipantData(classic, puuid)[i], classic[i])
  {
    var data := ParticipantData(classic, puuid);
    seq(|data|, i requires 0 <= i < |data| => WithKillParticipation(data[i], classic[i]))
  }

  /** The records with each paired with the game it was read from. */
  function Paired(classic: seq<MatchInfo>, puuid: string): (r: seq<GameRecord>)
    ensures |r| == |Played(classic, puuid)|
    ensures forall i :: 0 <= i < |r| ==>
      r[i] == WithKillParticipation(ParticipantData(classic, puuid)[i], Played(classic, puuid)[i])
  {
    var data, games := ParticipantData(classic, puuid), Played(classic, puuid);
    seq(|data|, i requires 0 <= i < |data| => WithKillParticipation(data[i], games[i]))
  }

  /** Paired with its own game, a record's kills are always among its team's kills. */
  lemma PairedKillsWithinTeam(classic: seq<MatchInfo>, puuid: string)
    ensures forall i :: 0 <= i < |Paired(classic, puuid)| ==>
      Paired(classic, puuid)[i].kills <= Paired(classic, puuid)[i].teamKills
  {
    var data, games := ParticipantData(classic, puuid), Played(classic, puuid);
    forall i | 0 <= i < |data| ensures Paired(classic, puuid)[i].kills <= Paired(classic, puuid)[i].teamKills {
      var p :| p in games[i].participants && p.puuid == puuid && data[i].kills == p.kills && data[i].teamId == p.teamId;
      MemberKillsWithinTeam(games[i].participants, p);
    }
  }

  /** A classic game without the player, then one where the player scored the team's only kill. */
  const GameWithoutPlayer: MatchInfo := MatchInfo(1800, "CLASSIC", 420, [])
  const GameWithPlayer: MatchInfo := MatchInfo(1800, "CLASSIC", 420, [
    Participant("me", 1, 100, "MIDDLE", "Ahri", true, 1, 0, 0, 0, 0, 0, 0, 0, 0)])

  /** As written, the player's record is paired with the empty game: no team kills, participation 0. */
  lemma KillParticipationMisPaired()
    ensures |PairedAsWritten([GameWithoutPlayer, GameWithPlayer], "me")| == 1
    ensures PairedAsWritten([GameWithoutPlayer, GameWithPlayer], "me")[0].kills == 1
    ensures PairedAsWritten([GameWithoutPlayer, GameWithPlayer], "me")[0].teamKills == 0
    ensures PairedAsWritten([GameWithoutPlayer, GameWithPlayer], "me")[0].killParticipation == 0
    ensures Paired([GameWithoutPlayer, GameWithPlayer], "me")[0].killParticipation == 100
  {
    var classic := [GameWithoutPlayer, GameWithPlayer];
    assert RecordOf(GameWithoutPlayer, "me").None?;
    assert GameWithPlayer.participants[0].puuid == "me";
    assert RecordOf(GameWithPlayer, "me").Some?;
    assert classic[1..] == [GameWithPlayer];
    assert Played([GameWithPlayer][1..], "me") == [];
    assert Played(classic, "me") == [GameWithPlayer];
    assert TeamKills(GameWithPlayer.participants, 100) == 1;
  }

  // ---------------------------------------------------------------------------
  // Averages and trait scores
  // ---------------------------------------------------------------------------

  /** The per-game means over all records; damage and kill participation are rounded. */
  datatype Averages = Averages(
    kills: real, deaths: real, assists: real, csPerMin: real, visionScore: real, visionPerMin: real,
    damage: int, killParticipation: int, soloKills: real)

  function KillsOf(g: GameRecord): real { g.kills as real }
  function DeathsOf(g: GameRecord): real { g.deaths as real }
  function AssistsOf(g: GameRecord): real { g.assists as real }
  function SoloKillsOf(g: GameRecord): real { g.soloKills as real }
  function CsPerMinOf(g: GameRecord): real { g.csPerMin }
  function VisionScoreOf(g: GameRecord): real { g.visionScore as real }
  function VisionPerMinOf(g: GameRecord): real { g.visionPerMin }
  function DamageOf(g: GameRecord): real { g.damage as real }
  function KillParticipationOf(g: GameRecord): real { g.killParticipation as real }

  function AveragesOf(data: seq<GameRecord>): (r: Averages)
    requires |data| > 0
    ensures r.kills >= 0.0 && r.assists >= 0.0 && r.soloKills >= 0.0 && r.deaths >= 0.0
    ensures r.deaths == 0.0 <==> forall i :: 0 <= i < |data| ==> data[i].deaths == 0
    ensures r.kills == Mean(data, KillsOf) && r.deaths == Mean(data, DeathsOf)
    ensures r.assists == Mean(data, AssistsOf) && r.soloKills == Mean(data, SoloKillsOf)
    ensures r.csPerMin == Mean(data, CsPerMinOf) && r.visionScore == Mean(data, VisionScoreOf)
    ensures r.visionPerMin == Mean(data, VisionPerMinOf)
    ensures r.damage == Round(Mean(data, DamageOf)) && r.killParticipation == Round(Mean(data, KillParticipationOf))
  {
    MeanNonNegative(data, KillsOf);
    MeanNonNegative(data, DeathsOf);
    MeanNonNegative(data, AssistsOf);
    MeanNonNegative(data, SoloKillsOf);
    Averages(
      Mean(data, KillsOf), Mean(data, DeathsOf), Mean(data, AssistsOf),
      Mean(data, CsPerMinOf), Mean(data, VisionScoreOf), Mean(data, VisionPerMinOf),
      Round(Mean(data, DamageOf)), Round(Mean(data, KillParticipationOf)),
      Mean(data, SoloKillsOf))
  }

  /** `roaming`: twelve times the share of assists in kills plus assists (at least 1), clamped to 1..10. */
  function Roaming(avgKills: real, avgAssists: real): (r: int)
    ensures 1 <= r <= 10
    ensures avgAssists == 0.0 ==> r == 1
    ensures avgKills == 0.0 && avgAssists >= 1.0 ==> r == 10
  {
    var involved := avgKills + avgAssists;
    var ratio := avgAssists / (if involved >= 1.0 then involved else 1.0);
    assert avgKills == 0.0 && avgAssists >= 1.0 ==> ratio == 1.0;
    Clamp(Round(ratio * 12.0), 1, 10)
  }

  predicate IsLate(g: GameRecord) { g.duration > 30.0 }

  predicate Won(g: GameRecord) { g.win }

  /** `lateGameSkill`: 5 with fewer than three games over 30 minutes, else ten times their win rate. */
  function LateGameSkill(data: seq<GameRecord>): (r: int)
    ensures 1 <= r <= 10
    ensures |Filter(data, IsLate)| < 3 ==> r == 5
  {
    var late := Filter(data, IsLate);
    if |late| >= 3 then Clamp(Round(|Filter(late, Won)| as real / |late| as real * 10.0), 1, 10) else 5
  }

  /** Winning every game over 30 minutes, once there are three of them, scores 10. */
  lemma LateGameAllWon(data: seq<GameRecord>)
    requires |Filter(data, IsLate)| >= 3
    requires forall i :: 0 <= i < |data| && IsLate(data[i]) ==> data[i].win
    ensures LateGameSkill(data) == 10
  {
    var late := Filter(data, IsLate);
    forall i | 0 <= i < |late| ensures Won(late[i]) {
      var k :| 0 <= k < |data| && data[k] == late[i];
    }
    FilterAll(late, Won);
    WholeShareScoresTen(|late|);
  }

  lemma WholeShareScoresTen(n: nat)
    requires n > 0
    ensures Clamp(Round(n as real / n as real * 10.0), 1, 10) == 10
  {
    assert n as real / n as real == 1.0;
  }

  /** Losing every game over 30 minutes, once there are three of them, scores 1. */
  lemma LateGameAllLost(data: seq<GameRecord>)
    requires |Filter(data, IsLate)| >= 3
    requires forall i :: 0 <= i < |data| && IsLate(data[i]) ==> !data[i].win
    ensures LateGameSkill(data) == 1
  {
    var late := Filter(data, IsLate);
    forall i | 0 <= i < |late| ensures !Won(late[i]) {
      var k :| 0 <= k < |data| && data[k] == late[i];
    }
    FilterNone(late, Won);
  }

  // ---------------------------------------------------------------------------
  // Champion pool
  // ---------------------------------------------------------------------------

  /** One `champMap` entry: totals over the player's games on one champion. */
  datatype ChampStats = ChampStats(
    champion: string, games: nat, wins: nat, kills: nat, deaths: nat, assists: nat, cs: real,
    damage: int, role: string)

  /** One pass of the `champMap` loop: a new champion starts from zeros and the role of its first game. */
  function AddGame(d: Dict<ChampStats>, g: GameRecord): (r: Dict<ChampStats>)
    requires Valid(d)
    ensures Valid(r)
    ensures Get(d, g.champion).None? ==> Get(r, g.champion) == Some(Counted(Fresh(g), g))
    ensures Get(d, g.champion).Some? ==> Get(r, g.champion) == Some(Counted(Get(d, g.champion).value, g))
    ensures forall k :: k != g.champion ==> Get(r, k) == Get(d, k)
    ensures g.champion in Keys(d) ==> Keys(r) == Keys(d)
    ensures g.champion !in Keys(d) ==> Keys(r) == Keys(d) + [g.champion]
  {
    Put(d, g.champion, Counted(Get(d, g.champion).GetOr(Fresh(g)), g))
  }

  /** The entry a champion starts from: zeros and the role of its first game. */
  function Fresh(g: GameRecord): ChampStats {
    ChampStats(g.champion, 0, 0, 0, 0, 0, 0.0, 0, g.role)
  }

  /** The entry with one more game counted in. */
  function Counted(c: ChampStats, g: GameRecord): ChampStats {
    ChampStats(
      c.champion, c.games + 1, if g.win then c.wins + 1 else c.wins, c.kills + g.kills,
      c.deaths + g.deaths, c.assists + g.assists, c.cs + g.csPerMin, c.damage + g.damage, c.role)
  }

  /**
   * `champMap` after the loop over `data`: each champion played has one entry holding its game
   * and win counts, its summed kills, deaths, assists, CS/min and damage, and its first game's role.
   */
  function ChampMapOf(data: seq<GameRecord>): (r: Dict<ChampStats>)
    ensures Valid(r)
    ensures forall champion :: Tallies(r, data, champion)
    decreases |data|
  {
    if |data| == 0 then []
    else
      var prev := data[..|data| - 1];
      AddGameTalliesAll(ChampMapOf(prev), prev, data[|data| - 1]);
      assert prev + [data[|data| - 1]] == data;
      AddGame(ChampMapOf(prev), data[|data| - 1])
  }

  /** The games on `champion`. */
  function GamesOn(data: seq<GameRecord>, champion: string): nat
    decreases |data|
  {
    if |data| == 0 then 0
    else GamesOn(data[..|data| - 1], champion) + (if data[|data| - 1].champion == champion then 1 else 0)
  }

  /** The games won on `champion`. */
  function WinsOn(data: seq<GameRecord>, champion: string): nat
    decreases |data|
  {
    if |data| == 0 then 0
    else WinsOn(data[..|data| - 1], champion)
         + (if data[|data| - 1].champion == champion && data[|data| - 1].win then 1 else 0)
  }

  /** The per-game CS/min figures on `champion`, added up. */
  function CsOn(data: seq<GameRecord>, champion: string): real
    decreases |data|
  {
    if |data| == 0 then 0.0
    else CsOn(data[..|data| - 1], champion) + (if data[|data| - 1].champion == champion then data[|data| - 1].csPerMin else 0.0)
  }

  /** The records on `champion`, in play order. */
  function On(data: seq<GameRecord>, champion: string): seq<GameRecord> {
    Filter(data, (g: GameRecord) => g.champion == champion)
  }

  function GameKills(g: GameRecord): int { g.kills }
  function GameDeaths(g: GameRecord): int { g.deaths }
  function GameAssists(g: GameRecord): int { g.assists }
  function GameDamage(g: GameRecord): int { g.damage }

  /** `c` holds the sums of `recs` and the role of its first record. */
  predicate Sums(c: ChampStats, recs: seq<GameRecord>) {
    && c.kills == SumBy(recs, GameKills) && c.deaths == SumBy(recs, GameDeaths)
    && c.assists == SumBy(recs, GameAssists) && c.damage == SumBy(recs, GameDamage)
    && (|recs| > 0 ==> c.role == recs[0].role)
  }

  /** Counting a game in adds its figures to the sums and keeps the first role. */
  lemma CountedSums(c: ChampStats, recs: seq<GameRecord>, g: GameRecord)
    requires Sums(c, recs) && (|recs| == 0 ==> c.role == g.role)
    ensures Sums(Counted(c, g), recs + [g])
  {
    SumByAppend(recs, [g], GameKills);
    SumByAppend(recs, [g], GameDeaths);
    SumByAppend(recs, [g], GameAssists);
    SumByAppend(recs, [g], GameDamage);
  }

  /**
   * The champion's totals in `d` match `data`: absent before its first game, then its game and
   * win counts, its summed kills, deaths, assists, CS/min and damage, and the role of its first game.
   */
  predicate Tallies(d: Dict<ChampStats>, data: seq<GameRecord>, champion: string) {
    && (Get(d, champion).Some? <==> GamesOn(data, champion) > 0)
    && (Get(d, champion).Some? <==> |On(data, champion)| > 0)
    && (Get(d, champion).None? ==> WinsOn(data, champion) == 0 && CsOn(data, champion) == 0.0)
    && (Get(d, champion).Some? ==>
         var c := Get(d, champion).value;
         && c.champion == champion && c.games == GamesOn(data, champion) && c.wins == WinsOn(data, champion)
         && c.wins <= c.games && c.cs == CsOn(data, champion)
         && Sums(c, On(data, champion)))
  }

  /** Adding one game keeps every champion's tally. */
  lemma AddGameTallies(d: Dict<ChampStats>, data: seq<GameRecord>, g: GameRecord, champion: string)
    requires Valid(d) && Tallies(d, data, champion)
    ensures Tallies(AddGame(d, g), data + [g], champion)
  {
    assert (data + [g])[..|data|] == data;
    FilterAppend(data, [g], (g: GameRecord) => g.champion == champion);
    if g.champion == champion {
      assert On(data + [g], champion) == On(data, champion) + [g];
      AddGameTalliesOwn(d, data, g);
    } else {
      assert On(data + [g], champion) == On(data, champion);
      assert Get(AddGame(d, g), champion) == Get(d, champion);
    }
  }

  /** The game's own champion: its entry counts the game in. */
  lemma AddGameTalliesOwn(d: Dict<ChampStats>, data: seq<GameRecord>, g: GameRecord)
    requires Valid(d) && Tallies(d, data, g.champion)
    requires On(data + [g], g.champion) == On(data, g.champion) + [g]
    requires (data + [g])[..|data|] == data
    ensures Tallies(AddGame(d, g), data + [g], g.champion)
  {
    var base := Get(d, g.champion).GetOr(Fresh(g));
    CountedSums(base, On(data, g.champion), g);
    assert Get(AddGame(d, g), g.champion) == Some(Counted(base, g));
  }

  /** Adding one game keeps the tally of every champion at once. */
  lemma AddGameTalliesAll(d: Dict<ChampStats>, data: seq<GameRecord>, g: GameRecord)
    requires Valid(d) && forall champion :: Tallies(d, data, champion)
    ensures forall champion :: Tallies(AddGame(d, g), data + [g], champion)
  {
    forall champion ensures Tallies(AddGame(d, g), data + [g], champion) {
      AddGameTallies(d, data, g, champion);
    }
  }

  /** A champion entry the pool can average: at least one game, no more wins than games. */
  predicate WellFormed(c: ChampStats) {
    c.games >= 1 && c.wins <= c.games
  }

  /** Every entry of the map is well formed and filed under its own champion. */
  lemma ChampMapWellFormed(data: seq<GameRecord>)
    ensures forall i :: 0 <= i < |ChampMapOf(data)| ==>
      WellFormed(ChampMapOf(data)[i].value) && ChampMapOf(data)[i].value.champion == ChampMapOf(data)[i].key
  {
    var d := ChampMapOf(data);
    forall i | 0 <= i < |d| ensures WellFormed(d[i].value) && d[i].value.champion == d[i].key {
      assert d[i].key in Keys(d);
      assert Tallies(d, data, d[i].key);
      assert Get(d, d[i].key) == Some(d[i].value);
    }
  }

  /** The `champMap` loop. */
  method BuildChampMap(data: seq<GameRecord>) returns (d: Dict<ChampStats>)
    ensures d == ChampMapOf(data)
  {
    d := [];
    for i := 0 to |data|
      invariant Valid(d) && d == ChampMapOf(data[..i])
    {
      assert data[..i + 1][..i] == data[..i];
      d := AddGame(d, data[i]);
    }
    assert data[..|data|] == data;
  }

  /** One `championPool` row. */
  datatype PoolEntry = PoolEntry(
    champion: string, games: nat, winRate: int, avgKda: KdaFigure, avgCs: real, avgDamage: int, role: string)

  function PoolEntryOf(c: ChampStats): (r: PoolEntry)
    requires WellFormed(c)
    ensures r.champion == c.champion && r.games == c.games && r.role == c.role
    ensures r.winRate == Percent(c.wins, c.games) && 0 <= r.winRate <= 100 && (c.wins == c.games ==> r.winRate == 100)
    ensures r.avgCs == c.cs / c.games as real
    ensures r.avgDamage == Round(c.damage as real / c.games as real)
    ensures r.avgKda == KdaFigureOf(c.kills as real, c.deaths as real, c.assists as real)
  {
    PoolEntry(
      c.champion, c.games, Percent(c.wins, c.games),
      KdaFigureOf(c.kills as real, c.deaths as real, c.assists as real),
      c.cs / c.games as real, Round(c.damage as real / c.games as real), c.role)
  }

  function GamesOf(c: ChampStats): int { c.games }

  /** The champion entries by games played, most first, ties in first-seen order. */
  function ByGames(d: Dict<ChampStats>): (r: seq<ChampStats>)
    ensures multiset(r) == multiset(Values(d))
    ensures SortedDesc(r, GamesOf)
  {
    SortDesc(Values(d), GamesOf)
  }

  /** Sorting moves no two entries with the same number of games past each other. */
  lemma ByGamesStable(d: Dict<ChampStats>, games: int)
    ensures WithKey(ByGames(d), GamesOf, games) == WithKey(Values(d), GamesOf, games)
  {
    SortDescStable(Values(d), GamesOf, games);
  }

  /** The first three entries by games, each one of the map's entries. */
  function TopByGames(d: Dict<ChampStats>): (r: seq<ChampStats>)
    ensures |r| == if |d| < 3 then |d| else 3
    ensures forall i :: 0 <= i < |r| ==> r[i] == ByGames(d)[i]
    ensures forall i :: 0 <= i < |r| ==> exists k :: 0 <= k < |d| && r[i] == d[k].value
    ensures (forall k :: 0 <= k < |d| ==> WellFormed(d[k].value)) ==> forall i :: 0 <= i < |r| ==> WellFormed(r[i])
  {
    var sorted := ByGames(d);
    var top := Take(sorted, 3);
    forall i | 0 <= i < |top| ensures exists k :: 0 <= k < |d| && top[i] == d[k].value {
      SortedAmongValues(d, i);
    }
    top
  }

  /** Each entry of the sorted list is the value of some entry of the map. */
  lemma SortedAmongValues(d: Dict<ChampStats>, i: nat)
    requires i < |ByGames(d)|
    ensures exists k :: 0 <= k < |d| && ByGames(d)[i] == d[k].value
  {
    var sorted := ByGames(d);
    assert sorted[i] in multiset(sorted);
    assert sorted[i] in Values(d);
    var k :| 0 <= k < |d| && Values(d)[k] == sorted[i];
  }

  /** `championPool`: the first three entries by games, most first. */
  function ChampionPool(d: Dict<ChampStats>): (r: seq<PoolEntry>)
    requires forall i :: 0 <= i < |d| ==> WellFormed(d[i].value)
    ensures |r| == if |d| < 3 then |d| else 3
    ensures forall i :: 0 <= i < |r| ==> r[i] == PoolEntryOf(TopByGames(d)[i])
    ensures forall i, j :: 0 <= i < j < |r| ==> r[i].games >= r[j].games
  {
    var top := TopByGames(d);
    var r := seq(|top|, i requires 0 <= i < |top| => PoolEntryOf(top[i]));
    assert forall i, j :: 0 <= i < j < |r| ==> GamesOf(top[i]) >= GamesOf(top[j]);
    r
  }

  // ---------------------------------------------------------------------------
  // Role distribution
  // ---------------------------------------------------------------------------

  const RoleKeys: seq<string> := ["TOP", "JUNGLE", "MIDDLE", "BOTTOM", "UTILITY"]

  /** `roleCount` before the loop. */
  const NoRoles: Dict<int> :=
    [Entry("TOP", 0), Entry("JUNGLE", 0), Entry("MIDDLE", 0), Entry("BOTTOM", 0), Entry("UTILITY", 0)]

  /** One pass of the `roleCount` loop: only the five listed roles are counted. */
  function CountRole(d: Dict<int>, role: string): (r: Dict<int>)
    requires Valid(d)
    ensures Valid(r) && Keys(r) == Keys(d)
    ensures forall k :: k != role ==> Get(r, k) == Get(d, k)
    ensures Get(d, role).Some? ==> Get(r, role) == Some(Get(d, role).value + 1)
    ensures Get(d, role).None? ==> r == d
  {
    var c := Get(d, role);
    if c.Some? then Put(d, role, c.value + 1) else d
  }

  /** `roleCount` after the loop over `data`. */
  function RoleCountsOf(data: seq<GameRecord>): (r: Dict<int>)
    ensures Valid(r) && Keys(r) == RoleKeys
    decreases |data|
  {
    if |data| == 0 then NoRoles else CountRole(RoleCountsOf(data[..|data| - 1]), data[|data| - 1].role)
  }

  /** The games played in `role`. */
  function GamesIn(data: seq<GameRecord>, role: string): (r: nat)
    ensures r <= |data|
    decreases |data|
  {
    if |data| == 0 then 0
    else GamesIn(data[..|data| - 1], role) + (if data[|data| - 1].role == role then 1 else 0)
  }

  /** Before the loop every role is at zero. */
  lemma NoRolesCounted(role: string)
    requires role in RoleKeys
    ensures Get(NoRoles, role) == Some(0)
  {
    var k :| 0 <= k < |RoleKeys| && RoleKeys[k] == role;
    assert NoRoles[k].key == role && NoRoles[k].value == 0;
  }

  /** Each of the five roles counts exactly its games; other roles are not counted. */
  lemma {:induction false} RoleCountsAreCounts(data: seq<GameRecord>, role: string)
    requires role in RoleKeys
    ensures Get(RoleCountsOf(data), role) == Some(GamesIn(data, role))
    decreases |data|
  {
    if |data| == 0 {
      NoRolesCounted(role);
    } else {
      var init, last := data[..|data| - 1], data[|data| - 1];
      RoleCountsAreCounts(init, role);
      var before := RoleCountsOf(init);
      var after := CountRole(before, last.role);
      assert RoleCountsOf(data) == after;
      if last.role == role {
        assert GamesIn(data, role) == GamesIn(init, role) + 1;
        assert Get(after, role) == Some(GamesIn(init, role) + 1);
      } else {
        assert GamesIn(data, role) == GamesIn(init, role);
        assert Get(after, role) == Get(before, role);
      }
    }
  }

  /** The `roleCount` loop. */
  method CountRoles(data: seq<GameRecord>) returns (d: Dict<int>)
    ensures d == RoleCountsOf(data)
  {
    d := NoRoles;
    for i := 0 to |data|
      invariant d == RoleCountsOf(data[..i])
    {
      assert data[..i + 1][..i] == data[..i];
      d := CountRole(d, data[i].role);
    }
    assert data[..|data|] == data;
  }

  /** `roleDistribution`: each count as a rounded percentage of all games, keys in the same order. */
  function RoleDistribution(counts: Dict<int>, total: nat): (r: Dict<int>)
    requires total > 0
    ensures Keys(r) == Keys(counts)
    ensures forall i :: 0 <= i < |r| ==> r[i].value == Percent(counts[i].value, total)
  {
    seq(|counts|, i requires 0 <= i < |counts| => Entry(counts[i].key, Percent(counts[i].value, total)))
  }

  // ---------------------------------------------------------------------------
  // The profile
  // ---------------------------------------------------------------------------

  datatype Profile = Profile(
    summonerName: string, rank: string, totalGames: nat, winRate: int,
    aggression: int, roaming: int, visionScore: int, csSkill: int, lateGameSkill: int,
    avgSoloKills: real, avgDeaths: real, avgVisionScore: real, avgCsPerMin: real, avgKda: KdaFigure,
    avgDamage: int, avgKillParticipation: int,
    championPool: seq<PoolEntry>, roleDistribution: Dict<int>)

  /** `getEmptyProfile`: every trait at 5, every figure 0, no champions, every role at 0%. */
  function EmptyProfile(summonerName: string, rank: string): Profile {
    Profile(summonerName, rank, 0, 0, 5, 5, 5, 5, 5, 0.0, 0.0, 0.0, 0.0, Ratio(0.0), 0, 0, [], NoRoles)
  }

  /** `TIER_BENCHMARKS[tier] || TIER_BENCHMARKS.GOLD`: the tier's benchmark, GOLD's for an unknown tier. */
  function BenchmarkOf(tier: string): (r: Benchmark)
    ensures r.csPerMin > 0.0 && r.visionPerMin > 0.0 && r.kda > 0.0
    ensures tier in BenchmarkTiers ==> Some(r) == TierBenchmark(tier)
    ensures tier !in BenchmarkTiers ==> r == GoldBenchmark
  {
    if TierBenchmark(tier).Some? then
      BenchmarksPositive(tier);
      TierBenchmark(tier).value
    else GoldBenchmark
  }

  /** The profile of a non-empty list of records, given the two accumulators built from it. */
  function Assemble(
    summonerName: string, rank: string, tier: string, data: seq<GameRecord>, champs: Dict<ChampStats>, roles: Dict<int>)
    : Profile
    requires |data| > 0
    requires forall i :: 0 <= i < |champs| ==> WellFormed(champs[i].value)
  {
    var total := |data|;
    var bench := BenchmarkOf(tier);
    var avg := AveragesOf(data);
    Profile(
      summonerName, rank, total, Percent(|Filter(data, Won)|, total),
      ScoreValue(avg.soloKills + avg.kills * 0.5, bench.kda * 0.8),
      Roaming(avg.kills, avg.assists),
      ScoreValue(avg.visionPerMin, bench.visionPerMin),
      ScoreValue(avg.csPerMin, bench.csPerMin),
      LateGameSkill(data),
      avg.soloKills, avg.deaths, avg.visionScore, avg.csPerMin,
      KdaFigureOf(avg.kills, avg.deaths, avg.assists), avg.damage, avg.killParticipation,
      ChampionPool(champs), RoleDistribution(roles, total))
  }

  /** The profile of a non-empty list of completed records, scored against the benchmark of `tier`. */
  function ProfileOfRecords(summonerName: string, rank: string, tier: string, data: seq<GameRecord>): Profile
    requires |data| > 0
  {
    ChampMapWellFormed(data);
    Assemble(summonerName, rank, tier, data, ChampMapOf(data), RoleCountsOf(data))
  }

  /**
   * The totals divide by the number of records, so some classic game must hold the player
   * whenever there are classic games at all.
   */
  predicate ProfileDefined(details: seq<Option<MatchInfo>>, puuid: string) {
    ClassicMatches(details) == [] || Played(ClassicMatches(details), puuid) != []
  }

  /**
   * `profilePlaystyle` as written: the tier is read with the table in its written order, and
   * record `i` is completed from classic game `i`.
   */
  function ProfileOf(details: seq<Option<MatchInfo>>, puuid: string, rank: string, summonerName: string): Profile
    requires ProfileDefined(details, puuid)
  {
    var classic := ClassicMatches(details);
    if classic == [] then EmptyProfile(summonerName, rank)
    else ProfileOfRecords(summonerName, rank, ExtractTierAsWritten(rank), PairedAsWritten(classic, puuid))
  }

  /**
   * The profile the program evidently intends: the corrected tier extraction, and each record
   * completed from the game it was read from.
   */
  function ProfileOfIntended(details: seq<Option<MatchInfo>>, puuid: string, rank: string, summonerName: string)
    : Profile
    requires ProfileDefined(details, puuid)
  {
    var classic := ClassicMatches(details);
    if classic == [] then EmptyProfile(summonerName, rank)
    else ProfileOfRecords(summonerName, rank, ExtractTier(rank), Paired(classic, puuid))
  }

  /** `participantData` built, then completed in place by the kill-participation loop as written. */
  method CompleteRecords(classic: seq<MatchInfo>, puuid: string) returns (records: seq<GameRecord>)
    ensures records == PairedAsWritten(classic, puuid)
  {
    var data := ParticipantData(classic, puuid);
    var pd := new GameRecord[|data|](i requires 0 <= i < |data| => data[i]);
    FillKillParticipation(pd, classic);
    records := pd[..];
  }

  /** `profilePlaystyle`: the records are completed in place, then both accumulator loops run. */
  method ProfilePlaystyle(details: seq<Option<MatchInfo>>, puuid: string, rank: string, summonerName: string)
    returns (p: Profile)
    requires ProfileDefined(details, puuid)
    ensures p == ProfileOf(details, puuid, rank, summonerName)
  {
    var classic := ClassicMatches(details);
    if classic == [] {
      return EmptyProfile(summonerName, rank);
    }
    var tier := ExtractTierAsWritten(rank);
    var records := CompleteRecords(classic, puuid);
    var champs := BuildChampMap(records);
    var roles := CountRoles(records);
    ChampMapWellFormed(records);
    p := Assemble(summonerName, rank, tier, records, champs, roles);
  }

  /** Without classic games the profile is the neutral one. */
  lemma ProfileWithoutClassicGames(details: seq<Option<MatchInfo>>, puuid: string, rank: string, name: string)
    requires forall i :: 0 <= i < |details| ==> details[i].None? || !IsClassic(details[i].value)
    ensures ProfileDefined(details, puuid)
    ensures var p := ProfileOf(details, puuid, rank, name);
      && p.totalGames == 0 && p.winRate == 0 && p.championPool == []
      && p.aggression == 5 && p.roaming == 5 && p.visionScore == 5 && p.csSkill == 5 && p.lateGameSkill == 5
      && Keys(p.roleDistribution) == RoleKeys
      && forall i :: 0 <= i < |p.roleDistribution| ==> p.roleDistribution[i].value == 0
  {
    NoClassicMatches(details);
  }

  lemma {:induction false} NoClassicMatches(details: seq<Option<MatchInfo>>)
    requires forall i :: 0 <= i < |details| ==> details[i].None? || !IsClassic(details[i].value)
    ensures ClassicMatches(details) == []
    decreases |details|
  {
    if |details| > 0 {
      NoClassicMatches(details[1..]);
    }
  }

  /**
   * With classic games, both profiles are profiles of one record per game the player took part
   * in: the program's with the written tier order and the shifted pairing, the intended one with
   * both corrected. The two record lists differ only in team kills and kill participation.
   */
  lemma ProfilesOfRecords(details: seq<Option<MatchInfo>>, puuid: string, rank: string, name: string)
    requires ProfileDefined(details, puuid) && ClassicMatches(details) != []
    ensures var classic := ClassicMatches(details);
            var asWritten, intended := PairedAsWritten(classic, puuid), Paired(classic, puuid);
      && |asWritten| == |intended| == |Played(classic, puuid)| >= 1
      && ProfileOf(details, puuid, rank, name) == ProfileOfRecords(name, rank, ExtractTierAsWritten(rank), asWritten)
      && ProfileOfIntended(details, puuid, rank, name) == ProfileOfRecords(name, rank, ExtractTier(rank), intended)
      && forall i :: 0 <= i < |asWritten| ==>
           asWritten[i].(killParticipation := 0, teamKills := 0) == intended[i].(killParticipation := 0, teamKills := 0)
  {
    var classic := ClassicMatches(details);
    var data := ParticipantData(classic, puuid);
    var asWritten, intended := PairedAsWritten(classic, puuid), Paired(classic, puuid);
    forall i | 0 <= i < |asWritten|
      ensures asWritten[i].(killParticipation := 0, teamKills := 0) == intended[i].(killParticipation := 0, teamKills := 0)
    {
      var a, b := asWritten[i], intended[i];
      assert a.(killParticipation := data[i].killParticipation, teamKills := data[i].teamKills) == data[i];
      assert b.(killParticipation := data[i].killParticipation, teamKills := data[i].teamKills) == data[i];
    }
  }

  lemma {:induction false} PlayedAll(classic: seq<MatchInfo>, puuid: string)
    requires forall i :: 0 <= i < |classic| ==> RecordOf(classic[i], puuid).Some?
    ensures Played(classic, puuid) == classic
    decreases |classic|
  {
    if |classic| > 0 {
      PlayedAll(classic[1..], puuid);
    }
  }

  /**
   * When every classic game holds the player and the rank reads the same under both tier tables,
   * the program computes the intended profile.
   */
  lemma ProfileAsIntended(details: seq<Option<MatchInfo>>, puuid: string, rank: string, name: string)
    requires ProfileDefined(details, puuid)
    requires forall i :: 0 <= i < |ClassicMatches(details)| ==> RecordOf(ClassicMatches(details)[i], puuid).Some?
    requires ExtractTierAsWritten(rank) == ExtractTier(rank)
    ensures ProfileOf(details, puuid, rank, name) == ProfileOfIntended(details, puuid, rank, name)
  {
    var classic := ClassicMatches(details);
    if classic != [] {
      PlayedAll(classic, puuid);
      assert PairedAsWritten(classic, puuid) == Paired(classic, puuid);
    }
  }

  /** Every profile of records: one game per record, percentages within 0..100, every trait within 1..10. */
  lemma ProfileScores(name: string, rank: string, tier: string, data: seq<GameRecord>)
    requires |data| > 0
    ensures var p := ProfileOfRecords(name, rank, tier, data);
      && p.totalGames == |data|
      && 0 <= p.winRate <= 100
      && 1 <= p.aggression <= 10 && 1 <= p.roaming <= 10 && 1 <= p.visionScore <= 10
      && 1 <= p.csSkill <= 10 && 1 <= p.lateGameSkill <= 10
      && (p.avgKda == Perfect <==> forall i :: 0 <= i < |data| ==> data[i].deaths == 0)
  {
    assert |Filter(data, Won)| <= |data|;
  }

  /**
   * A pool entry built from the games carries that champion's game count, its win rate, its CS/min
   * mean, its damage mean and the role of its first game.
   */
  lemma PoolEntryMatchesGames(data: seq<GameRecord>, i: nat)
    requires forall k :: 0 <= k < |ChampMapOf(data)| ==> WellFormed(ChampMapOf(data)[k].value)
    requires i < |ChampionPool(ChampMapOf(data))|
    ensures var e := ChampionPool(ChampMapOf(data))[i];
      && e.games == GamesOn(data, e.champion) >= 1 && e.avgCs == CsOn(data, e.champion) / e.games as real
      && e.winRate == Percent(WinsOn(data, e.champion), e.games)
      && e.avgDamage == Round(SumBy(On(data, e.champion), GameDamage) as real / e.games as real)
      && |On(data, e.champion)| > 0 && e.role == On(data, e.champion)[0].role
  {
    var d := ChampMapOf(data);
    var c := TopByGames(d)[i];
    var k :| 0 <= k < |d| && c == d[k].value;
    assert Tallies(d, data, d[k].key);
    assert Get(d, d[k].key) == Some(c);
    assert c.champion == d[k].key && c.games == GamesOn(data, c.champion) && c.cs == CsOn(data, c.champion);
    assert Sums(c, On(data, c.champion));
    var e := ChampionPool(d)[i];
    assert e == PoolEntryOf(c);
    assert e.champion == c.champion && e.games == c.games;
  }

  /**
   * The pool: at most three champions, most played first, each with its own game count, win rate,
   * CS and damage means and first role.
   */
  lemma ProfilePool(name: string, rank: string, tier: string, data: seq<GameRecord>)
    requires |data| > 0
    ensures var p := ProfileOfRecords(name, rank, tier, data);
      && |p.championPool| <= 3
      && (forall i, j :: 0 <= i < j < |p.championPool| ==> p.championPool[i].games >= p.championPool[j].games)
      && forall i :: 0 <= i < |p.championPool| ==>
           var e := p.championPool[i];
           && e.games == GamesOn(data, e.champion) >= 1
           && e.avgCs == CsOn(data, e.champion) / e.games as real
           && 0 <= e.winRate <= 100
           && e.winRate == Percent(WinsOn(data, e.champion), e.games)
           && e.avgDamage == Round(SumBy(On(data, e.champion), GameDamage) as real / e.games as real)
           && |On(data, e.champion)| > 0 && e.role == On(data, e.champion)[0].role
  {
    ChampMapWellFormed(data);
    var pool := ChampionPool(ChampMapOf(data));
    assert ProfileOfRecords(name, rank, tier, data).championPool == pool;
    forall i | 0 <= i < |pool|
      ensures pool[i].games == GamesOn(data, pool[i].champion) >= 1
      ensures pool[i].avgCs == CsOn(data, pool[i].champion) / pool[i].games as real
      ensures pool[i].winRate == Percent(WinsOn(data, pool[i].champion), pool[i].games)
      ensures pool[i].avgDamage == Round(SumBy(On(data, pool[i].champion), GameDamage) as real / pool[i].games as real)
      ensures |On(data, pool[i].champion)| > 0 && pool[i].role == On(data, pool[i].champion)[0].role
    {
      PoolEntryMatchesGames(data, i);
    }
  }

  /** In the distribution, a counted role's value is its share of the games. */
  lemma DistributionGet(counts: Dict<int>, total: nat, role: string)
    requires total > 0 && Valid(counts) && Get(counts, role).Some?
    ensures Valid(RoleDistribution(counts, total))
    ensures Get(RoleDistribution(counts, total), role) == Some(Percent(Get(counts, role).value, total))
  {
    var dist := RoleDistribution(counts, total);
    var k := IndexOf(counts, role);
    assert counts[k].key == role;
    assert dist[k].key == role;
    assert Valid(dist) by {
      assert forall i :: 0 <= i < |dist| ==> dist[i].key == counts[i].key;
    }
  }

  /** The distribution: the five roles in order, each the rounded share of the games in it. */
  lemma ProfileRoles(name: string, rank: string, tier: string, data: seq<GameRecord>, role: string)
    requires |data| > 0 && role in RoleKeys
    ensures var p := ProfileOfRecords(name, rank, tier, data);
      && Keys(p.roleDistribution) == RoleKeys
      && Get(p.roleDistribution, role) == Some(Percent(GamesIn(data, role), |data|))
      && 0 <= Get(p.roleDistribution, role).value <= 100
  {
    var counts := RoleCountsOf(data);
    assert ProfileOfRecords(name, rank, tier, data).roleDistribution == RoleDistribution(counts, |data|);
    RoleCountsAreCounts(data, role);
    DistributionGet(counts, |data|, role);
  }
}
