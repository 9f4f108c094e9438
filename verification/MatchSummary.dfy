/**
 * The per-match record the coaching prompt is built from: raw figures, the tier-normalised
 * scores, the result, and counts of the player's deaths taken from the timeline.
 */
module MatchSummary {
  import opened Wrappers
  import opened Seqs
  import opened Numbers
  import opened RiotData
  import opened StatNormalizer

  // ---------------------------------------------------------------------------
  // Death pattern
  // ---------------------------------------------------------------------------

  /** One of the player's deaths as `analyzeDeathEvents` records it. */
  datatype DeathEntry = DeathEntry(timeMin: int, position: Option<Position>, assists: seq<int>)

  datatype DeathPattern = DeathPattern(earlyDeathCount: nat, soloDeathCount: nat, totalDeaths: nat)

  predicate IsDeathOf(e: Event, id: int) {
    e.ChampionKill? && e.victimId == id
  }

  /** `Math.floor(timestamp / 60000)`: Dafny's division by a positive divisor is floor division. */
  function ToEntry(e: Event): DeathEntry
    requires e.ChampionKill?
  {
    DeathEntry(e.timestamp / 60000, e.position, e.assists)
  }

  /** The player's deaths, in event order, each as its entry. */
  function EntriesOf(events: seq<Event>, id: int): (r: seq<DeathEntry>)
    ensures var deaths := Filter(events, (e: Event) => IsDeathOf(e, id));
      |r| == |deaths| && forall i :: 0 <= i < |r| ==> deaths[i].ChampionKill? && r[i] == ToEntry(deaths[i])
  {
    var deaths := Filter(events, (e: Event) => IsDeathOf(e, id));
    Map(deaths, (e: Event) => if e.ChampionKill? then ToEntry(e) else DeathEntry(0, None, []))
  }

  predicate IsEarly(d: DeathEntry) { d.timeMin < 10 }

  predicate IsSolo(d: DeathEntry) { |d.assists| == 0 }

  /** The three counts over the recorded deaths: those in minutes 0..9, those without assists, all. */
  function CountPattern(entries: seq<DeathEntry>): (r: DeathPattern)
    ensures r.totalDeaths == |entries|
    ensures r.earlyDeathCount == |Filter(entries, IsEarly)| && r.soloDeathCount == |Filter(entries, IsSolo)|
    ensures r.earlyDeathCount <= r.totalDeaths && r.soloDeathCount <= r.totalDeaths
  {
    DeathPattern(|Filter(entries, IsEarly)|, |Filter(entries, IsSolo)|, |entries|)
  }

  /**
   * The counts `analyzeDeathEvents` returns. `frames` is None when the timeline, its `info`
   * or its `frames` is missing.
   */
  function DeathPatternOf(frames: Option<seq<Frame>>, id: int): (r: DeathPattern)
    ensures frames.None? ==> r == DeathPattern(0, 0, 0)
    ensures frames.Some? ==>
      && r.totalDeaths == |Filter(AllEvents(frames.value), (e: Event) => IsDeathOf(e, id))|
      && r.earlyDeathCount == |Filter(AllEvents(frames.value), (e: Event) => IsEarlyDeathOf(e, id))|
      && r.soloDeathCount == |Filter(AllEvents(frames.value), (e: Event) => IsSoloDeathOf(e, id))|
    ensures r.earlyDeathCount <= r.totalDeaths && r.soloDeathCount <= r.totalDeaths
  {
    match frames
    case None => DeathPattern(0, 0, 0)
    case Some(fs) =>
      EntryCounts(AllEvents(fs), id);
      CountPattern(EntriesOf(AllEvents(fs), id))
  }

  /** A death in minute 0..9 counts as early: exactly the deaths before 600000 ms. */
  lemma EarlyMeansBeforeTenMinutes(e: Event)
    requires e.ChampionKill?
    ensures IsEarly(ToEntry(e)) <==> e.timestamp < 600000
  {}

  predicate IsEarlyDeathOf(e: Event, id: int) { IsDeathOf(e, id) && e.timestamp < 600000 }

  predicate IsSoloDeathOf(e: Event, id: int) { IsDeathOf(e, id) && |e.assists| == 0 }

  /** The early and solo counts over the entries are the counts of the matching death events. */
  lemma {:induction false} EntryCounts(events: seq<Event>, id: int)
    ensures |Filter(EntriesOf(events, id), IsEarly)| == |Filter(events, (e: Event) => IsEarlyDeathOf(e, id))|
    ensures |Filter(EntriesOf(events, id), IsSolo)| == |Filter(events, (e: Event) => IsSoloDeathOf(e, id))|
    decreases |events|
  {
    if |events| > 0 {
      var init, e := events[..|events| - 1], events[|events| - 1];
      assert events == init + [e];
      EntryCounts(init, id);
      EntriesSnoc(init, e, id);
      var tail := if IsDeathOf(e, id) then [ToEntry(e)] else [];
      FilterAppend(EntriesOf(init, id), tail, IsEarly);
      FilterAppend(EntriesOf(init, id), tail, IsSolo);
      FilterAppend(init, [e], (x: Event) => IsEarlyDeathOf(x, id));
      FilterAppend(init, [e], (x: Event) => IsSoloDeathOf(x, id));
      if IsDeathOf(e, id) {
        EarlyMeansBeforeTenMinutes(e);
      }
    }
  }

  lemma AllEventsSnoc(frames: seq<Frame>, f: Frame)
    ensures AllEvents(frames + [f]) == AllEvents(frames) + f.events
    decreases |frames|
  {
    if |frames| == 0 {
      assert AllEvents([f]) == f.events + AllEvents([]);
    } else {
      assert (frames + [f])[1..] == frames[1..] + [f];
      AllEventsSnoc(frames[1..], f);
    }
  }

  lemma EntriesSnoc(events: seq<Event>, e: Event, id: int)
    ensures EntriesOf(events + [e], id)
      == EntriesOf(events, id) + (if IsDeathOf(e, id) then [ToEntry(e)] else [])
  {
    var p := (x: Event) => IsDeathOf(x, id);
    FilterAppend(events, [e], p);
    assert Filter([e], p) == if p(e) then [e] else [];
  }

  /** The inner loop of `analyzeDeathEvents`: one frame's events appended to the deaths seen so far. */
  method CollectDeaths(seen: seq<Event>, events: seq<Event>, id: int, acc: seq<DeathEntry>) returns (r: seq<DeathEntry>)
    requires acc == EntriesOf(seen, id)
    ensures r == EntriesOf(seen + events, id)
  {
    r := acc;
    var j := 0;
    assert seen + events[..0] == seen;
    while j < |events|
      invariant 0 <= j <= |events|
      invariant r == EntriesOf(seen + events[..j], id)
    {
      var e := events[j];
      EntriesSnoc(seen + events[..j], e, id);
      assert seen + events[..j + 1] == (seen + events[..j]) + [e] by {
        assert events[..j + 1] == events[..j] + [e];
      }
      if e.ChampionKill? && e.victimId == id {
        r := r + [DeathEntry(e.timestamp / 60000, e.position, e.assists)];
      }
      j := j + 1;
    }
    assert events[..j] == events;
  }

  /** `analyzeDeathEvents`: a scan over every frame's events, recording the player's deaths. */
  method AnalyzeDeathEvents(frames: Option<seq<Frame>>, id: int) returns (r: DeathPattern)
    ensures r == DeathPatternOf(frames, id)
  {
    if frames.None? {
      return DeathPattern(0, 0, 0);
    }
    var fs := frames.value;
    var deathEvents: seq<DeathEntry> := [];
    var i := 0;
    while i < |fs|
      invariant 0 <= i <= |fs|
      invariant deathEvents == EntriesOf(AllEvents(fs[..i]), id)
    {
      deathEvents := CollectDeaths(AllEvents(fs[..i]), fs[i].events, id, deathEvents);
      AllEventsSnoc(fs[..i], fs[i]);
      assert fs[..i + 1] == fs[..i] + [fs[i]];
      i := i + 1;
    }
    assert fs[..i] == fs;
    r := DeathPattern(|Filter(deathEvents, IsEarly)|, |Filter(deathEvents, IsSolo)|, |deathEvents|);
  }

  // ---------------------------------------------------------------------------
  // parseMatch
  // ---------------------------------------------------------------------------

  /** `getParticipantId`: the id of the first participant with this puuid. */
  function GetParticipantId(info: MatchInfo, puuid: string): (r: Option<int>)
    ensures r.None? <==> forall i :: 0 <= i < |info.participants| ==> info.participants[i].puuid != puuid
    ensures r.Some? ==> exists i :: 0 <= i < |info.participants| && info.participants[i].puuid == puuid
                                    && info.participants[i].participantId == r.value
                                    && forall j :: 0 <= j < i ==> info.participants[j].puuid != puuid
  {
    var p := Find(info.participants, (p: Participant) => p.puuid == puuid);
    if p.Some? then Some(p.value.participantId) else None
  }

  datatype MatchRaw = MatchRaw(csPerMin: real, kda: real, visionScore: int, damageDealt: int)

  datatype Summary = Summary(
    champion: string,
    role: string,
    gameDurationMin: int,
    teamResult: string,
    kills: nat,
    deaths: nat,
    assists: nat,
    raw: MatchRaw,
    relative: Normalized,
    deathPattern: DeathPattern)

  /** `(kills + assists) / Math.max(deaths, 1)`: defined for every participant. */
  function RawKda(p: Participant): (r: real)
    ensures p.deaths == 0 ==> r == (p.kills + p.assists) as real
    ensures p.deaths > 0 ==> r * p.deaths as real == (p.kills + p.assists) as real
    ensures r >= 0.0
  {
    (p.kills + p.assists) as real / MaxInt(p.deaths, 1) as real
  }

  lemma DivThenMultiply(a: real, b: real)
    requires b != 0.0
    ensures (a / b) * b == a
  {}

  /** `participants.find(p => p.puuid === puuid)`. */
  function FindByPuuid(info: MatchInfo, puuid: string): (r: Option<Participant>)
    ensures r.None? <==> forall i :: 0 <= i < |info.participants| ==> info.participants[i].puuid != puuid
    ensures r.Some? ==> r.value in info.participants && r.value.puuid == puuid
    ensures r.Some? ==> exists i :: 0 <= i < |info.participants| && info.participants[i] == r.value
                                    && forall j :: 0 <= j < i ==> info.participants[j].puuid != puuid
  {
    Find(info.participants, (p: Participant) => p.puuid == puuid)
  }

  /** `(totalMinionsKilled + neutralMinionsKilled) / (gameDuration / 60)`. */
  function CsPerMin(p: Participant, gameDuration: int): (r: real)
    requires gameDuration > 0
    ensures r * (gameDuration as real / 60.0) == (p.totalMinionsKilled + p.neutralMinionsKilled) as real
  {
    var minutes := gameDuration as real / 60.0;
    var cs := (p.totalMinionsKilled + p.neutralMinionsKilled) as real;
    DivThenMultiply(cs, minutes);
    cs / minutes
  }

  function SummaryOf(p: Participant, gameDuration: int, timeline: Option<seq<Frame>>, tier: string): (s: Summary)
    requires gameDuration > 0
    ensures s.role == p.teamPosition
    ensures s.raw == MatchRaw(CsPerMin(p, gameDuration), RawKda(p), p.visionScore, p.totalDamageDealtToChampions)
    ensures s.relative == NormalizeStats(RawStats(s.raw.csPerMin, s.raw.kda, s.raw.visionScore as real),
                                         tier, p.championName, if p.teamPosition != "" then p.teamPosition else "MIDDLE")
    ensures s.teamResult == (if p.win then "WIN" else "LOSE")
    ensures s.deathPattern == DeathPatternOf(timeline, p.participantId)
    ensures s.gameDurationMin == Round(gameDuration as real / 60.0)
  {
    var raw := MatchRaw(CsPerMin(p, gameDuration), RawKda(p), p.visionScore, p.totalDamageDealtToChampions);
    var role := if p.teamPosition != "" then p.teamPosition else "MIDDLE";
    Summary(
      p.championName,
      p.teamPosition,
      Round(gameDuration as real / 60.0),
      if p.win then "WIN" else "LOSE",
      p.kills, p.deaths, p.assists,
      raw,
      NormalizeStats(RawStats(raw.csPerMin, raw.kda, raw.visionScore as real), tier, p.championName, role),
      DeathPatternOf(timeline, p.participantId))
  }

  /**
   * `parseMatch`. The timeline is None when it, its `info` or its `frames` is missing; the game
   * duration is in seconds and must be positive (the source divides by it).
   */
  function ParseMatch(info: MatchInfo, timeline: Option<seq<Frame>>, puuid: string, tier: string): (r: Result<Summary>)
    requires info.gameDuration > 0
    ensures r.Err? <==> FindByPuuid(info, puuid).None?
    ensures r.Ok? ==> r.value == SummaryOf(FindByPuuid(info, puuid).value, info.gameDuration, timeline, tier)
  {
    match FindByPuuid(info, puuid)
    case None => Err("participant not found")
    case Some(p) => Ok(SummaryOf(p, info.gameDuration, timeline, tier))
  }

  /** The death counts of the summary are those of the participant `getParticipantId` finds. */
  lemma ParseMatchUsesParticipantId(info: MatchInfo, timeline: Option<seq<Frame>>, puuid: string, tier: string)
    requires info.gameDuration > 0 && ParseMatch(info, timeline, puuid, tier).Ok?
    ensures GetParticipantId(info, puuid) == Some(FindByPuuid(info, puuid).value.participantId)
    ensures ParseMatch(info, timeline, puuid, tier).value.deathPattern
            == DeathPatternOf(timeline, GetParticipantId(info, puuid).value)
  {}

  // ---------------------------------------------------------------------------
  // sanitizeForPrompt
  // ---------------------------------------------------------------------------

  datatype SanitizedSummary = SanitizedSummary(
    champion: string,
    role: string,
    gameDurationMin: int,
    teamResult: string,
    kills: nat,
    deaths: nat,
    assists: nat,
    raw: MatchRaw,
    relative: SanitizedRelative,
    deathPattern: DeathPattern)

  /** `sanitizeForPrompt`: a copy in which only the relative scores may change. */
  function SanitizeForPrompt(s: Summary, tier: string): (r: SanitizedSummary)
    ensures r.champion == s.champion && r.role == s.role && r.gameDurationMin == s.gameDurationMin
    ensures r.teamResult == s.teamResult && r.kills == s.kills && r.deaths == s.deaths && r.assists == s.assists
    ensures r.raw == s.raw && r.deathPattern == s.deathPattern
    ensures r.relative == SanitizeRelative(s.relative, tier)
  {
    SanitizedSummary(s.champion, s.role, s.gameDurationMin, s.teamResult, s.kills, s.deaths, s.assists,
                     s.raw, SanitizeRelative(s.relative, tier), s.deathPattern)
  }
}
