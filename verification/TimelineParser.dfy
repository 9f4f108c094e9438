/**
 * The timeline decision parser: turns a Match-v5 timeline and match detail into the structured
 * report the coaching prompt is built from (deaths with their map zone and context, objective
 * participation, gold and CS at 10 and 15 minutes, recall timings, vision and combat figures).
 */
module TimelineParser {
  import opened Wrappers
  import opened Seqs
  import opened Numbers
  import opened RiotData
  import opened Text

  // ---------------------------------------------------------------------------
  // Map zones
  // ---------------------------------------------------------------------------

  datatype Zone = EnemyBase | River | EnemyJungle | OwnJungle | LaneOverextended | LaneSafe

  /** The label the report and the prompt use for a zone. */
  function ZoneName(z: Zone): string {
    match z
    case EnemyBase => "ENEMY_BASE"
    case River => "RIVER"
    case EnemyJungle => "ENEMY_JUNGLE"
    case OwnJungle => "OWN_JUNGLE"
    case LaneOverextended => "LANE_OVEREXTENDED"
    case LaneSafe => "LANE_SAFE"
  }

  predicate InRiverBand(nx: int, ny: int) {
    12000 < nx + ny < 18000 && Abs(nx - ny) < 5000
  }

  predicate InOwnJungleBox(nx: int, ny: int) {
    nx + ny < 13000 && nx < 10000 && ny < 10000 && nx > 2000 && ny > 2000
  }

  /** Zone of a point as seen from the blue side (teamId 100). */
  function BlueZone(nx: int, ny: int): Zone {
    if nx > 12500 && ny > 12500 then EnemyBase
    else if InRiverBand(nx, ny) then River
    else if nx + ny > 17000 && nx > 5000 && ny > 5000 then EnemyJungle
    else if InOwnJungleBox(nx, ny) then OwnJungle
    else if nx + ny > 16000 then LaneOverextended
    else LaneSafe
  }

  /**
   * `classifyLocation`: a red-side (any teamId but 100) point is reflected through the map centre,
   * then the zones are tried in a fixed order with strict bounds.
   */
  function ClassifyLocation(x: int, y: int, teamId: int): (r: Zone)
    ensures teamId == 100 ==> r == BlueZone(x, y)
    ensures teamId != 100 ==> r == BlueZone(15000 - x, 15000 - y)
  {
    var nx := if teamId == 100 then x else 15000 - x;
    var ny := if teamId == 100 then y else 15000 - y;
    BlueZone(nx, ny)
  }

  /** The two sides see the map as mirror images of each other. */
  lemma ClassifyLocationSymmetric(x: int, y: int, teamId: int)
    requires teamId != 100
    ensures ClassifyLocation(x, y, teamId) == ClassifyLocation(15000 - x, 15000 - y, 100)
  {}

  /** River wins over own jungle: a point in both is RIVER, and OWN_JUNGLE is never river. */
  lemma RiverBeforeOwnJungle(x: int, y: int, teamId: int)
    ensures var nx := if teamId == 100 then x else 15000 - x;
            var ny := if teamId == 100 then y else 15000 - y;
            (InOwnJungleBox(nx, ny) && InRiverBand(nx, ny) ==> ClassifyLocation(x, y, teamId) == River)
            && (ClassifyLocation(x, y, teamId) == OwnJungle ==> InOwnJungleBox(nx, ny) && !InRiverBand(nx, ny))
  {}

  /** A concrete point of both regions: (6000, 6500) on the blue side is river, not jungle. */
  lemma RiverBeforeOwnJungleExample()
    ensures InOwnJungleBox(6000, 6500) && ClassifyLocation(6000, 6500, 100) == River
  {}

  // ---------------------------------------------------------------------------
  // Participants
  // ---------------------------------------------------------------------------

  function FindParticipant(ps: seq<Participant>, id: int): (r: Option<Participant>)
    ensures r.Some? <==> exists i :: 0 <= i < |ps| && ps[i].participantId == id
    ensures r.Some? ==> r.value in ps && r.value.participantId == id
    ensures r.Some? ==> exists i :: 0 <= i < |ps| && ps[i] == r.value
                                    && forall j :: 0 <= j < i ==> ps[j].participantId != id
  {
    Find(ps, (p: Participant) => p.participantId == id)
  }

  /** A lane opponent of `target` (the player `id`): another team, the same position, not the player. */
  predicate Opposes(p: Participant, target: Participant, id: int) {
    p.teamId != target.teamId && p.teamPosition == target.teamPosition && p.participantId != id
  }

  /**
   * `findLaneOpponent`: the first participant of another team in the same non-empty
   * position, other than the player.
   */
  function FindLaneOpponent(ps: seq<Participant>, id: int): (r: Option<int>)
    ensures r.Some? ==> FindParticipant(ps, id).Some? && FindParticipant(ps, id).value.teamPosition != ""
    ensures r.Some? ==> r.value != id && exists i :: (0 <= i < |ps| && ps[i].participantId == r.value
              && ps[i].teamId != FindParticipant(ps, id).value.teamId
              && ps[i].teamPosition == FindParticipant(ps, id).value.teamPosition)
    ensures r.None? && FindParticipant(ps, id).Some? && FindParticipant(ps, id).value.teamPosition != "" ==>
              forall i :: (0 <= i < |ps| && ps[i].teamId != FindParticipant(ps, id).value.teamId
                && ps[i].teamPosition == FindParticipant(ps, id).value.teamPosition) ==> ps[i].participantId == id
    ensures r.Some? ==> exists i :: (0 <= i < |ps| && ps[i].participantId == r.value
              && Opposes(ps[i], FindParticipant(ps, id).value, id)
              && forall j :: 0 <= j < i ==> !Opposes(ps[j], FindParticipant(ps, id).value, id))
  {
    match FindParticipant(ps, id)
    case None => None
    case Some(target) =>
      if target.teamPosition == "" then None
      else
        var k := FindIndex(ps, (p: Participant) => Opposes(p, target, id));
        if k < 0 then None else Some(ps[k].participantId)
  }

  // ---------------------------------------------------------------------------
  // Sampling gold and CS at a time
  // ---------------------------------------------------------------------------

  function TimeDiff(f: Frame, target: int): nat {
    Abs(f.timestamp - target)
  }

  /** Index of the frame among the first `n` that the sampling loop keeps, or -1 when `n` is 0. */
  function ClosestIn(frames: seq<Frame>, target: int, n: nat): (r: int)
    requires n <= |frames|
    ensures -1 <= r < n
    ensures n > 0 ==> r >= 0
  {
    if n == 0 then -1
    else
      var c := ClosestIn(frames, target, n - 1);
      if c < 0 || TimeDiff(frames[n - 1], target) < TimeDiff(frames[c], target) then n - 1 else c
  }

  /** The kept frame is the first one whose distance to the target time is minimal. */
  lemma {:induction false} ClosestIsFirstMinimum(frames: seq<Frame>, target: int, n: nat)
    requires 0 < n <= |frames|
    ensures var c := ClosestIn(frames, target, n);
      && (forall j :: 0 <= j < n ==> TimeDiff(frames[c], target) <= TimeDiff(frames[j], target))
      && (forall j :: 0 <= j < c ==> TimeDiff(frames[c], target) < TimeDiff(frames[j], target))
  {
    if n > 1 {
      ClosestIsFirstMinimum(frames, target, n - 1);
    }
  }

  /** The sampled participant frame: absent when there are no frames, no snapshots or no entry. */
  function SampleAt(frames: seq<Frame>, id: int, target: int): Option<ParticipantFrame> {
    var c := ClosestIn(frames, target, |frames|);
    if c < 0 then None
    else match frames[c].participantFrames
      case None => None
      case Some(m) => if id in m then Some(m[id]) else None
  }

  /** Frame `c` is the first of the frames nearest in time to `target`. */
  predicate FirstNearest(frames: seq<Frame>, target: int, c: int) {
    && 0 <= c < |frames|
    && (forall j :: 0 <= j < |frames| ==> TimeDiff(frames[c], target) <= TimeDiff(frames[j], target))
    && (forall j :: 0 <= j < c ==> TimeDiff(frames[c], target) < TimeDiff(frames[j], target))
  }

  /** The participant's snapshot in one frame, if the frame has one for them. */
  function SnapshotIn(f: Frame, id: int): Option<ParticipantFrame> {
    if f.participantFrames.Some? && id in f.participantFrames.value then Some(f.participantFrames.value[id])
    else None
  }

  /** The participant's total gold in one frame, 0 without a snapshot. */
  function GoldIn(f: Frame, id: int): int {
    match SnapshotIn(f, id)
    case None => 0
    case Some(pf) => pf.totalGold
  }

  /** The participant's lane plus jungle minions in one frame, absent counts and snapshots as 0. */
  function CsIn(f: Frame, id: int): int {
    match SnapshotIn(f, id)
    case None => 0
    case Some(pf) => pf.minionsKilled.GetOr(0) + pf.jungleMinionsKilled.GetOr(0)
  }

  /** The scan settles on the first nearest frame whenever there is a frame. */
  lemma NearestIsSampled(frames: seq<Frame>, target: int)
    ensures |frames| > 0 ==> FirstNearest(frames, target, ClosestIn(frames, target, |frames|))
  {
    if |frames| > 0 {
      ClosestIsFirstMinimum(frames, target, |frames|);
    }
  }

  /**
   * `getGoldAtTime` as a value: the participant's total gold in the first frame nearest in time,
   * and 0 without frames or without a snapshot of the participant there.
   */
  function GoldAtTime(frames: seq<Frame>, id: int, target: int): (r: int)
    ensures |frames| == 0 ==> r == 0
    ensures |frames| > 0 ==> exists c :: FirstNearest(frames, target, c) && r == GoldIn(frames[c], id)
  {
    NearestIsSampled(frames, target);
    match SampleAt(frames, id, target)
    case None => 0
    case Some(pf) => pf.totalGold
  }

  /**
   * `getCsAtTime` as a value: lane plus jungle minions in the first frame nearest in time, absent
   * counts read as 0, and 0 without frames or without a snapshot of the participant there.
   */
  function CsAtTime(frames: seq<Frame>, id: int, target: int): (r: int)
    ensures |frames| == 0 ==> r == 0
    ensures |frames| > 0 ==> exists c :: FirstNearest(frames, target, c) && r == CsIn(frames[c], id)
  {
    NearestIsSampled(frames, target);
    match SampleAt(frames, id, target)
    case None => 0
    case Some(pf) => pf.minionsKilled.GetOr(0) + pf.jungleMinionsKilled.GetOr(0)
  }

  /** The scan of `getGoldAtTime` / `getCsAtTime`: keeps the frame with strictly smaller distance. */
  method ClosestFrame(frames: seq<Frame>, target: int) returns (closest: int)
    ensures closest == ClosestIn(frames, target, |frames|)
    ensures |frames| == 0 <==> closest == -1
    ensures closest >= 0 ==> forall j :: 0 <= j < |frames| ==> TimeDiff(frames[closest], target) <= TimeDiff(frames[j], target)
  {
    closest := -1;
    var minDiff := 0;
    var i := 0;
    while i < |frames|
      invariant 0 <= i <= |frames|
      invariant closest == ClosestIn(frames, target, i)
      invariant closest >= 0 ==> minDiff == TimeDiff(frames[closest], target)
    {
      var diff := TimeDiff(frames[i], target);
      if closest < 0 || diff < minDiff {
        minDiff := diff;
        closest := i;
      }
      i := i + 1;
    }
    if |frames| > 0 {
      ClosestIsFirstMinimum(frames, target, |frames|);
    }
  }

  method GetGoldAtTime(frames: seq<Frame>, id: int, target: int) returns (gold: int)
    ensures gold == GoldAtTime(frames, id, target)
  {
    var c := ClosestFrame(frames, target);
    gold := 0;
    if c >= 0 && frames[c].participantFrames.Some? {
      var m := frames[c].participantFrames.value;
      if id in m {
        gold := m[id].totalGold;
      }
    }
  }

  method GetCsAtTime(frames: seq<Frame>, id: int, target: int) returns (cs: int)
    ensures cs == CsAtTime(frames, id, target)
  {
    var c := ClosestFrame(frames, target);
    cs := 0;
    if c >= 0 && frames[c].participantFrames.Some? {
      var m := frames[c].participantFrames.value;
      if id in m {
        cs := m[id].minionsKilled.GetOr(0) + m[id].jungleMinionsKilled.GetOr(0);
      }
    }
  }

  /** Ties go to the earlier frame: with two frames equally far from the target, the first is sampled. */
  lemma SamplingTieGoesToEarlier(f0: Frame, f1: Frame, target: int)
    requires TimeDiff(f0, target) == TimeDiff(f1, target)
    ensures ClosestIn([f0, f1], target, 2) == 0
  {}

  // ---------------------------------------------------------------------------
  // Towers and death context
  // ---------------------------------------------------------------------------

  /** The simplified outer, inner and inhibitor towers of each lane, per side. */
  function SideTowers(blue: bool): (r: seq<Position>)
    ensures |r| == 9
  {
    if blue then
      [Position(981, 10441), Position(1512, 6699), Position(1169, 4287),
       Position(5846, 6396), Position(5048, 4812), Position(3651, 3696),
       Position(10504, 1029), Position(6919, 1483), Position(4281, 1253)]
    else
      [Position(4318, 13875), Position(7943, 13411), Position(10481, 13650),
       Position(8955, 8510), Position(9767, 10113), Position(11134, 11207),
       Position(13866, 4505), Position(13327, 8226), Position(13624, 10572)]
  }

  /** `getTowerPositions`: the towers of the player's side, none when the player is unknown. */
  function GetTowerPositions(ps: seq<Participant>, id: int): (r: seq<Position>)
    ensures FindParticipant(ps, id).None? ==> r == []
    ensures FindParticipant(ps, id).Some? ==> |r| == 9
  {
    match FindParticipant(ps, id)
    case None => []
    case Some(target) => SideTowers(target.teamId == 100)
  }

  /** Every blue tower lies on the blue half of the map, every red tower on the red half. */
  lemma TowersOnOwnHalf()
    ensures forall t :: t in SideTowers(true) ==> t.x + t.y < 15000
    ensures forall t :: t in SideTowers(false) ==> t.x + t.y > 15000
  {}

  datatype DeathContext = TeamfightDeath | DiveDeath | GankDeath | SoloDeath

  function DeathContextName(c: DeathContext): string {
    match c
    case TeamfightDeath => "TEAMFIGHT_DEATH"
    case DiveDeath => "DIVE_DEATH"
    case GankDeath => "GANK_DEATH"
    case SoloDeath => "SOLO_DEATH"
  }

  /** A kill within 15 s (inclusive) and strictly under 3000 units; an unknown position counts as near. */
  predicate IsNearbyKill(e: Event, death: Event)
    requires death.ChampionKill?
  {
    && e.ChampionKill?
    && Abs(e.timestamp - death.timestamp) <= 15000
    && (e.position.None? || death.position.None? || DistSq(e.position.value, death.position.value) < 9000000)
  }

  function NearbyKills(death: Event, events: seq<Event>): seq<Event>
    requires death.ChampionKill?
  {
    Filter(events, (e: Event) => IsNearbyKill(e, death))
  }

  /** Strictly under 1000 units from one of the towers. */
  predicate NearTower(death: Event, towers: seq<Position>)
    requires death.ChampionKill?
  {
    death.position.Some? && exists t :: t in towers && DistSq(death.position.value, t) < 1000000
  }

  /** The killer plays a different, non-empty position and at most one teammate assisted. */
  predicate IsGank(death: Event, ps: seq<Participant>, id: int)
    requires death.ChampionKill?
  {
    var killer := FindParticipant(ps, death.killerId);
    var target := FindParticipant(ps, id);
    && killer.Some? && target.Some?
    && killer.value.teamPosition != target.value.teamPosition
    && killer.value.teamPosition != ""
    && |death.assists| <= 1
  }

  /** `classifyDeathContext`: the first rule that applies decides. */
  function ClassifyDeathContext(death: Event, events: seq<Event>, ps: seq<Participant>, id: int): (r: DeathContext)
    requires death.ChampionKill?
    ensures |NearbyKills(death, events)| >= 3 ==> r == TeamfightDeath
    ensures r == DiveDeath <==> |NearbyKills(death, events)| < 3 && NearTower(death, GetTowerPositions(ps, id))
    ensures r == GankDeath <==> |NearbyKills(death, events)| < 3 && !NearTower(death, GetTowerPositions(ps, id)) && IsGank(death, ps, id)
    ensures r == SoloDeath ==> |death.assists| == 0 && !IsGank(death, ps, id)
    ensures r == TeamfightDeath && |NearbyKills(death, events)| < 3 ==> |death.assists| > 0
  {
    if |NearbyKills(death, events)| >= 3 then TeamfightDeath
    else if NearTower(death, GetTowerPositions(ps, id)) then DiveDeath
    else if IsGank(death, ps, id) then GankDeath
    else if |death.assists| == 0 then SoloDeath
    else TeamfightDeath
  }

  /** The death itself is one of its own nearby kills. */
  lemma DeathCountsItself(death: Event, events: seq<Event>)
    requires death.ChampionKill? && death in events
    ensures death in NearbyKills(death, events)
    ensures |NearbyKills(death, events)| >= 1
  {
    assert IsNearbyKill(death, death);
  }

  /** Three kills in the same instant with no position are a teamfight, whatever else holds. */
  lemma UnlocatedBurstIsTeamfight(a: Event, b: Event, c: Event, ps: seq<Participant>, id: int)
    requires a.ChampionKill? && b.ChampionKill? && c.ChampionKill?
    requires a.position.None? && a.timestamp == b.timestamp == c.timestamp
    ensures ClassifyDeathContext(a, [a, b, c], ps, id) == TeamfightDeath
  {
    var events := [a, b, c];
    assert IsNearbyKill(a, a) && IsNearbyKill(b, a) && IsNearbyKill(c, a);
    FilterAll(events, (e: Event) => IsNearbyKill(e, a));
  }

  // ---------------------------------------------------------------------------
  // Recalls
  // ---------------------------------------------------------------------------

  predicate IsCountedPurchase(e: Event, id: int) {
    e.ItemPurchased? && e.participantId == id && e.timestamp > 90000
  }

  /** The player's purchase times after the first 90 s (strictly), in event order. */
  function PurchaseTimes(events: seq<Event>, id: int): (r: seq<int>)
    ensures forall i :: 0 <= i < |r| ==> r[i] > 90000
  {
    Map(Filter(events, (e: Event) => IsCountedPurchase(e, id)), (e: Event) => e.timestamp)
  }

  lemma ClusterStartsOfOne(ts: seq<int>)
    requires |ts| > 0
    ensures ClusterStarts(ts[..1]) == [ts[0]]
  {
    assert ts[..1] == [ts[0]];
  }

  /** One more purchase either opens a new burst or joins the current one. */
  lemma ClusterStep(ts: seq<int>, i: nat)
    requires 1 <= i < |ts|
    ensures ts[i] - ts[i - 1] > 5000 ==> ClusterStarts(ts[..i + 1]) == ClusterStarts(ts[..i]) + [ts[i]]
    ensures ts[i] - ts[i - 1] <= 5000 ==> ClusterStarts(ts[..i + 1]) == ClusterStarts(ts[..i])
  {
    assert ts[..i + 1][..i] == ts[..i];
    assert ClusterStarts(ts[..i]) + [] == ClusterStarts(ts[..i]);
  }

  /** The first purchase of each burst: a burst ends when the gap from the previous purchase exceeds 5 s. */
  function ClusterStarts(ts: seq<int>): (r: seq<int>)
    ensures |r| <= |ts|
    ensures |ts| > 0 ==> |r| >= 1 && r[0] == ts[0]
  {
    if |ts| <= 1 then ts
    else ClusterStarts(ts[..|ts| - 1]) + (if ts[|ts| - 1] - ts[|ts| - 2] > 5000 then [ts[|ts| - 1]] else [])
  }

  /** Every recall time is a purchase time. */
  lemma {:induction false} ClusterStartsArePurchases(ts: seq<int>)
    ensures forall i :: 0 <= i < |ClusterStarts(ts)| ==> ClusterStarts(ts)[i] in ts
    decreases |ts|
  {
    if |ts| > 1 {
      var init := ts[..|ts| - 1];
      ClusterStartsArePurchases(init);
      var r := ClusterStarts(init);
      forall i | 0 <= i < |r| ensures r[i] in ts {
        var j :| 0 <= j < |init| && init[j] == r[i];
        assert ts[j] == r[i];
      }
    }
  }

  /** Every purchase that follows a gap of more than 5 s starts a recall of its own. */
  lemma {:induction false} GapStartsCluster(ts: seq<int>, i: nat)
    requires 1 <= i < |ts| && ts[i] - ts[i - 1] > 5000
    ensures ts[i] in ClusterStarts(ts)
    decreases |ts|
  {
    if i < |ts| - 1 {
      var init := ts[..|ts| - 1];
      GapStartsCluster(init, i);
    }
  }

  /** The worked example: 100000, 102000, 108000 are two recalls. */
  lemma ClusterStartsExample()
    ensures ClusterStarts([100000, 102000, 108000]) == [100000, 108000]
  {
    assert [100000, 102000, 108000][..2] == [100000, 102000];
    assert [100000, 102000][..1] == [100000];
  }

  /** `detectBackTimings`. */
  method DetectBackTimings(events: seq<Event>, id: int) returns (backs: seq<int>)
    ensures backs == ClusterStarts(PurchaseTimes(events, id))
  {
    backs := BurstStarts(PurchaseTimes(events, id));
  }

  /** The loop of `detectBackTimings` over the purchase times. */
  method BurstStarts(ts: seq<int>) returns (backs: seq<int>)
    ensures backs == ClusterStarts(ts)
  {
    if |ts| == 0 {
      return [];
    }
    backs := [];
    var clusterStart := ts[0];
    var lastTime := ts[0];
    var i := 1;
    ClusterStartsOfOne(ts);
    while i < |ts|
      invariant 1 <= i <= |ts|
      invariant lastTime == ts[i - 1]
      invariant backs + [clusterStart] == ClusterStarts(ts[..i])
    {
      ClusterStep(ts, i);
      if ts[i] - lastTime > 5000 {
        backs := backs + [clusterStart];
        clusterStart := ts[i];
      }
      lastTime := ts[i];
      i := i + 1;
    }
    backs := backs + [clusterStart];
    assert ts[..|ts|] == ts;
  }

  // ---------------------------------------------------------------------------
  // The report
  // ---------------------------------------------------------------------------

  datatype LocationType = Located(zone: Zone) | UnknownLocation

  function LocationName(l: LocationType): string {
    match l
    case Located(z) => ZoneName(z)
    case UnknownLocation => "UNKNOWN"
  }

  datatype DeathRecord = DeathRecord(
    timestamp: int,
    minuteMark: real,
    goldDiffBeforeDeath: int,
    killerId: int,
    assistingIds: seq<int>,
    location: Position,
    locationType: LocationType,
    deathContext: DeathContext)

  datatype MissedObjective = MissedObjective(objectiveType: string, timestamp: int, minuteMark: real)

  datatype ObjectiveParticipation = ObjectiveParticipation(
    totalObjectives: nat, participated: nat, participationRate: int, missedObjectives: seq<MissedObjective>)

  datatype GoldEfficiency = GoldEfficiency(
    goldAt10: int, goldAt15: int, goldDiffAt10: int, goldDiffAt15: int, csAt10: int, csAt15: int, backTimings: seq<int>)

  datatype VisionTimeline = VisionTimeline(wardsPlacedTotal: nat, wardsKilledTotal: nat, earlyWardsPlaced: nat, lateWardsPlaced: nat)

  datatype CombatProfile = CombatProfile(damageDealt: int, damageTaken: int, healingDone: int, killParticipation: int, soloKills: nat)

  datatype PlayerInfo = PlayerInfo(champion: string, role: string, win: bool, kills: nat, deaths: nat, assists: nat, rank: string)

  datatype TimelineReport = TimelineReport(
    playerInfo: PlayerInfo,
    gameDuration: int,
    deathAnalysis: seq<DeathRecord>,
    objectives: ObjectiveParticipation,
    gold: GoldEfficiency,
    vision: VisionTimeline,
    combat: CombatProfile)

  predicate IsDeathOf(e: Event, id: int) {
    e.ChampionKill? && e.victimId == id
  }

  function Deaths(events: seq<Event>, id: int): (r: seq<Event>)
    ensures forall i :: 0 <= i < |r| ==> r[i].ChampionKill? && r[i].victimId == id
  {
    Filter(events, (e: Event) => IsDeathOf(e, id))
  }

  /** `if (laneOpponentId)`: a participantId of 0 would read as no opponent. */
  predicate HasOpponent(opp: Option<int>) {
    opp.Some? && opp.value != 0
  }

  function GoldDiffAt(frames: seq<Frame>, id: int, opp: Option<int>, t: int): (r: int)
    ensures !HasOpponent(opp) ==> r == 0
  {
    if HasOpponent(opp) then GoldAtTime(frames, id, t) - GoldAtTime(frames, opp.value, t) else 0
  }

  function AnalyzeDeath(death: Event, frames: seq<Frame>, events: seq<Event>, ps: seq<Participant>,
                        id: int, teamId: int, opp: Option<int>): (r: DeathRecord)
    requires death.ChampionKill?
    ensures r.timestamp == death.timestamp && r.killerId == death.killerId && r.assistingIds == death.assists
    ensures r.minuteMark * 60000.0 == death.timestamp as real
    ensures r.locationType == UnknownLocation <==> death.position.None?
    ensures death.position.Some? ==>
      r.location == death.position.value
      && r.locationType == Located(ClassifyLocation(death.position.value.x, death.position.value.y, teamId))
    ensures death.position.None? ==> r.location == Position(0, 0)
    ensures r.goldDiffBeforeDeath == GoldDiffAt(frames, id, opp, death.timestamp - 60000)
    ensures !HasOpponent(opp) ==> r.goldDiffBeforeDeath == 0
    ensures r.deathContext == ClassifyDeathContext(death, events, ps, id)
  {
    DeathRecord(
      death.timestamp,
      death.timestamp as real / 60000.0,
      GoldDiffAt(frames, id, opp, death.timestamp - 60000),
      death.killerId,
      death.assists,
      death.position.GetOr(Position(0, 0)),
      if death.position.Some? then Located(ClassifyLocation(death.position.value.x, death.position.value.y, teamId))
      else UnknownLocation,
      ClassifyDeathContext(death, events, ps, id))
  }

  function AnalyzeDeaths(deaths: seq<Event>, frames: seq<Frame>, events: seq<Event>, ps: seq<Participant>,
                         id: int, teamId: int, opp: Option<int>): (r: seq<DeathRecord>)
    requires forall i :: 0 <= i < |deaths| ==> deaths[i].ChampionKill?
    ensures |r| == |deaths|
    ensures forall i :: 0 <= i < |deaths| ==> r[i] == AnalyzeDeath(deaths[i], frames, events, ps, id, teamId, opp)
  {
    seq(|deaths|, i requires 0 <= i < |deaths| => AnalyzeDeath(deaths[i], frames, events, ps, id, teamId, opp))
  }

  predicate IsTeamObjective(e: Event, teamId: int) {
    (e.EliteMonsterKill? || e.BuildingKill?) && e.killerTeamId == teamId
  }

  /** Killed it, or assisted. */
  predicate TookPart(e: Event, id: int)
    requires e.EliteMonsterKill? || e.BuildingKill?
  {
    e.killerId == id || id in e.assists
  }

  predicate IsMissedMonster(e: Event, id: int) {
    e.EliteMonsterKill? && !TookPart(e, id)
  }

  /** An objective kill the player made or assisted. */
  predicate Took(e: Event, id: int) {
    (e.EliteMonsterKill? || e.BuildingKill?) && TookPart(e, id)
  }

  /** The missed-objective entry of an elite monster kill: its type ('UNKNOWN' when empty), time and minute. */
  function ToMissed(e: Event): (r: MissedObjective)
    ensures e.EliteMonsterKill? ==> r.timestamp == e.timestamp && r.minuteMark * 60000.0 == e.timestamp as real
    ensures e.EliteMonsterKill? ==> r.objectiveType == if e.monsterType != "" then e.monsterType else "UNKNOWN"
  {
    if e.EliteMonsterKill? then
      MissedObjective(if e.monsterType != "" then e.monsterType else "UNKNOWN", e.timestamp, e.timestamp as real / 60000.0)
    else MissedObjective("", 0, 0.0)
  }

  /**
   * The objective summary: the team's monster and building kills, those the player took part in,
   * the rate as a rounded percentage (100 without objectives), and the monster kills missed.
   */
  function Objectives(events: seq<Event>, id: int, teamId: int): (r: ObjectiveParticipation)
    ensures var team := Filter(events, (e: Event) => IsTeamObjective(e, teamId));
      && r.totalObjectives == |team|
      && r.participated == |Filter(team, (e: Event) => Took(e, id))|
      && r.participationRate == (if |team| == 0 then 100 else Percent(r.participated, |team|))
      && r.missedObjectives == Map(Filter(team, (e: Event) => IsMissedMonster(e, id)), ToMissed)
    ensures r.participated <= r.totalObjectives
    ensures |r.missedObjectives| + r.participated <= r.totalObjectives
    ensures 0 <= r.participationRate <= 100
  {
    var team := Filter(events, (e: Event) => IsTeamObjective(e, teamId));
    var took := (e: Event) => Took(e, id);
    var notTook := (e: Event) => !took(e);
    var participated := Filter(team, took);
    var missedEvents := Filter(team, (e: Event) => IsMissedMonster(e, id));
    FilterComplement(team, took, notTook);
    FilterMonotone(team, (e: Event) => IsMissedMonster(e, id), notTook);
    var missed := Map(missedEvents, ToMissed);
    var total := |team|;
    ObjectiveParticipation(total, |participated|, if total > 0 then Percent(|participated|, total) else 100, missed)
  }

  predicate PlacedBy(e: Event, id: int) { e.WardPlaced? && e.creatorId == id }

  predicate WardKilledBy(e: Event, id: int) { e.WardKill? && e.killerId == id }

  /**
   * The vision summary: the wards the player placed, split at 15 minutes, and the wards they
   * destroyed.
   */
  function Vision(events: seq<Event>, id: int): (r: VisionTimeline)
    ensures var wards := Filter(events, (e: Event) => PlacedBy(e, id));
      && r.wardsPlacedTotal == |wards|
      && r.earlyWardsPlaced == |Filter(wards, (e: Event) => e.timestamp < 900000)|
      && r.lateWardsPlaced == |Filter(wards, (e: Event) => e.timestamp >= 900000)|
      && r.wardsKilledTotal == |Filter(events, (e: Event) => WardKilledBy(e, id))|
    ensures r.earlyWardsPlaced + r.lateWardsPlaced == r.wardsPlacedTotal
  {
    var wards := Filter(events, (e: Event) => PlacedBy(e, id));
    var kills := Filter(events, (e: Event) => WardKilledBy(e, id));
    var early := (e: Event) => e.timestamp < 900000;
    var late := (e: Event) => e.timestamp >= 900000;
    FilterComplement(wards, early, late);
    VisionTimeline(|wards|, |kills|, |Filter(wards, early)|, |Filter(wards, late)|)
  }

  /** `teamKills > 0 ? Math.round(kills and assists / teamKills * 100) : 0`. */
  function KillShare(takedowns: int, teamKills: nat): (r: int)
    ensures teamKills == 0 ==> r == 0
    ensures teamKills > 0 ==> r == Percent(takedowns, teamKills)
    ensures 0 <= takedowns <= teamKills ==> 0 <= r <= 100
  {
    if teamKills > 0 then Percent(takedowns, teamKills) else 0
  }

  /** Kills whose killer is on the player's team. */
  function TeamKills(events: seq<Event>, ps: seq<Participant>, teamId: int): nat {
    |Filter(events, (e: Event) =>
      e.ChampionKill? && var k := FindParticipant(ps, e.killerId); k.Some? && k.value.teamId == teamId)|
  }

  function SoloKills(events: seq<Event>, id: int): nat {
    |Filter(events, (e: Event) => e.ChampionKill? && e.killerId == id && |e.assists| == 0)|
  }

  /** The `playerInfo` block: the participant's own figures, 'UNKNOWN' for an empty position, no rank yet. */
  function PlayerInfoOf(p: Participant): (r: PlayerInfo)
    ensures r.champion == p.championName && r.win == p.win && r.rank == ""
    ensures r.kills == p.kills && r.deaths == p.deaths && r.assists == p.assists
    ensures r.role == (if p.teamPosition != "" then p.teamPosition else "UNKNOWN")
  {
    PlayerInfo(p.championName, if p.teamPosition != "" then p.teamPosition else "UNKNOWN",
               p.win, p.kills, p.deaths, p.assists, "")
  }

  /**
   * The `goldEfficiency` block: gold and CS at 10 and 15 minutes, the differences to the lane
   * opponent at the same times (0 without one), and the recall times.
   */
  function GoldEfficiencyOf(frames: seq<Frame>, events: seq<Event>, id: int, opp: Option<int>): (r: GoldEfficiency)
    ensures r.goldAt10 == GoldAtTime(frames, id, 600000) && r.goldAt15 == GoldAtTime(frames, id, 900000)
    ensures r.csAt10 == CsAtTime(frames, id, 600000) && r.csAt15 == CsAtTime(frames, id, 900000)
    ensures HasOpponent(opp) ==>
      && r.goldDiffAt10 == r.goldAt10 - GoldAtTime(frames, opp.value, 600000)
      && r.goldDiffAt15 == r.goldAt15 - GoldAtTime(frames, opp.value, 900000)
    ensures !HasOpponent(opp) ==> r.goldDiffAt10 == 0 && r.goldDiffAt15 == 0
    ensures r.backTimings == ClusterStarts(PurchaseTimes(events, id))
  {
    GoldEfficiency(
      GoldAtTime(frames, id, 600000), GoldAtTime(frames, id, 900000),
      GoldDiffAt(frames, id, opp, 600000), GoldDiffAt(frames, id, opp, 900000),
      CsAtTime(frames, id, 600000), CsAtTime(frames, id, 900000),
      ClusterStarts(PurchaseTimes(events, id)))
  }

  /**
   * The `combatProfile` block: the participant's damage and healing, the kill participation
   * against the kills of the player's team, and the kills the player made without assists.
   */
  function CombatOf(events: seq<Event>, ps: seq<Participant>, p: Participant, id: int): (r: CombatProfile)
    ensures r.damageDealt == p.totalDamageDealtToChampions && r.damageTaken == p.totalDamageTaken
    ensures r.healingDone == p.totalHeal
    ensures r.killParticipation == KillShare(p.kills + p.assists, TeamKills(events, ps, p.teamId))
    ensures r.soloKills == |Filter(events, (e: Event) => e.ChampionKill? && e.killerId == id && |e.assists| == 0)|
  {
    CombatProfile(
      p.totalDamageDealtToChampions, p.totalDamageTaken, p.totalHeal,
      KillShare(p.kills + p.assists, TeamKills(events, ps, p.teamId)),
      SoloKills(events, id))
  }

  /**
   * `parseMatchTimeline`. `frames` is `timeline.info.frames || []`; the rank is left empty for
   * the caller to fill in.
   */
  function ParseMatchTimeline(frames: seq<Frame>, info: MatchInfo, id: int): (r: Result<TimelineReport>)
    ensures r.Err? <==> FindParticipant(info.participants, id).None?
    ensures r.Ok? ==>
      var rep := r.value;
      var events := AllEvents(frames);
      var deaths := Deaths(events, id);
      var p := FindParticipant(info.participants, id).value;
      var opp := FindLaneOpponent(info.participants, id);
      && rep.playerInfo == PlayerInfoOf(p)
      && rep.gameDuration == info.gameDuration
      && rep.deathAnalysis == AnalyzeDeaths(deaths, frames, events, info.participants, id, p.teamId, opp)
      && rep.objectives == Objectives(events, id, p.teamId)
      && rep.gold == GoldEfficiencyOf(frames, events, id, opp)
      && rep.vision == Vision(events, id)
      && rep.combat == CombatOf(events, info.participants, p, id)
    ensures r.Ok? ==>
      var deaths := Deaths(AllEvents(frames), id);
      var opp := FindLaneOpponent(info.participants, id);
      && |r.value.deathAnalysis| == |deaths|
      && (forall i :: 0 <= i < |deaths| ==>
            && r.value.deathAnalysis[i].timestamp == deaths[i].timestamp
            && (r.value.deathAnalysis[i].locationType == UnknownLocation <==> deaths[i].position.None?)
            && (!HasOpponent(opp) ==> r.value.deathAnalysis[i].goldDiffBeforeDeath == 0))
  {
    match FindParticipant(info.participants, id)
    case None => Err("participantId " + IntToString(id) + " not found")
    case Some(p) =>
      var ps := info.participants;
      var opp := FindLaneOpponent(ps, id);
      var events := AllEvents(frames);
      Ok(TimelineReport(
        PlayerInfoOf(p),
        info.gameDuration,
        AnalyzeDeaths(Deaths(events, id), frames, events, ps, id, p.teamId, opp),
        Objectives(events, id, p.teamId),
        GoldEfficiencyOf(frames, events, id, opp),
        Vision(events, id),
        CombatOf(events, ps, p, id)))
  }
}
