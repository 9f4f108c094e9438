/**
 * The parts of Riot's Match-v5 "match detail" and "timeline" records that the analysis engine
 * reads. A field the code defaults with `|| 0` or `|| []` is a plain value here, holding the
 * default when Riot omits it; a field whose absence the code tests for is an Option.
 */
module RiotData {
  import opened Wrappers

  /** A map point in game units; Summoner's Rift is about 15000 x 15000. */
  datatype Position = Position(x: int, y: int)

  function DistSq(a: Position, b: Position): nat {
    (a.x - b.x) * (a.x - b.x) + (a.y - b.y) * (a.y - b.y)
  }

  /** One timeline event, by its `type`. `assists` is `assistingParticipantIds || []`. */
  datatype Event =
    | ChampionKill(timestamp: int, killerId: int, victimId: int, assists: seq<int>, position: Option<Position>)
    | EliteMonsterKill(timestamp: int, killerId: int, killerTeamId: int, assists: seq<int>, monsterType: string)
    | BuildingKill(timestamp: int, killerId: int, killerTeamId: int, assists: seq<int>, buildingType: string)
    | WardPlaced(timestamp: int, creatorId: int)
    | WardKill(timestamp: int, killerId: int)
    | ItemPurchased(timestamp: int, participantId: int)
    | OtherEvent(timestamp: int)

  /** A participant's snapshot in one frame; absent minion counts read as 0. */
  datatype ParticipantFrame = ParticipantFrame(totalGold: int, minionsKilled: Option<int>, jungleMinionsKilled: Option<int>)

  /** One minute of the timeline: `participantFrames` is keyed by participantId. */
  datatype Frame = Frame(timestamp: int, participantFrames: Option<map<int, ParticipantFrame>>, events: seq<Event>)

  datatype Participant = Participant(
    puuid: string,
    participantId: int,
    teamId: int,
    teamPosition: string,
    championName: string,
    win: bool,
    kills: nat,
    deaths: nat,
    assists: nat,
    totalDamageDealtToChampions: int,
    totalDamageTaken: int,
    totalHeal: int,
    visionScore: int,
    totalMinionsKilled: int,
    neutralMinionsKilled: int)

  /** `matchDetail.info`; `gameDuration` is in seconds. */
  datatype MatchInfo = MatchInfo(gameDuration: int, gameMode: string, queueId: int, participants: seq<Participant>)

  /** `frames.flatMap(f => f.events)`: every event of the match in timeline order. */
  function AllEvents(frames: seq<Frame>): (r: seq<Event>)
    ensures forall f, e :: f in frames && e in f.events ==> e in r
  {
    if |frames| == 0 then []
    else frames[0].events + AllEvents(frames[1..])
  }
}
