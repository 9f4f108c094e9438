/**
 * The display labels of the coaching analysis: the timeline parser's codes for zones, death
 * contexts, roles and monsters, translated to Korean through lookup tables, with any code a
 * table does not know passed through unchanged. The coaching text itself becomes embed fields
 * through the shared section parser in its Markdown style.
 */
module CoachAnalyzer {
  import opened Wrappers
  import opened OrderedDict
  import opened TimelineParser
  import opened SectionFields

  /** `parseCoachingToFields`: the section parser with `## Title` headers. */
  method ParseCoachingToFields(text: string) returns (fields: seq<Field>)
    ensures fields == Fields(SectionsOf(Markdown, text))
    ensures forall i :: 0 <= i < |fields| ==> 0 < |fields[i].value| <= FieldLimit
  {
    fields := ParseToFields(Markdown, text);
  }

  const LocationLabels: Dict<string> := [
    Entry("LANE_SAFE", "라인 (안전)"),
    Entry("LANE_OVEREXTENDED", "라인 (과확장)"),
    Entry("RIVER", "리버"),
    Entry("ENEMY_JUNGLE", "적 정글"),
    Entry("OWN_JUNGLE", "아군 정글"),
    Entry("ENEMY_BASE", "적 베이스"),
    Entry("UNKNOWN", "알 수 없음")
  ]

  const DeathContextLabels: Dict<string> := [
    Entry("SOLO_DEATH", "솔로 데스"),
    Entry("TEAMFIGHT_DEATH", "팀파이트"),
    Entry("GANK_DEATH", "갱킹"),
    Entry("DIVE_DEATH", "다이브")
  ]

  const RoleLabels: Dict<string> := [
    Entry("TOP", "탑"),
    Entry("JUNGLE", "정글"),
    Entry("MIDDLE", "미드"),
    Entry("BOTTOM", "원딜"),
    Entry("UTILITY", "서포터"),
    Entry("UNKNOWN", "알 수 없음"),
    Entry("", "알 수 없음")
  ]

  const MonsterLabels: Dict<string> := [
    Entry("DRAGON", "드래곤"),
    Entry("RIFTHERALD", "전령"),
    Entry("BARON_NASHOR", "바론"),
    Entry("ELDER_DRAGON", "장로 드래곤"),
    Entry("HORDE", "공허충")
  ]

  function TranslateLocationType(t: string): string {
    Translate(LocationLabels, t)
  }

  function TranslateDeathContext(c: string): string {
    Translate(DeathContextLabels, c)
  }

  function TranslateRole(role: string): string {
    Translate(RoleLabels, role)
  }

  function TranslateMonsterType(t: string): string {
    Translate(MonsterLabels, t)
  }

  /** Every table has each code once, and every label is non-empty, so a known code never passes through. */
  lemma TablesWellFormed()
    ensures Valid(LocationLabels) && Valid(DeathContextLabels) && Valid(RoleLabels) && Valid(MonsterLabels)
    ensures forall i :: 0 <= i < |LocationLabels| ==> LocationLabels[i].value != ""
    ensures forall i :: 0 <= i < |DeathContextLabels| ==> DeathContextLabels[i].value != ""
    ensures forall i :: 0 <= i < |RoleLabels| ==> RoleLabels[i].value != ""
  {
    LocationTable();
    DeathContextTable();
    RoleTableValid();
    MonsterTableValid();
  }

  /** The zone table: distinct codes, each with a label that is neither empty nor the code. */
  lemma LocationTable()
    ensures Valid(LocationLabels)
    ensures forall i :: 0 <= i < |LocationLabels| ==> LocationLabels[i].value != "" && LocationLabels[i].value != LocationLabels[i].key
  {
  }

  /** The death-context table: distinct codes, each with a label that is neither empty nor the code. */
  lemma DeathContextTable()
    ensures Valid(DeathContextLabels)
    ensures forall i :: 0 <= i < |DeathContextLabels| ==>
              DeathContextLabels[i].value != "" && DeathContextLabels[i].value != DeathContextLabels[i].key
  {
  }

  lemma RoleTableValid()
    ensures Valid(RoleLabels) && forall i :: 0 <= i < |RoleLabels| ==> RoleLabels[i].value != ""
  {
  }

  lemma MonsterTableValid()
    ensures Valid(MonsterLabels)
  {
  }

  /** A code no table knows comes back unchanged. */
  lemma UnknownCodesPassThrough(k: string)
    ensures k !in Keys(LocationLabels) ==> TranslateLocationType(k) == k
    ensures k !in Keys(DeathContextLabels) ==> TranslateDeathContext(k) == k
    ensures k !in Keys(RoleLabels) ==> TranslateRole(k) == k
    ensures k !in Keys(MonsterLabels) ==> TranslateMonsterType(k) == k
  {
  }

  /** Where a zone's label sits in the table. */
  function LocationRow(l: LocationType): (i: nat)
    ensures i < |LocationLabels| && LocationLabels[i].key == LocationName(l)
    ensures i == 1 <==> l == Located(LaneOverextended)
    ensures i == 6 <==> l == UnknownLocation
  {
    match l
    case UnknownLocation => 6
    case Located(z) =>
      match z
      case LaneSafe => 0
      case LaneOverextended => 1
      case River => 2
      case EnemyJungle => 3
      case OwnJungle => 4
      case EnemyBase => 5
  }

  /** Where a death context's label sits in the table. */
  function DeathContextRow(c: DeathContext): (i: nat)
    ensures i < |DeathContextLabels| && DeathContextLabels[i].key == DeathContextName(c)
  {
    match c
    case SoloDeath => 0
    case TeamfightDeath => 1
    case GankDeath => 2
    case DiveDeath => 3
  }

  /** Each of the six zones the timeline parser produces, and UNKNOWN, has a Korean label. */
  lemma EveryLocationLabelled(l: LocationType)
    ensures TranslateLocationType(LocationName(l)) == LocationLabels[LocationRow(l)].value
    ensures TranslateLocationType(LocationName(l)) != LocationName(l)
  {
    LocationTable();
    TranslateAt(LocationLabels, LocationRow(l));
  }

  /** Each death context the timeline parser produces has a Korean label. */
  lemma EveryDeathContextLabelled(c: DeathContext)
    ensures TranslateDeathContext(DeathContextName(c)) == DeathContextLabels[DeathContextRow(c)].value
    ensures TranslateDeathContext(DeathContextName(c)) != DeathContextName(c)
  {
    DeathContextTable();
    TranslateAt(DeathContextLabels, DeathContextRow(c));
  }

  /** A missing role (the empty string) is shown as unknown, not as an empty cell. */
  lemma EmptyRoleLabelled()
    ensures TranslateRole("") == "알 수 없음"
    ensures TranslateRole("UNKNOWN") == "알 수 없음"
  {
  }
}
