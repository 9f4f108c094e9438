/**
 * The helpers of the analysis-report renderer: the KDA ratio cell, the coloured gold-difference
 * span, the rows of the death table, and the renderer's own label tables (which differ from the
 * coaching ones in two zone labels and in the role table).
 */
module ReportRenderer {
  import opened Wrappers
  import opened Text
  import opened Numbers
  import opened OrderedDict
  import opened TimelineParser
  import CoachAnalyzer

  // ---------------------------------------------------------------------------
  // KDA ratio
  // ---------------------------------------------------------------------------

  /** The KDA ratio of the report header: 'Perfect' without deaths, else (kills + assists) / deaths. */
  function KdaRatio(p: PlayerInfo): (r: KdaFigure)
    ensures r == Perfect <==> p.deaths == 0
    ensures r.Ratio? ==> r.value * p.deaths as real == (p.kills + p.assists) as real
  {
    KdaFigureOf(p.kills as real, p.deaths as real, p.assists as real)
  }

  // ---------------------------------------------------------------------------
  // Gold difference
  // ---------------------------------------------------------------------------

  /** The CSS class of a gold difference: one per sign. */
  function GoldClass(diff: int): (c: string)
    ensures c == "gold-positive" <==> diff > 0
    ensures c == "gold-negative" <==> diff < 0
    ensures c == "gold-neutral" <==> diff == 0
  {
    if diff > 0 then "gold-positive" else if diff < 0 then "gold-negative" else "gold-neutral"
  }

  /** The number shown in the span: an explicit '+' when positive, JavaScript's '-' when negative. */
  function GoldText(diff: int): (t: string)
    ensures |t| >= 1
    ensures t[0] == '+' <==> diff > 0
    ensures t[0] == '-' <==> diff < 0
    ensures diff == 0 ==> t == "0"
  {
    if diff > 0 then "+" + IntToString(diff) else if diff < 0 then IntToString(diff) else "0"
  }

  /** `formatGoldDiff`: a span whose class names the sign and whose text reads back as the difference. */
  function FormatGoldDiff(diff: int): (r: string)
    ensures r == "<span class=\"" + GoldClass(diff) + "\">" + GoldText(diff) + "</span>"
    ensures ReadSigned(GoldText(diff)) == diff
  {
    GoldTextReadBack(diff);
    "<span class=\"" + GoldClass(diff) + "\">" + GoldText(diff) + "</span>"
  }

  /** Reads a number with an optional '+' or '-' sign. */
  function ReadSigned(t: string): int {
    if |t| > 0 && t[0] == '+' then BaseToNat(t[1..], 10)
    else if |t| > 0 && t[0] == '-' then 0 - BaseToNat(t[1..], 10)
    else BaseToNat(t, 10)
  }

  lemma SignedDigitsReadBack(sign: char, n: nat)
    requires sign == '+' || sign == '-'
    ensures ReadSigned([sign] + NatToBase(n, 10)) == if sign == '-' then 0 - n else n
  {
    var digits := NatToBase(n, 10);
    var t := [sign] + digits;
    assert t[0] == sign && t[1..] == digits;
    BaseRoundTrip(n, 10);
  }

  lemma ZeroReadBack()
    ensures ReadSigned("0") == 0
  {
    assert "0"[..0] == [];
    assert BaseToNat("0", 10) == BaseToNat("", 10) * 10 + DigitValue('0');
  }

  lemma PositiveReadBack(diff: int)
    requires diff > 0
    ensures ReadSigned(GoldText(diff)) == diff
  {
    assert GoldText(diff) == ['+'] + NatToBase(diff, 10);
    SignedDigitsReadBack('+', diff);
  }

  lemma NegativeReadBack(diff: int)
    requires diff < 0
    ensures ReadSigned(GoldText(diff)) == diff
  {
    var n: nat := -diff;
    assert IntToString(diff) == "-" + NatToBase(n, 10);
    assert GoldText(diff) == IntToString(diff);
    SignedDigitsReadBack('-', n);
  }

  /** The span shows the difference itself: reading its text back gives the number. */
  lemma GoldTextReadBack(diff: int)
    ensures ReadSigned(GoldText(diff)) == diff
  {
    if diff > 0 {
      PositiveReadBack(diff);
    } else if diff < 0 {
      NegativeReadBack(diff);
    } else {
      ZeroReadBack();
    }
  }

  // ---------------------------------------------------------------------------
  // Label tables
  // ---------------------------------------------------------------------------

  const ReportLocationLabels: Dict<string> := [
    Entry("LANE_SAFE", "라인 (안전)"),
    Entry("LANE_OVEREXTENDED", "과확장"),
    Entry("RIVER", "리버"),
    Entry("ENEMY_JUNGLE", "적 정글"),
    Entry("OWN_JUNGLE", "아군 정글"),
    Entry("ENEMY_BASE", "적 베이스"),
    Entry("UNKNOWN", "-")
  ]

  const ReportDeathContextLabels: Dict<string> := [
    Entry("SOLO_DEATH", "솔로 데스"),
    Entry("TEAMFIGHT_DEATH", "팀파이트"),
    Entry("GANK_DEATH", "갱킹"),
    Entry("DIVE_DEATH", "다이브")
  ]

  const ReportRoleLabels: Dict<string> := [
    Entry("TOP", "탑"),
    Entry("JUNGLE", "정글"),
    Entry("MIDDLE", "미드"),
    Entry("BOTTOM", "원딜"),
    Entry("UTILITY", "서포터"),
    Entry("UNKNOWN", "")
  ]

  /** A zone code shows its table label; a code missing from the table is shown raw. */
  function TranslateLocationType(t: string): (r: string)
    ensures t in Keys(ReportLocationLabels) ==> Get(ReportLocationLabels, t) == Some(r) && r != ""
    ensures t !in Keys(ReportLocationLabels) ==> r == t
  {
    Translate(ReportLocationLabels, t)
  }

  /** A death-context code shows its table label; a code missing from the table is shown raw. */
  function TranslateDeathContext(c: string): (r: string)
    ensures c in Keys(ReportDeathContextLabels) ==> Get(ReportDeathContextLabels, c) == Some(r) && r != ""
    ensures c !in Keys(ReportDeathContextLabels) ==> r == c
  {
    Translate(ReportDeathContextLabels, c)
  }

  /** The role translator as written: `map[role] || role`, under which the empty label of UNKNOWN is falsy. */
  function TranslateRoleAsWritten(role: string): (r: string)
    ensures role in Keys(ReportRoleLabels) && role != "UNKNOWN" ==> Get(ReportRoleLabels, role) == Some(r) && r != ""
    ensures role == "UNKNOWN" || role !in Keys(ReportRoleLabels) ==> r == role
  {
    Translate(ReportRoleLabels, role)
  }

  /** The role translator as its table means it: a listed role shows its label, even an empty one. */
  function TranslateRole(role: string): (r: string)
    ensures role in Keys(ReportRoleLabels) ==> Get(ReportRoleLabels, role) == Some(r)
    ensures role !in Keys(ReportRoleLabels) ==> r == role
  {
    match Get(ReportRoleLabels, role)
    case Some(shown) => shown
    case None => role
  }

  /** Under the code as written, UNKNOWN comes out as the raw code instead of an empty cell. */
  lemma UnknownRoleShownRaw()
    ensures TranslateRoleAsWritten("UNKNOWN") == "UNKNOWN"
    ensures TranslateRole("UNKNOWN") == ""
  {
    assert Get(ReportRoleLabels, "UNKNOWN") == Some("");
  }

  /** The two role translators agree on every role but UNKNOWN. */
  lemma RoleTranslatorsAgree(role: string)
    ensures role != "UNKNOWN" ==> TranslateRoleAsWritten(role) == TranslateRole(role)
  {
    if role != "UNKNOWN" && role in Keys(ReportRoleLabels) {
      ReportRoleTable();
      var i :| 0 <= i < |ReportRoleLabels| && ReportRoleLabels[i].key == role;
      assert Get(ReportRoleLabels, role) == Some(ReportRoleLabels[i].value);
      assert ReportRoleLabels[i].value != "";
    }
  }

  /** The report's tables list the same zone codes in the same order as the coaching ones. */
  lemma SameZoneCodes()
    ensures Valid(ReportLocationLabels) && Valid(ReportDeathContextLabels) && Valid(ReportRoleLabels)
    ensures Keys(ReportLocationLabels) == Keys(CoachAnalyzer.LocationLabels)
    ensures Keys(ReportDeathContextLabels) == Keys(CoachAnalyzer.DeathContextLabels)
    ensures forall i :: 0 <= i < |ReportLocationLabels| ==> ReportLocationLabels[i].value != ""
    ensures forall i :: 0 <= i < |ReportDeathContextLabels| ==> ReportDeathContextLabels[i].value != ""
  {
    ReportLocationTable();
    ReportDeathContextTable();
    ReportRoleTable();
  }

  lemma ReportLocationTable()
    ensures Valid(ReportLocationLabels)
    ensures |ReportLocationLabels| == |CoachAnalyzer.LocationLabels|
    ensures forall i :: 0 <= i < |ReportLocationLabels| ==> ReportLocationLabels[i].key == CoachAnalyzer.LocationLabels[i].key
    ensures forall i :: 0 <= i < |ReportLocationLabels| ==>
              ReportLocationLabels[i].value != "" && ReportLocationLabels[i].value != ReportLocationLabels[i].key
  {
  }

  lemma ReportDeathContextTable()
    ensures Valid(ReportDeathContextLabels)
    ensures |ReportDeathContextLabels| == |CoachAnalyzer.DeathContextLabels|
    ensures forall i :: 0 <= i < |ReportDeathContextLabels| ==>
              ReportDeathContextLabels[i].key == CoachAnalyzer.DeathContextLabels[i].key
    ensures forall i :: 0 <= i < |ReportDeathContextLabels| ==>
              ReportDeathContextLabels[i].value != "" && ReportDeathContextLabels[i].value != ReportDeathContextLabels[i].key
  {
  }

  lemma ReportRoleTable()
    ensures Valid(ReportRoleLabels)
    ensures forall i :: 0 <= i < |ReportRoleLabels| ==> (ReportRoleLabels[i].value == "" <==> ReportRoleLabels[i].key == "UNKNOWN")
  {
  }

  /** Every zone (and UNKNOWN) and every death context gets a label that is not its raw code. */
  lemma EveryCodeLabelled(l: LocationType, c: DeathContext)
    ensures TranslateLocationType(LocationName(l)) == ReportLocationLabels[CoachAnalyzer.LocationRow(l)].value
    ensures TranslateLocationType(LocationName(l)) != LocationName(l)
    ensures TranslateDeathContext(DeathContextName(c)) == ReportDeathContextLabels[CoachAnalyzer.DeathContextRow(c)].value
    ensures TranslateDeathContext(DeathContextName(c)) != DeathContextName(c)
  {
    ReportLocationTable();
    ReportDeathContextTable();
    TranslateAt(ReportLocationLabels, CoachAnalyzer.LocationRow(l));
    TranslateAt(ReportDeathContextLabels, CoachAnalyzer.DeathContextRow(c));
  }

  /** Row by row, the two zone tables carry the same label except in rows 1 (LANE_OVEREXTENDED) and 6 (UNKNOWN). */
  lemma ZoneRowsAgree(i: nat)
    requires i < |ReportLocationLabels|
    ensures i < |CoachAnalyzer.LocationLabels|
    ensures ReportLocationLabels[i].value == CoachAnalyzer.LocationLabels[i].value <==> i != 1 && i != 6
  {
  }

  /** The report and the coaching text label a zone alike, except an overextended lane and UNKNOWN. */
  lemma ZoneLabelsDiffer(l: LocationType)
    ensures TranslateLocationType(LocationName(l)) == CoachAnalyzer.TranslateLocationType(LocationName(l))
        <==> l != Located(LaneOverextended) && l != UnknownLocation
  {
    EveryCodeLabelled(l, SoloDeath);
    CoachAnalyzer.EveryLocationLabelled(l);
    var i := CoachAnalyzer.LocationRow(l);
    ZoneRowsAgree(i);
  }

  /** A code no table lists is shown as it is. */
  lemma UnknownCodesShownRaw(k: string)
    ensures k !in Keys(ReportLocationLabels) ==> TranslateLocationType(k) == k
    ensures k !in Keys(ReportDeathContextLabels) ==> TranslateDeathContext(k) == k
    ensures k !in Keys(ReportRoleLabels) ==> TranslateRoleAsWritten(k) == k && TranslateRole(k) == k
  {
  }

  // ---------------------------------------------------------------------------
  // Death table
  // ---------------------------------------------------------------------------

  /** A row of the death table: the placeholder of a deathless game, or one death's four cells. */
  datatype TableRow =
    | PlaceholderRow
    | DeathRow(minuteMark: real, location: string, goldDiff: string, context: string)

  function RowOf(d: DeathRecord): TableRow {
    DeathRow(d.minuteMark, TranslateLocationType(LocationName(d.locationType)),
             FormatGoldDiff(d.goldDiffBeforeDeath), TranslateDeathContext(DeathContextName(d.deathContext)))
  }

  /** `renderDeathTableRows`, row by row. */
  function DeathTableRows(deaths: seq<DeathRecord>): (r: seq<TableRow>)
    ensures |deaths| == 0 ==> r == [PlaceholderRow]
    ensures |deaths| > 0 ==> |r| == |deaths|
    ensures |deaths| > 0 ==> forall i :: 0 <= i < |deaths| ==> r[i] == RowOf(deaths[i])
  {
    if |deaths| == 0 then [PlaceholderRow]
    else seq(|deaths|, i requires 0 <= i < |deaths| => RowOf(deaths[i]))
  }

  /** Each death has its own row, in order, showing its minute, labels and gold difference read back. */
  lemma DeathRowsFaithful(deaths: seq<DeathRecord>, i: nat)
    requires i < |deaths|
    ensures PlaceholderRow !in DeathTableRows(deaths)
    ensures DeathTableRows(deaths)[i].minuteMark == deaths[i].minuteMark
    ensures DeathTableRows(deaths)[i].location != LocationName(deaths[i].locationType)
    ensures DeathTableRows(deaths)[i].context != DeathContextName(deaths[i].deathContext)
    ensures DeathTableRows(deaths)[i].goldDiff
         == "<span class=\"" + GoldClass(deaths[i].goldDiffBeforeDeath) + "\">" + GoldText(deaths[i].goldDiffBeforeDeath) + "</span>"
    ensures ReadSigned(GoldText(deaths[i].goldDiffBeforeDeath)) == deaths[i].goldDiffBeforeDeath
  {
    var r := DeathTableRows(deaths);
    assert forall j :: 0 <= j < |r| ==> r[j].DeathRow?;
    EveryCodeLabelled(deaths[i].locationType, deaths[i].deathContext);
    GoldTextReadBack(deaths[i].goldDiffBeforeDeath);
  }
}
