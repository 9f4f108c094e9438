/**
 * The rank line of the Riot service, `<tier> <division> <LP>LP (<win rate>% / <games>판)` for a
 * solo-queue entry and '언랭크' otherwise, and the 'Perfect' KDA rule of the recent-match list.
 * The profiler reads the tier back out of this line, which links it to `PlaystyleProfiler.ExtractTier`.
 */
module RiotService {
  import opened Wrappers
  import opened Text
  import opened Numbers
  import opened OrderedDict
  import PlaystyleProfiler

  /** A league entry of the summoner; `None` stands for a missing count. */
  datatype RankEntry = RankEntry(
    queueType: string,
    tier: string,
    rank: string,
    leaguePoints: nat,
    wins: Option<nat>,
    losses: Option<nat>)

  /** What the rank line says. */
  datatype RankSummary =
    | Unranked
    | Ranked(tierName: string, division: string, leaguePoints: nat, winRate: nat, games: nat)

  const SoloQueue: string := "RANKED_SOLO_5x5"
  const UnrankedText: string := "언랭크"

  /** `tierKo`: Riot's tier codes to their Korean names. */
  const TierKo: Dict<string> := [
    Entry("IRON", "아이언"), Entry("BRONZE", "브론즈"), Entry("SILVER", "실버"), Entry("GOLD", "골드"),
    Entry("PLATINUM", "플래티넘"), Entry("EMERALD", "에메랄드"), Entry("DIAMOND", "다이아몬드"),
    Entry("MASTER", "마스터"), Entry("GRANDMASTER", "그랜드마스터"), Entry("CHALLENGER", "챌린저")
  ]

  function TierName(tier: string): string {
    Translate(TierKo, tier)
  }

  /** The first solo-queue entry, as `rankEntries.find` returns it. */
  function SoloEntry(entries: seq<RankEntry>): (r: Option<RankEntry>)
    ensures r.Some? ==> r.value in entries && r.value.queueType == SoloQueue
    ensures r.None? <==> forall i :: 0 <= i < |entries| ==> entries[i].queueType != SoloQueue
    ensures r.Some? ==> exists i :: 0 <= i < |entries| && entries[i] == r.value
                          && forall j :: 0 <= j < i ==> entries[j].queueType != SoloQueue
  {
    if |entries| == 0 then None
    else if entries[0].queueType == SoloQueue then Some(entries[0])
    else
      var r := SoloEntry(entries[1..]);
      assert forall i :: 1 <= i < |entries| ==> entries[i] == entries[1..][i - 1];
      if r.Some? then
        assert exists i :: 1 <= i < |entries| && entries[i] == r.value
                 && forall j :: 0 <= j < i ==> entries[j].queueType != SoloQueue;
        r
      else r
  }

  /** The win rate of the line: a rounded percentage, and 0 without games. */
  function WinRate(wins: nat, losses: nat): (r: nat)
    ensures r <= 100
    ensures wins + losses == 0 ==> r == 0
    ensures wins + losses > 0 ==> r == Percent(wins, wins + losses)
    ensures losses == 0 && wins > 0 ==> r == 100
  {
    if wins + losses > 0 then Percent(wins, wins + losses) else 0
  }

  /** What `formatRank` reports for the entries (a missing list counts as none). */
  function RankSummaryOf(entries: Option<seq<RankEntry>>): (r: RankSummary)
    ensures r == Unranked <==> entries.None? || SoloEntry(entries.value).None?
    ensures r.Ranked? ==> var e := SoloEntry(entries.value).value;
              var wins, losses := e.wins.GetOr(0), e.losses.GetOr(0);
              && r.tierName == TierName(e.tier) && r.division == e.rank && r.leaguePoints == e.leaguePoints
              && r.games == wins + losses && r.winRate == WinRate(wins, losses)
  {
    if entries.None? || |entries.value| == 0 then Unranked
    else match SoloEntry(entries.value)
      case None => Unranked
      case Some(e) =>
        var wins, losses := e.wins.GetOr(0), e.losses.GetOr(0);
        Ranked(TierName(e.tier), e.rank, e.leaguePoints, WinRate(wins, losses), wins + losses)
  }

  /** Everything of the line after the tier name, piece by piece. */
  function TailPieces(r: RankSummary): seq<string>
    requires r.Ranked?
  {
    [" ", r.division, " ", NatToBase(r.leaguePoints, 10), "LP (", NatToBase(r.winRate, 10), "% / ",
     NatToBase(r.games, 10), "판)"]
  }

  function RankTail(r: RankSummary): string
    requires r.Ranked?
  {
    Concat(TailPieces(r))
  }

  /** `formatRank`. */
  function FormatRank(entries: Option<seq<RankEntry>>): string {
    var r := RankSummaryOf(entries);
    if r.Unranked? then UnrankedText else r.tierName + RankTail(r)
  }

  /** A missing or empty list, or one without a solo-queue entry, is unranked. */
  lemma UnrankedCases(entries: seq<RankEntry>)
    ensures FormatRank(None) == UnrankedText && FormatRank(Some([])) == UnrankedText
    ensures (forall i :: 0 <= i < |entries| ==> entries[i].queueType != SoloQueue) ==> FormatRank(Some(entries)) == UnrankedText
  {
  }

  /** Every tier code has its Korean name, and a code the table lacks is shown as it is. */
  lemma TierNamesTranslated(i: nat, code: string)
    requires i < |TierKo|
    ensures TierName(TierKo[i].key) == TierKo[i].value && TierKo[i].value != TierKo[i].key
    ensures code !in Keys(TierKo) ==> TierName(code) == code
  {
    TierKoTable();
    TranslateAt(TierKo, i);
  }

  /** The tier table: distinct codes, each with a Korean name that is neither empty nor the code. */
  lemma TierKoTable()
    ensures Valid(TierKo)
    ensures forall i :: 0 <= i < |TierKo| ==> TierKo[i].value != "" && TierKo[i].value != TierKo[i].key
  {
  }

  // ---------------------------------------------------------------------------
  // The profiler reads the tier back
  // ---------------------------------------------------------------------------

  /** Where a tier's Korean name sits in the profiler's corrected table. */
  function CorrectedRow(i: nat): (j: nat)
    requires i < |TierKo|
    ensures j < |PlaystyleProfiler.CorrectedTierMap|
    ensures PlaystyleProfiler.CorrectedTierMap[j] == (TierKo[i].value, TierKo[i].key)
  {
    if i == 7 then 8 else if i == 8 then 7 else i
  }

  lemma {:induction false} NoTierCharsConcat(parts: seq<string>)
    requires forall i :: 0 <= i < |parts| ==> PlaystyleProfiler.NoTierChars(parts[i])
    ensures PlaystyleProfiler.NoTierChars(Concat(parts))
    decreases |parts|
  {
    if |parts| > 0 {
      NoTierCharsConcat(parts[1..]);
    }
  }

  lemma DigitsNoTierChars(n: nat)
    ensures PlaystyleProfiler.NoTierChars(NatToBase(n, 10))
  {
    var d := NatToBase(n, 10);
    forall i | 0 <= i < |d|
      ensures d[i] < '\U{80}'
    {
      assert d[i] in Digits[..10];
    }
    AsciiNoTierChars(d);
  }

  /** The Korean tier names are written in Hangul syllables only. */
  lemma TierCharsAreHangul()
    ensures forall i :: 0 <= i < |PlaystyleProfiler.TierNameChars| ==> PlaystyleProfiler.TierNameChars[i] >= '\U{AC00}'
  {
  }

  lemma AsciiNoTierChars(s: string)
    requires forall i :: 0 <= i < |s| ==> s[i] < '\U{80}'
    ensures PlaystyleProfiler.NoTierChars(s)
  {
    TierCharsAreHangul();
  }

  lemma GamesUnitNoTierChars()
    ensures PlaystyleProfiler.NoTierChars("판)")
  {
    TierCharsAreHangul();
    assert '판' !in PlaystyleProfiler.TierNameChars;
  }

  lemma LiteralsNoTierChars()
    ensures PlaystyleProfiler.NoTierChars(" ") && PlaystyleProfiler.NoTierChars("LP (")
    ensures PlaystyleProfiler.NoTierChars("% / ") && PlaystyleProfiler.NoTierChars("판)")
  {
    AsciiNoTierChars(" ");
    AsciiNoTierChars("LP (");
    AsciiNoTierChars("% / ");
    GamesUnitNoTierChars();
  }

  /** The tail of the line holds no character of a Korean tier name when the division holds none. */
  lemma TailNoTierChars(r: RankSummary)
    requires r.Ranked? && PlaystyleProfiler.NoTierChars(r.division)
    ensures PlaystyleProfiler.NoTierChars(RankTail(r))
  {
    var pieces := TailPieces(r);
    forall i | 0 <= i < |pieces|
      ensures PlaystyleProfiler.NoTierChars(pieces[i])
    {
      LiteralsNoTierChars();
      DigitsNoTierChars(r.leaguePoints);
      DigitsNoTierChars(r.winRate);
      DigitsNoTierChars(r.games);
    }
    NoTierCharsConcat(pieces);
  }

  /**
   * The rank line of a known tier reads back as that tier under the corrected tier extraction,
   * whenever the division (I to IV) holds no Korean tier character.
   */
  lemma RankLineReadsBack(entries: seq<RankEntry>, i: nat)
    requires i < |TierKo|
    requires SoloEntry(entries).Some? && SoloEntry(entries).value.tier == TierKo[i].key
    requires PlaystyleProfiler.NoTierChars(SoloEntry(entries).value.rank)
    ensures PlaystyleProfiler.ExtractTier(FormatRank(Some(entries))) == TierKo[i].key
  {
    var r := RankSummaryOf(Some(entries));
    TierNamesTranslated(i, "");
    TailNoTierChars(r);
    PlaystyleProfiler.ExtractTierReadsName(CorrectedRow(i), RankTail(r));
  }

  /** As written, the profiler reads a grandmaster's rank line as MASTER. */
  lemma GrandmasterLineReadAsMaster(entries: seq<RankEntry>)
    requires SoloEntry(entries).Some? && SoloEntry(entries).value.tier == "GRANDMASTER"
    requires PlaystyleProfiler.NoTierChars(SoloEntry(entries).value.rank)
    ensures PlaystyleProfiler.ExtractTierAsWritten(FormatRank(Some(entries))) == "MASTER"
  {
    var r := RankSummaryOf(Some(entries));
    TierNamesTranslated(8, "");
    TailNoTierChars(r);
    PlaystyleProfiler.GrandmasterReadAsMaster(RankTail(r));
  }

  // ---------------------------------------------------------------------------
  // Recent matches
  // ---------------------------------------------------------------------------

  /** The KDA of a recent match: 'Perfect' without deaths, else (kills + assists) / deaths. */
  function RecentMatchKda(kills: nat, deaths: nat, assists: nat): (r: KdaFigure)
    ensures r == Perfect <==> deaths == 0
    ensures r.Ratio? ==> r.value * deaths as real == (kills + assists) as real
  {
    KdaFigureOf(kills as real, deaths as real, assists as real)
  }
}
