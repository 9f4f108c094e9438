/**
 * Champions whose CS or KDA is structurally low. `csOffset` / `kdaOffset` lower the expected
 * averages; `isRoam` means the coach must not criticise CS, `isDive` that it must not
 * criticise KDA. An absent flag reads as false.
 */
module ChampionFlags {
  import opened Wrappers

  datatype ChampionFlag = ChampionFlag(csOffset: real, kdaOffset: real, isRoam: bool, isDive: bool)

  const Champions: seq<string> :=
    ["Yasuo", "Yone", "Zed", "Talon", "Qiyana", "Katarina", "Fizz", "Ekko", "Irelia", "Riven", "Akali", "Ahri"]

  /** `CHAMPION_FLAGS[name]`; None for an unlisted champion. */
  function FlagsOf(name: string): (r: Option<ChampionFlag>)
    ensures r.Some? <==> name in Champions
  {
    match name
    case "Yasuo" => Some(ChampionFlag(-0.3, -0.8, false, true))
    case "Yone" => Some(ChampionFlag(-0.2, -0.5, false, true))
    case "Zed" => Some(ChampionFlag(-0.1, -0.4, false, true))
    case "Talon" => Some(ChampionFlag(-0.3, -0.3, true, false))
    case "Qiyana" => Some(ChampionFlag(-0.2, -0.3, true, false))
    case "Katarina" => Some(ChampionFlag(-0.4, -0.2, false, true))
    case "Fizz" => Some(ChampionFlag(-0.2, -0.3, false, true))
    case "Ekko" => Some(ChampionFlag(-0.1, -0.2, false, true))
    case "Irelia" => Some(ChampionFlag(-0.1, -0.6, false, true))
    case "Riven" => Some(ChampionFlag(-0.1, -0.5, false, true))
    case "Akali" => Some(ChampionFlag(-0.2, -0.4, true, true))
    case "Ahri" => Some(ChampionFlag(0.0, 0.0, true, false))
    case _ => None
  }

  /** The entry an unlisted champion gets. */
  const NoFlags: ChampionFlag := ChampionFlag(0.0, 0.0, false, false)

  lemma TwelveChampions()
    ensures |Champions| == 12
    ensures forall i, j :: 0 <= i < j < |Champions| ==> Champions[i] != Champions[j]
  {}

  /** Offsets only ever lower an expectation, by at most 0.4 CS/min and 0.8 KDA. */
  lemma OffsetRanges(name: string)
    requires FlagsOf(name).Some?
    ensures -0.4 <= FlagsOf(name).value.csOffset <= 0.0
    ensures -0.8 <= FlagsOf(name).value.kdaOffset <= 0.0
  {}

  /** Every listed champion is a roamer or a diver, and only Akali is both. */
  lemma FlagsSet(name: string)
    requires FlagsOf(name).Some?
    ensures FlagsOf(name).value.isRoam || FlagsOf(name).value.isDive
    ensures FlagsOf(name).value.isRoam && FlagsOf(name).value.isDive <==> name == "Akali"
  {}

  /** Ahri changes no number: her offsets equal those of an unlisted champion. */
  lemma AhriOnlyRoams()
    ensures FlagsOf("Ahri").value.csOffset == NoFlags.csOffset
    ensures FlagsOf("Ahri").value.kdaOffset == NoFlags.kdaOffset
    ensures FlagsOf("Ahri").value.isRoam && !FlagsOf("Ahri").value.isDive
  {}
}
