/**
 * The Claude service's text rules: the post-check of an answer for high-elo players, which
 * only warns and hands the answer back unchanged; and the fallback meta coaching shown when
 * the AI is unavailable, whose champion list is numbered from 1 and reads '데이터 없음' when
 * empty. The answer's `**[Title]** text` sections become embed fields through the shared
 * section parser in its bracket style.
 */
module ClaudeService {
  import opened Wrappers
  import opened Text
  import opened SectionFields
  import opened Seqs

  // ---------------------------------------------------------------------------
  // validateResponse
  // ---------------------------------------------------------------------------

  const HighElo: seq<string> := ["master", "grandmaster", "challenger"]

  /** Advice a master-or-above player should not get. */
  const Inappropriate: seq<string> := ["기초", "기본기가 부족", "기본부터"]

  /** The answer handed back, and the words the warning lists. */
  datatype Validated = Validated(text: string, warnings: seq<string>)

  predicate IsHighElo(tier: string) {
    Lower(tier) in HighElo
  }

  /** `words.filter(w => text.includes(w))`. */
  function Flagged(words: seq<string>, text: string): (r: seq<string>)
    ensures |r| <= |words|
    ensures forall w :: w in r <==> w in words && Contains(text, w)
    ensures r == Filter(words, (w: string) => Contains(text, w))
  {
    if |words| == 0 then []
    else (if Contains(text, words[0]) then [words[0]] else []) + Flagged(words[1..], text)
  }

  /**
   * `validateResponse`: for every tier the answer comes back as it is; only a master,
   * grandmaster or challenger answer (in any ASCII letter case) is searched, and the warning
   * lists exactly the inappropriate phrases it contains.
   */
  function ValidateResponse(text: string, tier: string): (r: Validated)
    ensures r.text == text
    ensures !IsHighElo(tier) ==> r.warnings == []
    ensures IsHighElo(tier) ==> forall w :: w in r.warnings <==> w in Inappropriate && Contains(text, w)
    ensures IsHighElo(tier) ==> r.warnings == Filter(Inappropriate, (w: string) => Contains(text, w))
  {
    if !IsHighElo(tier) then Validated(text, []) else Validated(text, Flagged(Inappropriate, text))
  }

  /** The tier check ignores ASCII letter case. */
  lemma HighEloIgnoresCase()
    ensures IsHighElo("MASTER") && IsHighElo("Grandmaster") && IsHighElo("challenger")
    ensures !IsHighElo("DIAMOND") && !IsHighElo("")
  {
    assert Lower("MASTER") == "master";
    assert Lower("Grandmaster") == "grandmaster";
    assert Lower("challenger") == "challenger";
    assert |Lower("DIAMOND")| == 7 && Lower("DIAMOND")[0] == 'd';
  }

  // ---------------------------------------------------------------------------
  // getFallbackMeta
  // ---------------------------------------------------------------------------

  /** An entry of `playStyle.top_champions`. */
  datatype ChampionStat = ChampionStat(name: string, games: nat)

  /** `${rank}. ${name} (${games}판)`. */
  function ChampionLine(rank: nat, c: ChampionStat): string {
    NatToBase(rank, 10) + ". " + c.name + " (" + NatToBase(c.games, 10) + "판)"
  }

  /** The list lines, numbered from 1 in list order. */
  function ChampionLines(champions: seq<ChampionStat>): (r: seq<string>)
    ensures |r| == |champions|
    ensures forall i :: 0 <= i < |r| ==> r[i] == ChampionLine(i + 1, champions[i])
  {
    seq(|champions|, i requires 0 <= i < |champions| => ChampionLine(i + 1, champions[i]))
  }

  const NoData: string := "데이터 없음"
  const StyleTitle: string := "성향 분석"
  const StyleNote: string := "AI 분석을 사용할 수 없습니다."
  const ChampionsTitle: string := "모스트 챔피언"

  /** `champList || '데이터 없음'`. */
  function ChampionListing(champions: seq<ChampionStat>): string {
    var list := Join(ChampionLines(champions), "\n");
    if list == "" then NoData else list
  }

  /** A header line `**[title]**rest`. */
  function Headed(title: string, rest: string): string {
    "**[" + title + "]**" + rest
  }

  /** `getFallbackMeta`; a missing `top_champions` counts as an empty list. */
  function FallbackMeta(topChampions: Option<seq<ChampionStat>>): string {
    Headed(StyleTitle, " " + StyleNote) + "\n" + Headed(ChampionsTitle, "") + "\n" + ChampionListing(topChampions.GetOr([]))
  }

  predicate OneLineNames(champions: seq<ChampionStat>) {
    forall i :: 0 <= i < |champions| ==> '\n' !in champions[i].name
  }

  lemma ChampionLineIsOneLine(rank: nat, c: ChampionStat)
    requires '\n' !in c.name
    ensures '\n' !in ChampionLine(rank, c)
    ensures |ChampionLine(rank, c)| > 0 && '0' <= ChampionLine(rank, c)[0] <= '9'
  {
    var d, g := NatToBase(rank, 10), NatToBase(c.games, 10);
    assert '\n' !in d && '\n' !in g;
    assert '\n' !in ". " && '\n' !in " (" && '\n' !in "판)";
    assert d[0] in Digits[..10];
    assert ChampionLine(rank, c)[0] == d[0];
  }

  /**
   * The listing is the placeholder for an empty list; otherwise its lines are the champions,
   * in order, the i-th numbered i + 1.
   */
  lemma ListingLines(champions: seq<ChampionStat>)
    requires OneLineNames(champions)
    ensures champions == [] ==> ChampionListing(champions) == NoData
    ensures champions != [] ==> Split(ChampionListing(champions), '\n') == ChampionLines(champions)
  {
    var lines := ChampionLines(champions);
    if champions != [] {
      forall i | 0 <= i < |lines|
        ensures '\n' !in lines[i]
      {
        ChampionLineIsOneLine(i + 1, champions[i]);
      }
      ChampionLineIsOneLine(1, champions[0]);
      assert Join(lines, "\n") != "" by {
        if |lines| > 1 {
          assert Join(lines, "\n") == lines[0] + "\n" + Join(lines[1..], "\n");
        }
      }
      assert "\n" == ['\n'];
      SplitJoin(lines, '\n');
    }
  }

  /** The lines of the listing. */
  function ListingBody(champions: seq<ChampionStat>): seq<string> {
    if champions == [] then [NoData] else ChampionLines(champions)
  }

  lemma NoDataLine()
    ensures Split(NoData, '\n') == [NoData]
    ensures OpeningOf(Bracket, NoData).None? && !IsBlank(NoData)
  {
    assert NoData[0] == '데';
    assert '\n' !in NoData;
    SplitNoSep(NoData, '\n');
  }

  /** None of the listing's lines opens a section. */
  lemma ListingOpensNothing(champions: seq<ChampionStat>)
    requires OneLineNames(champions)
    ensures forall i :: 0 <= i < |ListingBody(champions)| ==> OpeningOf(Bracket, ListingBody(champions)[i]).None?
  {
    var body := ListingBody(champions);
    if champions == [] {
      NoDataLine();
    } else {
      forall i | 0 <= i < |body|
        ensures OpeningOf(Bracket, body[i]).None?
      {
        ChampionLineIsOneLine(i + 1, champions[i]);
        assert !StartsWith(body[i], "**[");
      }
    }
  }

  /** The listing's lines, which are not all blank and none of which opens a section. */
  lemma ListingBodyLines(champions: seq<ChampionStat>)
    requires OneLineNames(champions)
    ensures Split(ChampionListing(champions), '\n') == ListingBody(champions)
    ensures forall i :: 0 <= i < |ListingBody(champions)| ==> OpeningOf(Bracket, ListingBody(champions)[i]).None?
    ensures !IsBlank(BodyText(ListingBody(champions)))
  {
    ListingLines(champions);
    ListingOpensNothing(champions);
    var body := ListingBody(champions);
    if champions == [] {
      NoDataLine();
    } else {
      ChampionLineIsOneLine(1, champions[0]);
    }
    BodyTextNotBlank(body);
    assert !IsBlank(body[0]);
  }

  /** A title the lazy header pattern captures whole: one line, no ']'. */
  predicate PlainTitle(t: string) {
    t != [] && forall i :: 0 <= i < |t| ==> t[i] != ']' && !IsLineTerminator(t[i])
  }

  lemma HangulTitle(t: string)
    requires t != [] && forall i :: 0 <= i < |t| ==> t[i] == ' ' || t[i] >= '\U{AC00}'
    ensures PlainTitle(t)
  {
  }

  lemma MetaLiterals()
    ensures PlainTitle(StyleTitle) && PlainTitle(ChampionsTitle)
    ensures '\n' !in StyleNote && StyleNote != [] && !IsSpace(StyleNote[0]) && !IsSpace(StyleNote[|StyleNote| - 1])
    ensures |StyleNote| <= FieldLimit
  {
    HangulTitle(StyleTitle);
    HangulTitle(ChampionsTitle);
    assert StyleNote[0] == 'A' && StyleNote[|StyleNote| - 1] == '.';
  }

  lemma TrimLine(x: string)
    requires x != [] && !IsSpace(x[0]) && !IsSpace(x[|x| - 1])
    ensures Trim(" " + x) == x
    ensures Trim(x + "\n") == x && !IsBlank(x + "\n")
  {
    assert (" " + x)[1..] == x;
    assert TrimStart(" " + x) == x;
    assert TrimStart(x + "\n") == x + "\n";
    assert (x + "\n")[..|x|] == x;
    assert TrimEnd(x + "\n") == TrimEnd(x);
  }

  /** Two header lines and a listing: the header lines, then the listing's own lines. */
  lemma HeadedLines(t1: string, note: string, t2: string, listing: string)
    requires PlainTitle(t1) && PlainTitle(t2) && '\n' !in note
    ensures Split(Headed(t1, note) + "\n" + Headed(t2, "") + "\n" + listing, '\n')
         == [Headed(t1, note), Headed(t2, "")] + Split(listing, '\n')
  {
    var line1, line2 := Headed(t1, note), Headed(t2, "");
    assert '\n' !in t1 && '\n' !in t2;
    assert '\n' !in line1 && '\n' !in line2;
    assert line1 + "\n" + line2 + "\n" + listing == line1 + ['\n'] + (line2 + ['\n'] + listing);
    SplitAtSep(line1, '\n', line2 + ['\n'] + listing);
    SplitAtSep(line2, '\n', listing);
  }

  lemma FirstHeaderRun(t1: string, note: string, rest: seq<string>)
    requires PlainTitle(t1)
    ensures Run(Bracket, Untitled, [Headed(t1, note)] + rest) == Run(Bracket, Open(Opening(t1, Trim(note))), rest)
  {
    BracketHeaderOpens(t1, note);
    assert ([Headed(t1, note)] + rest)[1..] == rest;
    assert Flush(Untitled) == [];
  }

  lemma SecondHeaderRun(cur: Section, t2: string, body: seq<string>)
    requires cur.title != [] && PlainTitle(t2)
    requires forall i :: 0 <= i < |body| ==> OpeningOf(Bracket, body[i]).None?
    ensures Run(Bracket, cur, [Headed(t2, "")] + body) == [cur, Section(t2, BodyText(body))]
  {
    var lines := [Headed(t2, "")] + body;
    BracketHeaderOpens(t2, "");
    assert Trim("") == "";
    assert OpeningOf(Bracket, lines[0]) == Some(Opening(t2, ""));
    assert lines[1..] == body;
    RunHeader(Bracket, [], cur, lines);
    assert Flush(cur) == [cur];
    assert Open(Opening(t2, "")) == Section(t2, "");
    BodyCollected(Bracket, Section(t2, ""), body);
    assert Section(t2, "").(content := "" + BodyText(body)) == Section(t2, BodyText(body));
  }

  /** The sections those lines give: the first header's note, then the listing under the second. */
  lemma HeadedSections(t1: string, note: string, t2: string, body: seq<string>)
    requires PlainTitle(t1) && PlainTitle(t2) && Trim(note) != []
    requires forall i :: 0 <= i < |body| ==> OpeningOf(Bracket, body[i]).None?
    ensures Run(Bracket, Untitled, [Headed(t1, note), Headed(t2, "")] + body)
         == [Section(t1, Trim(note) + "\n"), Section(t2, BodyText(body))]
  {
    assert [Headed(t1, note), Headed(t2, "")] + body == [Headed(t1, note)] + ([Headed(t2, "")] + body);
    FirstHeaderRun(t1, note, [Headed(t2, "")] + body);
    SecondHeaderRun(Section(t1, Trim(note) + "\n"), t2, body);
  }

  /** Its sections: the style note, and the listing under '모스트 챔피언'. */
  lemma MetaSections(topChampions: Option<seq<ChampionStat>>)
    requires OneLineNames(topChampions.GetOr([]))
    ensures SectionsOf(Bracket, FallbackMeta(topChampions))
         == [Section(StyleTitle, StyleNote + "\n"), Section(ChampionsTitle, BodyText(ListingBody(topChampions.GetOr([]))))]
  {
    var champions := topChampions.GetOr([]);
    MetaLiterals();
    TrimLine(StyleNote);
    assert '\n' !in " " + StyleNote;
    HeadedLines(StyleTitle, " " + StyleNote, ChampionsTitle, ChampionListing(champions));
    ListingBodyLines(champions);
    HeadedSections(StyleTitle, " " + StyleNote, ChampionsTitle, ListingBody(champions));
  }

  lemma TwoFields(s1: Section, s2: Section)
    requires !IsBlank(s1.content) && !IsBlank(s2.content)
    ensures Fields([s1, s2]) == [Field(s1.title, Clip(Trim(s1.content))), Field(s2.title, Clip(Trim(s2.content)))]
  {
    assert [s1, s2][..1] == [s1];
    assert [s1][..0] == [];
  }

  /**
   * Read back by the bracket-style parser, the fallback meta is two fields: the style note, and
   * the champion listing under '모스트 챔피언'.
   */
  lemma FallbackMetaFields(topChampions: Option<seq<ChampionStat>>)
    requires OneLineNames(topChampions.GetOr([]))
    ensures var fields := Fields(SectionsOf(Bracket, FallbackMeta(topChampions)));
            && |fields| == 2
            && fields[0] == Field(StyleTitle, StyleNote)
            && fields[1] == Field(ChampionsTitle, Clip(Trim(BodyText(ListingBody(topChampions.GetOr([]))))))
  {
    MetaSections(topChampions);
    MetaLiterals();
    ListingBodyLines(topChampions.GetOr([]));
    TrimLine(StyleNote);
    TwoFields(Section(StyleTitle, StyleNote + "\n"), Section(ChampionsTitle, BodyText(ListingBody(topChampions.GetOr([])))));
  }

  // ---------------------------------------------------------------------------
  // parseAnalysisToFields
  // ---------------------------------------------------------------------------

  /** `parseAnalysisToFields`: the section parser with `**[Title]** text` headers. */
  method ParseAnalysisToFields(text: string) returns (fields: seq<Field>)
    ensures fields == Fields(SectionsOf(Bracket, text))
    ensures forall i :: 0 <= i < |fields| ==> 0 < |fields[i].value| <= FieldLimit
  {
    fields := ParseToFields(Bracket, text);
  }
}
