# Match-analysis engine of a League of Legends Discord bot, in Dafny

This project models the core of a Korean-language Discord bot for League of Legends players.
The core is a match-analysis engine, plus the small stateful services and text parsers around it.

The analysis engine has four parts:

- **Timeline decision parser** (`TimelineParser`):
  - classifies a map point into a zone relative to the player's side;
  - finds the lane opponent and samples gold and CS from the frame nearest in time;
  - labels each death as teamfight, dive, gank or solo;
  - clusters item purchases into recalls;
  - builds the objective, gold, vision and combat summary of one match.
- **Tier normaliser** (`StatNormalizer`, with the static tables `TierExpectations` and `ChampionFlags`):
  - builds a champion- and role-adjusted benchmark;
  - buckets each stat into a relative score from -2 to 2.
- **Per-match parse for the AI prompt** (`MatchSummary`): KDA over `max(1, deaths)`, death-pattern counts, win or loss.
- **Playstyle profiler** (`PlaystyleProfiler`): folds many matches into five 1-10 trait scores, a top-3 champion pool and a role distribution. `ProfilePlaystyle` follows the code as written, including the two defects listed under Findings; `ProfileOfIntended` is the corrected profile, and `ProfileAsIntended` states when the two agree.

The secondary services are modelled with their persisted JSON object as the field of a class:

- the credit ledger with its history capped at 50 entries (`Membership`);
- the XP and level table with its one-minute cooldown (`LevelService`);
- the event participant toggle and the reminder and rollover rules (`EventService`);
- the music queues (`MusicService`).

The text rules are:

- the duration formatter and the search-result choice (`MusicService`);
- the markdown-section to embed-field splitter. The source has six copies of this loop in four services: `aiSummarizer.js` (three patch-note formatters), `claudeService.js`, `coachAnalyzer.js` and `lolAnalyzer.js`. Here it is written once, as `SectionFields.ParseToFields`, and each service's parser calls it: `AiSummarizer.FormatForDiscord`, `ClaudeService.ParseAnalysisToFields`, `CoachAnalyzer.ParseCoachingToFields` and `LolAnalyzer.ParseAnalysisToFields`;
- the TTS text chunker (`TtsService`);
- HTML escaping and the report helpers (`Html`, `ImageService`, `ReportRenderer`);
- rank formatting and the 'Perfect' KDA rule (`RiotService`);
- the emoji enlarger's URL and code-point rules (`EmojiEnlarger`).

Shared modules:

- `Wrappers`: Option and Result.
- `Text`: the JavaScript string operations used, such as trim, split, lastIndexOf and number digits.
- `OrderedDict`: a JavaScript object, as an insertion-ordered list of entries with unique keys.
- `Sorting`: a stable sort by integer key, as `Array.prototype.sort` with a numeric comparator.
- `Seqs`: filtering, counting and summing over sequences.
- `Numbers`: JavaScript `Math.round` as floor(x + 1/2), rounded percentages, clamping.
- `RiotData`: the match and timeline records of the Riot API.

Modelling choices:

- Map positions are integers; distances are compared squared instead of taking a square root.
- Stat arithmetic is on `real`.
- Clocks (`Date.now()`), random XP gains and timestamps are parameters.
- Loops that update variables in the source are methods with loop invariants, proved against a specification function. The function's own properties are proved as lemmas.

## Model

| member | source | states |
|---|---|---|
| TimelineParser.ClassifyLocation | src/services/matchParser.js:10-37 | a point of any team other than 100 is reflected through (7500, 7500), then the zones are tried in the source's order with its strict bounds (`BlueZone`) |
| TimelineParser.ClassifyLocationSymmetric | src/services/matchParser.js:10-13 | a red-side point gets the zone its mirror image gets on the blue side |
| TimelineParser.RiverBeforeOwnJungle | src/services/matchParser.js:18-30 | a point in both the river band and the own-jungle box is RIVER; OWN_JUNGLE is only returned inside the box and outside the band |
| TimelineParser.FindParticipant | src/services/matchParser.js:233-235 | `find` by participantId: found exactly when some participant has the id, and the result is the first participant with that id |
| TimelineParser.FindLaneOpponent | src/services/matchParser.js:42-54 | an opponent is found only for a known player with a non-empty position; it is the first participant of another team in that position other than the player (`Opposes`), no earlier participant qualifying; none is found only when every such participant is the player |
| TimelineParser.ClosestIn | src/services/matchParser.js:60-69 | the kept frame index lies among the scanned frames, -1 only when none was scanned |
| TimelineParser.ClosestIsFirstMinimum | src/services/matchParser.js:63-69 | the kept frame is at minimal distance from the target time, and strictly closer than every earlier frame (the `<` test keeps the first of equals) |
| TimelineParser.GoldAtTime | src/services/matchParser.js:59-74 | no frames give 0 gold; otherwise the result is the participant's total gold (0 without a snapshot) in a frame nearest in time to the target and strictly nearer than every earlier frame |
| TimelineParser.CsAtTime | src/services/matchParser.js:79-94 | no frames give 0 CS; otherwise the result is lane plus jungle minions (absent counts and snapshots as 0) in a frame nearest in time to the target and strictly nearer than every earlier frame |
| TimelineParser.NearestIsSampled | src/services/matchParser.js:63-70 | with at least one frame the scan's index is the first frame nearest in time to the target |
| TimelineParser.ClosestFrame | src/services/matchParser.js:60-69 | the scan loop returns `ClosestIn` over all frames: -1 exactly for no frames, otherwise a frame at minimal distance |
| TimelineParser.GetGoldAtTime | src/services/matchParser.js:59-74 | `getGoldAtTime` returns `GoldAtTime`: the total gold of the participant in the closest frame, 0 without frame, snapshots or entry |
| TimelineParser.GetCsAtTime | src/services/matchParser.js:79-94 | `getCsAtTime` returns `CsAtTime`: lane plus jungle minions in the closest frame, missing counts as 0 |
| TimelineParser.SamplingTieGoesToEarlier | src/services/matchParser.js:65 | of two frames equally far from the target time, the first is sampled |
| TimelineParser.SideTowers | src/services/matchParser.js:164-188 | each side has nine towers |
| TimelineParser.GetTowerPositions | src/services/matchParser.js:155-189 | an unknown player has no towers, a known one the nine of the player's side |
| TimelineParser.TowersOnOwnHalf | src/services/matchParser.js:164-188 | every blue tower lies below the anti-diagonal x + y = 15000, every red tower above it |
| TimelineParser.ClassifyDeathContext | src/services/matchParser.js:100-150 | three or more nearby kills make a teamfight; DIVE exactly when fewer and within 1000 of an own tower; GANK exactly when neither and the killer plays another non-empty position with at most one assist; SOLO only without assists; the fall-through teamfight has assists |
| TimelineParser.DeathCountsItself | src/services/matchParser.js:105-114 | the death event, when listed among all events, is one of its own nearby kills |
| TimelineParser.UnlocatedBurstIsTeamfight | src/services/matchParser.js:108-117 | three simultaneous kills, the death without a position, are a teamfight |
| TimelineParser.PurchaseTimes | src/services/matchParser.js:195-202 | every counted purchase is later than 90 s |
| TimelineParser.ClusterStarts | src/services/matchParser.js:204-220 | at most one recall per purchase; a non-empty list starts with a recall at the first purchase |
| TimelineParser.ClusterStartsOfOne | src/services/matchParser.js:207-218 | one purchase gives one recall, at that purchase |
| TimelineParser.ClusterStep | src/services/matchParser.js:211-216 | a purchase more than 5 s after the previous one appends a recall; one within 5 s changes nothing |
| TimelineParser.ClusterStartsArePurchases | src/services/matchParser.js:207-218 | every recall time is a purchase time |
| TimelineParser.GapStartsCluster | src/services/matchParser.js:212-214 | every purchase that follows a gap of more than 5 s is a recall time |
| TimelineParser.DetectBackTimings | src/services/matchParser.js:194-221 | `detectBackTimings` returns the burst starts of the counted purchase times |
| TimelineParser.BurstStarts | src/services/matchParser.js:204-220 | the clustering loop computes `ClusterStarts` of the purchase times |
| TimelineParser.Deaths | src/services/matchParser.js:251-253 | every selected event is a champion kill whose victim is the player |
| TimelineParser.GoldDiffAt | src/services/matchParser.js:260-265 | without a (truthy) lane opponent the gold difference is 0 |
| TimelineParser.AnalyzeDeath | src/services/matchParser.js:255-291 | a death record keeps the death's time (minute mark = ms / 60000), killer and assists; a positioned death keeps its position and zone `ClassifyLocation`, an unpositioned one (0, 0) and UNKNOWN; the gold difference is `GoldDiffAt` a minute before the death (0 without opponent); the context is `ClassifyDeathContext` |
| TimelineParser.AnalyzeDeaths | src/services/matchParser.js:255 | one record per death, in order |
| TimelineParser.ToMissed | src/services/matchParser.js:314-319 | a missed monster kill keeps its time, its minute mark is the time in minutes, and its type is the monster type or 'UNKNOWN' when empty |
| TimelineParser.Objectives | src/services/matchParser.js:296-324 | the total is the number of the team's monster and building kills, participated the number of those the player killed or assisted, the rate the rounded percentage (100 without objectives), and the missed list the monster kills without the player in order; participated plus missed never exceed the total and the rate lies in 0..100 |
| TimelineParser.Vision | src/services/matchParser.js:346-354 | the totals count the wards the player placed and destroyed, early and late count the placed wards before and from 15 minutes, and the two add up to the total |
| TimelineParser.ParseMatchTimeline | src/services/matchParser.js:231-421 | an error exactly for an unknown participant; otherwise the player block `PlayerInfoOf`, the game duration, `deathAnalysis == AnalyzeDeaths` of the player's deaths, `Objectives` and `Vision` over all events, the gold block `GoldEfficiencyOf` and the combat block `CombatOf` |
| TimelineParser.PlayerInfoOf | src/services/matchParser.js:381-389 | champion, win, kills, deaths and assists of the participant, role its position or 'UNKNOWN' when empty, rank empty |
| TimelineParser.GoldEfficiencyOf | src/services/matchParser.js:329-342 | gold and CS at 10 and 15 minutes from the nearest frames, gold differences against the lane opponent (0 without one), and recall times `ClusterStarts` of the purchase times |
| TimelineParser.CombatOf | src/services/matchParser.js:356-378 | damage dealt and taken, healing, kill participation `KillShare` of kills plus assists over the team's kills, and solo kills as the count of the player's kills without assists |
| TimelineParser.KillShare | src/services/matchParser.js:369-371 | 0 without team kills, otherwise `Percent` of takedowns over team kills, within 0..100 when takedowns do not exceed them |
| MatchSummary.EntriesOf | src/utils/matchParser.js:15-25 | one entry per champion kill with the player as victim, in event order, each holding that kill's whole minute, position and assists |
| MatchSummary.CountPattern | src/utils/matchParser.js:27-31 | the total is the number of entries, the early count the number in minutes 0..9 and the solo count the number without assists; both within the total |
| MatchSummary.DeathPatternOf | src/utils/matchParser.js:8-32 | a missing timeline gives all zeros; otherwise the total counts the player's deaths over all frames, the early count those before 10 minutes and the solo count those without assists |
| MatchSummary.EntryCounts | src/utils/matchParser.js:27-29 | counting early and solo entries equals counting the player's deaths before 600000 ms and without assists among the events, so flooring to whole minutes loses nothing |
| MatchSummary.EarlyMeansBeforeTenMinutes | src/utils/matchParser.js:19-28 | a death counts as early exactly when it happened before 600000 ms (`floor(t / 60000) < 10`) |
| MatchSummary.AllEventsSnoc | src/utils/matchParser.js:15-16 | the events of one more frame come after those of the earlier frames |
| MatchSummary.EntriesSnoc | src/utils/matchParser.js:16-23 | one more event adds an entry exactly when it is a death of the player |
| MatchSummary.CollectDeaths | src/utils/matchParser.js:16-24 | the inner loop appends the entries of a frame's events to those already collected |
| MatchSummary.AnalyzeDeathEvents | src/utils/matchParser.js:8-32 | `analyzeDeathEvents` returns `DeathPatternOf` of the frames |
| MatchSummary.GetParticipantId | src/utils/matchParser.js:35-39 | null exactly when no participant has the puuid; otherwise the participantId of the first participant that has it |
| MatchSummary.RawKda | src/utils/matchParser.js:50-51 | kills plus assists divided by deaths, by 1 without deaths; never negative |
| MatchSummary.FindByPuuid | src/utils/matchParser.js:43 | missing exactly when no participant has the puuid, else the first participant with it |
| MatchSummary.CsPerMin | src/utils/matchParser.js:46-49 | CS per minute times the game minutes is lane plus neutral minions |
| MatchSummary.SummaryOf | src/utils/matchParser.js:46-73 | the summary holds the raw figures, the scores of `NormalizeStats` with 'MIDDLE' for an empty position, WIN/LOSE, the death pattern of the player's participantId and the rounded minutes, and keeps the position as it was |
| MatchSummary.ParseMatch | src/utils/matchParser.js:42-74 | an error exactly when no participant has the puuid, else `SummaryOf` that participant |
| MatchSummary.ParseMatchUsesParticipantId | src/utils/matchParser.js:59-60 | the death pattern is computed for the participantId `getParticipantId` finds, the same participant `parseMatch` summarises |
| StatNormalizer.CalcRelative | src/utils/statNormalizer.js:36-44 | the score is in -2..2, and 0 for a non-positive average |
| StatNormalizer.CalcRelativeAtAverage | src/utils/statNormalizer.js:36-44 | a figure equal to a positive average scores 0 |
| StatNormalizer.CalcRelativeMonotone | src/utils/statNormalizer.js:36-44 | a larger figure never scores lower against the same positive average |
| StatNormalizer.CalcRelativeBuckets | src/utils/statNormalizer.js:35-43 | each score is exactly its band of the relative difference: at least +50%, +15% up to 50%, strictly within ±15%, -50% (exclusive) to -15%, at most -50% |
| StatNormalizer.TierRow | src/utils/statNormalizer.js:11 | the lower-cased tier's row, else the gold row |
| StatNormalizer.RoleModifier | src/utils/statNormalizer.js:13 | the role's CS modifier, else 0 |
| StatNormalizer.AdjustedAverage | src/utils/statNormalizer.js:16-20 | CS per minute is tier plus champion offset plus role modifier, at least 1; KDA is tier plus champion offset; vision is the tier's |
| StatNormalizer.AdjustedAveragePositive | src/utils/statNormalizer.js:16-20 | with the tables as they are, every adjusted average is positive (CS at least 1, KDA at least 0.4, vision at least 12) |
| StatNormalizer.AhriBenchmarkIsUnlisted | src/constants/championFlags.js:20 | Ahri's zero offsets give the same benchmark as an unlisted champion |
| StatNormalizer.NormalizeStats | src/utils/statNormalizer.js:10-32 | each score is `CalcRelative` of the raw figure against the adjusted average; the flags are the champion's, both false for an unlisted one |
| StatNormalizer.FlagsDoNotAffectScores | src/utils/statNormalizer.js:22-29 | two champions with equal offsets get equal scores whatever their roam and dive flags |
| StatNormalizer.AnalyzeChampion | src/utils/statNormalizer.js:48-60 | a champion row keeps its fields and gains the CS and KDA scores and flags of `NormalizeStats` with vision 0 |
| StatNormalizer.AnalyzeChampionPool | src/utils/statNormalizer.js:47-62 | one analysed row per champion, in order, each keeping the champion and scoring within -2..2 |
| StatNormalizer.SanitizeScore | src/utils/statNormalizer.js:73-77 | a score is replaced by ABOVE_AVG_SKIP exactly when the tier is high and the score is at least 0; otherwise it is kept |
| StatNormalizer.SanitizeRelative | src/utils/statNormalizer.js:66-81 | below master every score is kept; at master and above exactly the non-negative scores become ABOVE_AVG_SKIP; flags and averages are copied |
| MatchSummary.SanitizeForPrompt | src/utils/statNormalizer.js:66-81 | the copy keeps every field of the summary except the scores, which are `SanitizeRelative` |
| ChampionFlags.FlagsOf | src/constants/championFlags.js:7-22 | a champion has flags exactly when listed |
| ChampionFlags.TwelveChampions | src/constants/championFlags.js:8-21 | twelve distinct champions are listed |
| ChampionFlags.OffsetRanges | src/constants/championFlags.js:9-20 | every CS offset is within -0.4..0 and every KDA offset within -0.8..0 |
| ChampionFlags.FlagsSet | src/constants/championFlags.js:9-20 | every listed champion roams or dives; only Akali does both |
| ChampionFlags.AhriOnlyRoams | src/constants/championFlags.js:20 | Ahri has zero offsets and only the roam flag |
| TierExpectations.TierExpectation | src/constants/tierExpectations.js:2-13 | a row exists exactly for the ten lower-case tier keys |
| TierExpectations.TiersStrictlyIncreasing | src/constants/tierExpectations.js:3-12 | a higher tier expects strictly more CS, vision and KDA |
| TierExpectations.TierValuesPositive | src/constants/tierExpectations.js:3-12 | every figure is at least iron's (4.5, 12, 1.2) |
| TierExpectations.GoldFallbackIsGoldRow | src/constants/tierExpectations.js:6 | the fallback is the gold row |
| TierExpectations.RoleCsModifier | src/constants/tierExpectations.js:15-21 | a modifier exists exactly for the five positions and lies within -4..0 |
| TierExpectations.IronUtilityBelowOne | src/constants/tierExpectations.js:3-17 | iron's CS expectation plus the support modifier is 0.5, which the `Math.max(1, …)` floor lifts |
| PlaystyleProfiler.TierBenchmark | src/services/playstyleProfiler.js:8-19 | a benchmark exists exactly for the ten upper-case tier keys |
| PlaystyleProfiler.BenchmarksOrdered | src/services/playstyleProfiler.js:9-18 | a higher tier expects strictly more CS, vision and KDA per minute and strictly fewer deaths |
| PlaystyleProfiler.BenchmarksPositive | src/services/playstyleProfiler.js:9-18 | every benchmark figure is at least iron's, so every division by one is defined |
| PlaystyleProfiler.GoldFallbackIsGoldRow | src/services/playstyleProfiler.js:77-78 | the fallback benchmark is the GOLD row |
| PlaystyleProfiler.ScoreValue | src/services/playstyleProfiler.js:25-38 | a score is always within 1..10 |
| PlaystyleProfiler.ScoreAtBenchmark | src/services/playstyleProfiler.js:22-23 | the benchmark itself scores 5 |
| PlaystyleProfiler.ScoreValueMonotone | src/services/playstyleProfiler.js:25-38 | a larger figure never scores lower against the same benchmark |
| PlaystyleProfiler.ScoreValueSaturates | src/services/playstyleProfiler.js:31-37 | at least 1.9 times the benchmark scores 10; under 0.3 times it scores 1 |
| PlaystyleProfiler.FirstNamed | src/services/playstyleProfiler.js:52-55 | the result is the English tier of the first table entry whose Korean name occurs in the rank text, and GOLD when none occurs |
| PlaystyleProfiler.TablesMapToBenchmarks | src/services/playstyleProfiler.js:45-50 | the table as written lists the tiers in benchmark order; the corrected one swaps MASTER and GRANDMASTER |
| PlaystyleProfiler.ExtractTierAsWritten | src/services/playstyleProfiler.js:44-56 | `extractTier` with the table in its written order always yields a benchmark key |
| PlaystyleProfiler.ExtractTier | src/services/playstyleProfiler.js:44-56 | the corrected extraction (GRANDMASTER tried before MASTER) always yields a benchmark key |
| PlaystyleProfiler.MarksDistinguish | src/services/playstyleProfiler.js:45-50 | each Korean tier name has a character that no name after it in the corrected table has |
| PlaystyleProfiler.ExtractTierReadsName | src/services/playstyleProfiler.js:52-55 | a rank text that starts with a tier's Korean name and has no other tier character reads back as that tier |
| PlaystyleProfiler.GrandmasterReadAsMaster | src/services/playstyleProfiler.js:48-53 | as written, a text starting with '그랜드마스터' is read as MASTER, because '마스터' is tried first and occurs inside it |
| PlaystyleProfiler.ClassicMatches | src/services/playstyleProfiler.js:69-71 | missing details and non-classic games are dropped; every classic game kept; nothing else added |
| PlaystyleProfiler.SoloKillEstimate | src/services/playstyleProfiler.js:92 | the estimate is kills minus floor(0.3 × assists), never below 0 or above the kills |
| PlaystyleProfiler.PerMinute | src/services/playstyleProfiler.js:100-102 | a positive number of minutes gives the amount divided by the minutes; otherwise 0 |
| PlaystyleProfiler.RecordOf | src/services/playstyleProfiler.js:82-113 | present exactly when the player took part; it copies (`CopiesParticipant`) the first participant with the puuid: kills, deaths, assists, team, champion, position, result, vision score and champion damage, with minutes = duration / 60, CS and vision per minute as those totals over the minutes (0 for a zero-length game), zero kill participation and team kills, and the solo-kill estimate |
| PlaystyleProfiler.Played | src/services/playstyleProfiler.js:81-115 | the games the player took part in, among the classic ones |
| PlaystyleProfiler.ParticipantData | src/services/playstyleProfiler.js:81-115 | one record per game the player took part in, in order (`filter(Boolean)`) |
| PlaystyleProfiler.MemberKillsWithinTeam | src/services/playstyleProfiler.js:121-123 | a participant's kills are part of the team's kills |
| PlaystyleProfiler.WithKillParticipation | src/services/playstyleProfiler.js:120-126 | team kills are the sum over the participant's team; participation is the rounded percentage, 0 without team kills, within 0..100 when the player's kills and assists fit in the team's; nothing else changes |
| PlaystyleProfiler.FillKillParticipation | src/services/playstyleProfiler.js:118-127 | the loop updates record i in place with the team kills of game i and changes nothing else |
| PlaystyleProfiler.PairedAsWritten | src/services/playstyleProfiler.js:118-127 | as written, record i is paired with classic match i, even when earlier classic games did not include the player |
| PlaystyleProfiler.Paired | src/services/playstyleProfiler.js:118-127 | corrected: record i is paired with the i-th game the player took part in |
| PlaystyleProfiler.PairedKillsWithinTeam | src/services/playstyleProfiler.js:121-126 | with the corrected pairing every player's kills are within the team kills |
| PlaystyleProfiler.KillParticipationMisPaired | src/services/playstyleProfiler.js:115-126 | a classic game without the player followed by one with a lone kill: as written the team kills are 0 and participation 0; corrected it is 100 |
| PlaystyleProfiler.AveragesOf | src/services/playstyleProfiler.js:137-147 | kills, deaths, assists, solo kills, CS per minute, vision score and vision per minute are the means over the records; damage and kill participation are their rounded means; the death average is 0 exactly when no record has deaths |
| PlaystyleProfiler.Roaming | src/services/playstyleProfiler.js:163-164 | within 1..10; 1 without assists; 10 with assists only |
| PlaystyleProfiler.LateGameSkill | src/services/playstyleProfiler.js:167-172 | within 1..10, and 5 with fewer than three games over 30 minutes |
| PlaystyleProfiler.LateGameAllWon | src/services/playstyleProfiler.js:169-171 | three or more late games, all won, score 10 |
| PlaystyleProfiler.LateGameAllLost | src/services/playstyleProfiler.js:169-171 | three or more late games, all lost, score 1 |
| PlaystyleProfiler.AddGame | src/services/playstyleProfiler.js:178-199 | a champion seen before gets its entry with the game counted in (`Counted`), a new champion an entry started from zeros and this game's role (`Fresh`) and appended last; every other entry and the key order are unchanged |
| PlaystyleProfiler.ChampMapOf | src/services/playstyleProfiler.js:177-200 | for every champion, `Tallies`: an entry exactly when played, holding its game and win counts, its summed CS per minute, its kill, death, assist and damage sums over its games, and the role of its first game |
| PlaystyleProfiler.AddGameTalliesAll | src/services/playstyleProfiler.js:179-199 | one more game keeps `Tallies` for every champion at once |
| PlaystyleProfiler.CountedSums | src/services/playstyleProfiler.js:189-198 | counting one game in adds its kills, deaths, assists and damage to the sums and keeps the first game's role |
| PlaystyleProfiler.AddGameTallies | src/services/playstyleProfiler.js:179-199 | one more game keeps a champion's `Tallies` (counts, sums and first role) equal to those over the games so far |
| PlaystyleProfiler.AddGameTalliesOwn | src/services/playstyleProfiler.js:179-199 | the game's own champion: its entry after the game holds the counts and sums including that game, and still the role of its first game |
| PlaystyleProfiler.ChampMapWellFormed | src/services/playstyleProfiler.js:179-193 | every entry has at least one game, no more wins than games, and sits under its own champion |
| PlaystyleProfiler.BuildChampMap | src/services/playstyleProfiler.js:177-200 | the loop builds `ChampMapOf` the records |
| PlaystyleProfiler.PoolEntryOf | src/services/playstyleProfiler.js:205-216 | an entry keeps champion, games and role; the win rate is `Percent(wins, games)`, within 0..100 and 100 when all won; average CS is CS over games; average damage is damage over games, rounded; KDA is that of the summed kills, deaths and assists |
| PlaystyleProfiler.ByGames | src/services/playstyleProfiler.js:202-203 | a permutation of the map's values, sorted by games, most first |
| PlaystyleProfiler.ByGamesStable | src/services/playstyleProfiler.js:203 | the sort is stable: entries with equal games keep their first-seen order |
| PlaystyleProfiler.TopByGames | src/services/playstyleProfiler.js:202-204 | the first three (or fewer) of the sorted values, each one of the map's values |
| PlaystyleProfiler.ChampionPool | src/services/playstyleProfiler.js:202-216 | at most three entries, by games descending, each the pool entry of a top champion |
| PlaystyleProfiler.CountRole | src/services/playstyleProfiler.js:223-225 | a known role's count grows by one and nothing else changes; an unknown role changes nothing |
| PlaystyleProfiler.RoleCountsOf | src/services/playstyleProfiler.js:221-226 | the counts have exactly the five position keys |
| PlaystyleProfiler.GamesIn | src/services/playstyleProfiler.js:222-226 | a role is played in at most all of the games |
| PlaystyleProfiler.RoleCountsAreCounts | src/services/playstyleProfiler.js:221-226 | each position's count is the number of games in that position |
| PlaystyleProfiler.CountRoles | src/services/playstyleProfiler.js:221-226 | the counting loop computes `RoleCountsOf` |
| PlaystyleProfiler.RoleDistribution | src/services/playstyleProfiler.js:227-230 | the same keys, each with its rounded percentage of the games |
| PlaystyleProfiler.BenchmarkOf | src/services/playstyleProfiler.js:77-78 | a benchmark tier key gets its own row, any other text the GOLD row; all figures positive |
| PlaystyleProfiler.ProfilePlaystyle | src/services/playstyleProfiler.js:67-255 | `profilePlaystyle` as written returns `ProfileOf`: the written tier extraction and the pairing of record i with classic match i |
| PlaystyleProfiler.CompleteRecords | src/services/playstyleProfiler.js:80-127 | the record-building and kill-participation loops produce `PairedAsWritten` of the classic matches |
| PlaystyleProfiler.ProfilesOfRecords | src/services/playstyleProfiler.js:67-255 | with classic games, the as-written and corrected profiles are the same assembly over records of equal length (one per game played) that differ only in kill participation and team kills |
| PlaystyleProfiler.PlayedAll | src/services/playstyleProfiler.js:81-115 | when the player is in every classic game, no game is dropped |
| PlaystyleProfiler.ProfileAsIntended | src/services/playstyleProfiler.js:67-255 | when the player is in every classic game and the rank's tier is read the same by both extractions, the as-written profile is the corrected one |
| PlaystyleProfiler.ProfileWithoutClassicGames | src/services/playstyleProfiler.js:257-278 | without classic games the profile has no games, win rate 0, an empty pool, every score 5 and every position at 0 % |
| PlaystyleProfiler.NoClassicMatches | src/services/playstyleProfiler.js:69-71 | details with no classic game keep none |
| PlaystyleProfiler.ProfileScores | src/services/playstyleProfiler.js:129-172 | for any non-empty records (as-written or corrected), the total is the number of records; win rate within 0..100; all five scores within 1..10; the KDA is 'Perfect' exactly when no game had deaths |
| PlaystyleProfiler.PoolEntryMatchesGames | src/services/playstyleProfiler.js:205-216 | each pool entry's games, win rate, average CS, average damage and role are those of its champion over the records (damage summed over its games, role of its first game) |
| PlaystyleProfiler.ProfilePool | src/services/playstyleProfiler.js:202-216 | for any non-empty records, at most three pool entries, games descending, each with its champion's game count, win rate from its wins, average CS, average damage from its summed damage, and its first game's role |
| PlaystyleProfiler.DistributionGet | src/services/playstyleProfiler.js:228-230 | the percentage of a position is its count's rounded share of the total |
| PlaystyleProfiler.ProfileRoles | src/services/playstyleProfiler.js:221-230 | for any non-empty records, the distribution has the five positions, each the rounded percentage of the games played in it, within 0..100 |
| PlaystyleProfiler.NoRolesCounted | src/services/playstyleProfiler.js:221 | every position starts at a count of 0 |
| PlaystyleProfiler.SortedAmongValues | src/services/playstyleProfiler.js:202-203 | every sorted entry is one of the champion map's values |
| PlaystyleProfiler.WholeShareScoresTen | src/services/playstyleProfiler.js:170-171 | a late-game win share of all games scores 10 |
| RiotService.SoloEntry | src/services/riotService.js:225 | the first entry of the solo queue, present exactly when some entry is of that queue |
| RiotService.WinRate | src/services/riotService.js:229-232 | the rounded percentage of wins among wins and losses, within 0..100; 0 without games and 100 without losses |
| RiotService.RankSummaryOf | src/services/riotService.js:222-241 | unranked exactly when the list is missing or has no solo entry; otherwise the solo entry's Korean tier name, division, LP, win rate and games, with a missing count read as 0 |
| RiotService.UnrankedCases | src/services/riotService.js:223-227 | a missing list, an empty one, or one without a solo-queue entry gives '언랭크' |
| RiotService.TierNamesTranslated | src/services/riotService.js:234-240 | every tier code is shown by its Korean name; a code the table lacks is shown as it is |
| RiotService.TierKoTable | src/services/riotService.js:234-238 | the tier table has distinct codes, each with a non-empty Korean name other than the code |
| RiotService.RankLineReadsBack | src/services/riotService.js:222-241 | the rank line of any tier reads back as that tier under the profiler's corrected tier extraction |
| RiotService.GrandmasterLineReadAsMaster | src/services/riotService.js:237-241 | as written, the profiler reads a grandmaster's rank line as MASTER |
| RiotService.RecentMatchKda | src/services/riotService.js:357-360 | 'Perfect' exactly when there are no deaths; otherwise the ratio times the deaths is kills plus assists |
| EmojiEnlarger.ParseCustomEmoji | src/events/emojiEnlarger.js:25-29 | a match has a word-character name and a digit id |
| EmojiEnlarger.Extension | src/events/emojiEnlarger.js:30 | 'gif' exactly for an animated emoji, 'png' exactly for a still one |
| EmojiEnlarger.TagParses | src/events/emojiEnlarger.js:25-29 | every well-formed emoji is recognised in its own tag, with its animation flag, name and id |
| EmojiEnlarger.ParsedIsTag | src/events/emojiEnlarger.js:25-29 | a message matches only when it is exactly the tag of the emoji read from it |
| EmojiEnlarger.CustomEmojiUrl | src/events/emojiEnlarger.js:25-31 | the URL is the CDN address of the id with '.gif' when animated, '.png' otherwise, at size 256 |
| EmojiEnlarger.CodePointHex | src/events/emojiEnlarger.js:107 | `toString(16)`: non-empty lower-case hex digits without a leading zero (except for 0 itself) that read back (base 16) as the code point |
| EmojiEnlarger.VariationSelectorHex | src/events/emojiEnlarger.js:108 | the text 'fe0f' is the hex of U+FE0F and of no other code point |
| EmojiEnlarger.Kept | src/events/emojiEnlarger.js:106-108 | the code points of the emoji, in order, with every U+FE0F and nothing else removed |
| EmojiEnlarger.Components | src/events/emojiEnlarger.js:106-108 | one component per kept code point, in order, each its hex and none 'fe0f' |
| EmojiEnlarger.EmojiCodePoints | src/events/emojiEnlarger.js:104-114 | null exactly when no code point but variation selectors is left; otherwise the kept code points' hex texts joined by '-' (read back by `CodePointsReadBack`) |
| EmojiEnlarger.CodePointsReadBack | src/events/emojiEnlarger.js:104-110 | the file name split at '-' gives back the components, each reading back as its code point |
| MusicService.DurationFields | src/services/musicService.js:407-414 | three fields exactly from an hour on, two below an hour |
| MusicService.DigitsHaveNoColon | src/services/musicService.js:412-414 | neither a number's digits nor a padded field holds ':' |
| MusicService.Pad2Width | src/services/musicService.js:412-414 | `padStart(2, '0')` of a number below 100 is two characters wide |
| MusicService.JoinSplitFields | src/services/musicService.js:412-414 | fields without ':' joined by ':' split back into themselves |
| MusicService.LongRoundTrip | src/services/musicService.js:411-412 | `h:mm:ss` reads back as h·3600 + m·60 + s |
| MusicService.ShortRoundTrip | src/services/musicService.js:414 | `m:ss` reads back as m·60 + s |
| MusicService.SplitSeconds | src/services/musicService.js:407-409 | hours, minutes and seconds recombine into the input, with minutes below 60 |
| MusicService.DurationRoundTrip | src/services/musicService.js:405-415 | every positive length reads back from its text as itself |
| MusicService.DurationShape | src/services/musicService.js:405-415 | a positive length is never 'LIVE'; its text splits at ':' into its fields, all but the first two digits wide |
| MusicService.LiveWithoutLength | src/services/musicService.js:406 | a missing or zero length is shown as 'LIVE' |
| MusicService.Either | src/services/musicService.js:164 | JavaScript `or` on strings: a when a is a non-empty string, else b |
| MusicService.OrElse | src/services/musicService.js:125-126 | the string when it is non-empty, else the fallback |
| MusicService.BuildSongInfo | src/services/musicService.js:157-166 | the URL is the page URL, else the plain URL, else the watch URL of the id, never empty; the channel is the channel, else the uploader, else 'Unknown'; the title is kept; the seconds are the length or 0; the thumbnail is the thumbnail, else the first of the thumbnails, else none |
| MusicService.SongDurationsAgree | src/services/musicService.js:161-162 | the seconds are 0 exactly when the text is 'LIVE', and otherwise the text reads back as the seconds |
| MusicService.FirstOfficial | src/services/musicService.js:124-139 | the first result whose lower-cased title or channel mentions a marker, or none when none does |
| MusicService.FirstPlayable | src/services/musicService.js:145 | the first result with a length in 1..3600 seconds, or none when none has one |
| MusicService.PickVideo | src/services/musicService.js:122-152 | the pick is one of the results; it is playable whenever some result is; with none playable it is the first result |
| MusicService.OfficialPreferred | src/services/musicService.js:141-151 | a playable official-looking result is picked first; without one, a playable first result is picked |
| MusicService.FallbackIsFirstPlayable | src/services/musicService.js:144-146 | when the preferred video is not playable, the first playable result is picked |
| MusicService.WithQueue | src/services/musicService.js:21-33 | the guild then has a queue: the existing one untouched, else a new empty queue; no other guild changes |
| MusicService.WithSong | src/services/musicService.js:38-42 | the song is appended to the guild's queue; its playing flag and every other guild are untouched |
| MusicService.WithQueueIdempotent | src/services/musicService.js:21-33 | getting a queue twice is getting it once |
| MusicService.SongsQueueInOrder | src/services/musicService.js:38-42 | two songs added in turn sit at the end of the queue in that order |
| MusicService.MusicQueues.constructor | src/services/musicService.js:16 | no guild has a queue at first |
| MusicService.MusicQueues.GetQueue | src/services/musicService.js:21-33 | the store becomes `WithQueue`; the result is the guild's queue, empty when it was new |
| MusicService.MusicQueues.AddSong | src/services/musicService.js:38-42 | the store becomes `WithSong`; the returned length counts the song, which is last after the earlier songs |
| MusicService.MusicQueues.GetQueueInfo | src/services/musicService.js:348-354 | the store becomes `WithQueue`; the result copies the guild's songs and playing flag |
| MusicService.PickBestResult | src/services/musicService.js:122-152 | the song built from the picked video |
| AiSummarizer.FormatForDiscord | src/services/aiSummarizer.js:98-148 | the embed is `EmbedOf`: the game's title prefix before the patch title, the patch link, the parsed '## ' section fields, the game's colour, footer and thumbnail |
| AiSummarizer.FormattersAgree | src/services/aiSummarizer.js:98-148 | the three formatters give the same fields, link, footer and time for the same summary, and the same patch title after their prefixes |
| AiSummarizer.GamesTellApart | src/services/aiSummarizer.js:136-139 | two games share a colour, or a title prefix, only when they are the same game |
| AiSummarizer.CollapseSpaces | src/services/aiSummarizer.js:89 | no longer than the input, empty only for empty input, starting with whitespace exactly when the input does, and `Collapsed`: its only whitespace is single spaces, never two in a row |
| AiSummarizer.RunBecomesOneSpace | src/services/aiSummarizer.js:89 | `replace(/\s+/g, ' ')`: a maximal whitespace run between visible text (or the ends) becomes exactly one space, with the text on either side collapsed on its own |
| AiSummarizer.CollapseAppend | src/services/aiSummarizer.js:89 | text ending in a visible character collapses independently of what follows it |
| AiSummarizer.CollapseRun | src/services/aiSummarizer.js:89 | a whitespace run at the start, before visible text or the end, becomes one space |
| AiSummarizer.TrimStartAppend | src/services/aiSummarizer.js:89 | skipping leading whitespace stops inside text that ends in a visible character |
| AiSummarizer.TrimStartBlank | src/services/aiSummarizer.js:89 | skipping leading whitespace removes a whole run and nothing of the visible text after it |
| AiSummarizer.VisibleAppend | src/services/aiSummarizer.js:89 | the non-whitespace characters of a concatenation are those of its parts |
| AiSummarizer.VisibleBlank | src/services/aiSummarizer.js:89 | a blank text has no visible characters |
| AiSummarizer.CollapseKeepsVisible | src/services/aiSummarizer.js:89 | collapsing whitespace keeps every non-whitespace character, in order |
| AiSummarizer.CollapsedUnchanged | src/services/aiSummarizer.js:89 | a text already collapsed is left as it is |
| AiSummarizer.CollapsedTail | src/services/aiSummarizer.js:89 | the rest of a collapsed text is collapsed |
| AiSummarizer.LoneSpaceTrimmed | src/services/aiSummarizer.js:89 | trimming a text that starts with a single whitespace drops just that one |
| AiSummarizer.CollapseIdempotent | src/services/aiSummarizer.js:89 | collapsing twice is collapsing once |
| AiSummarizer.PreviewCut | src/services/aiSummarizer.js:88 | `substring(0, 1500)`: a prefix of the content, exactly 1500 characters long when the content is at least that long, the whole content otherwise |
| AiSummarizer.Preview | src/services/aiSummarizer.js:88-89 | at most 1500 characters, collapsed, without line breaks, and with the same visible characters as `PreviewCut` |
| AiSummarizer.PreviewRun | src/services/aiSummarizer.js:88-89 | each whitespace run of the cut shows as exactly one space in the preview, between the collapsed text on either side |
| AiSummarizer.FiveLinesSplit | src/services/aiSummarizer.js:91-100 | the fallback's shape splits into the header, a blank line, the preview, a blank line and the closing |
| AiSummarizer.FiveLinesOneField | src/services/aiSummarizer.js:91-133 | that shape gives exactly one field, named after the header |
| AiSummarizer.FiveLinesSection | src/services/aiSummarizer.js:91-122 | that shape gives one section: the header's title over the other four lines |
| AiSummarizer.HeaderOpens | src/services/aiSummarizer.js:106-111 | a '## ' line opens a section titled by the rest of the line |
| AiSummarizer.BodyOpensNothing | src/services/aiSummarizer.js:106-115 | lines that do not start with '## ' open no section |
| AiSummarizer.FallbackIsOneField | src/services/aiSummarizer.js:87-133 | the fallback summary formats as exactly one field, titled '📋 패치노트 요약 (자동 요약 실패 - 원문 일부)' |
| SectionFields.CloseFrom | src/services/claudeService.js:143 | the lazy `.+?` match: the first `]**` at or after k, with no line terminator in the title before it |
| SectionFields.OpeningOf | src/services/claudeService.js:143-149 | Markdown: a header exactly when the line starts with '## ', titled by the trimmed rest; bracket style: the line starts with `**[` and holds `**[title]**` with a non-empty title, and the text after it is trimmed |
| SectionFields.CloseFromFinds | src/services/claudeService.js:143 | the search stops at the first `]**` whose title holds no line terminator |
| SectionFields.BracketHeaderOpens | src/services/claudeService.js:143-149 | `**[t]**rest`, t without ']' or a line terminator, opens a section titled t whose first line is the trimmed rest |
| SectionFields.Open | src/services/claudeService.js:148-149 | the new section has the header's title; its content is empty, or the text after the header and a line break |
| SectionFields.Flush | src/services/claudeService.js:145-157 | a section is pushed exactly when it has a title |
| SectionFields.Append | src/services/claudeService.js:150-151 | a body line keeps the title; a blank line changes nothing |
| SectionFields.RunTitled | src/services/claudeService.js:145-157 | every pushed section has a non-empty title |
| SectionFields.RunHeader | src/services/claudeService.js:144-149 | a header line pushes the current section and starts the new one |
| SectionFields.RunOther | src/services/claudeService.js:150-151 | any other line is appended to the current section |
| SectionFields.ParseSections | src/services/claudeService.js:138-157 | the loop over the lines computes `SectionsOf` |
| SectionFields.Clip | src/services/claudeService.js:164-166 | at most 1024 characters; a short value is kept; a long one keeps its first 1021 characters and ends in '...' |
| SectionFields.Fields | src/services/claudeService.js:159-167 | at most one field per section, each value non-empty and at most 1024 characters |
| SectionFields.ParseToFields | src/services/claudeService.js:137-168 | the shared parse loop, for either header style, computes the fields of `SectionsOf` |
| SectionFields.TitlesAppend | src/services/claudeService.js:145-157 | the titles of two runs of sections are the titles of each |
| SectionFields.RunTitles | src/services/claudeService.js:142-157 | the section titles are the non-empty header titles of the lines, in order, duplicates kept |
| SectionFields.FlushTitles | src/services/claudeService.js:145-147 | pushing contributes the current title exactly when it is non-empty |
| SectionFields.UntitledContentIgnored | src/services/claudeService.js:140-151 | text before the first header is never emitted |
| SectionFields.PreambleDropped | src/services/claudeService.js:140-153 | lines before the first header do not change the sections |
| SectionFields.BodyCollected | src/services/claudeService.js:150-151 | a section collects exactly its non-blank lines, each with a line break, up to the next header |
| SectionFields.OneSection | src/services/lolAnalyzer.js:172-190 | a preamble, one header and a body give exactly one section: the header's title over the body's non-blank lines |
| SectionFields.BodyTextNotBlank | src/services/lolAnalyzer.js:183-193 | the collected text is blank exactly when every body line is |
| SectionFields.FieldsSnoc | src/services/lolAnalyzer.js:192-200 | one more section adds one field, its title over its clipped trimmed content, exactly when its content is not blank |
| SectionFields.FieldsEmpty | src/services/lolAnalyzer.js:192-193 | there are no fields exactly when every section is blank |
| SectionFields.FieldsKeepAll | src/services/lolAnalyzer.js:192-195 | with no blank section there is one field per section, named by its title, in order |
| SectionFields.FieldValue | src/services/lolAnalyzer.js:195-199 | the field of a section is its title over its trimmed content, clipped at 1024 |
| ClaudeService.ParseAnalysisToFields | src/services/claudeService.js:137-168 | the Claude parser gives the fields of the bold-bracket sections of the answer, each value non-empty and at most 1024 characters |
| CoachAnalyzer.ParseCoachingToFields | src/services/coachAnalyzer.js:218-247 | the coaching parser gives the fields of the '## ' sections of the answer, each value non-empty and at most 1024 characters |
| LolAnalyzer.ParseAnalysisToFields | src/services/lolAnalyzer.js:172-201 | the match-analysis parser gives the fields of the '## ' sections of the answer, each value non-empty and at most 1024 characters |
| ClaudeService.Flagged | src/services/claudeService.js:28-29 | `Inappropriate.filter(w => text.includes(w))`: the listed words the text contains, in list order, and only those |
| ClaudeService.ValidateResponse | src/services/claudeService.js:24-36 | the text is returned unchanged; for master, grandmaster or challenger in any letter case the warnings are exactly the inappropriate words found, in list order, and otherwise none |
| ClaudeService.ChampionLines | src/services/claudeService.js:127-128 | one line per champion, numbered from 1 in list order, `n. name (games판)` |
| ClaudeService.ChampionLineIsOneLine | src/services/claudeService.js:128 | a champion line is one non-empty line starting with a digit |
| ClaudeService.ListingLines | src/services/claudeService.js:127-133 | an empty list shows '데이터 없음'; otherwise the listing splits into the champion lines |
| ClaudeService.ListingOpensNothing | src/services/claudeService.js:127-133 | no line of the listing opens a section |
| ClaudeService.ListingBodyLines | src/services/claudeService.js:127-133 | the listing's lines are the champion lines, or '데이터 없음', none a header, and not blank together |
| ClaudeService.HangulTitle | src/services/claudeService.js:131-132 | a title of Hangul and spaces is a plain bracket title |
| ClaudeService.MetaLiterals | src/services/claudeService.js:131-132 | the two fallback titles are plain bracket titles and the note is one trimmed line within the field limit |
| ClaudeService.TrimLine | src/services/claudeService.js:148-149 | a trimmed text keeps itself after a leading space or a trailing line break is trimmed |
| ClaudeService.HeadedLines | src/services/claudeService.js:131-133 | the fallback text splits into its two header lines followed by the listing's lines |
| ClaudeService.FirstHeaderRun | src/services/claudeService.js:143-149 | the first header opens its section with the trimmed note as content |
| ClaudeService.SecondHeaderRun | src/services/claudeService.js:144-157 | the second header pushes the first section and collects the body under its own title |
| ClaudeService.HeadedSections | src/services/claudeService.js:137-157 | two headers and a body give exactly those two sections |
| ClaudeService.MetaSections | src/services/claudeService.js:126-134 | the fallback coaching text parses into '성향 분석' with its note and '모스트 챔피언' with the listing |
| ClaudeService.TwoFields | src/services/claudeService.js:159-167 | two non-blank sections give two fields, titles over their clipped trimmed contents |
| ClaudeService.FallbackMetaFields | src/services/claudeService.js:126-168 | the fallback coaching text always shows as exactly two fields: the note, then the champion listing |
| CoachAnalyzer.TablesWellFormed | src/services/coachAnalyzer.js:252-297 | every table has each code once and only non-empty role, location and death labels |
| CoachAnalyzer.LocationTable | src/services/coachAnalyzer.js:253-261 | the location codes are distinct and each label is non-empty and differs from its code |
| CoachAnalyzer.DeathContextTable | src/services/coachAnalyzer.js:266-271 | the death-context codes are distinct and each label is non-empty and differs from its code |
| CoachAnalyzer.RoleTableValid | src/services/coachAnalyzer.js:276-284 | the role codes, the empty one included, are distinct with non-empty labels |
| CoachAnalyzer.MonsterTableValid | src/services/coachAnalyzer.js:289-295 | the monster codes are distinct |
| CoachAnalyzer.UnknownCodesPassThrough | src/services/coachAnalyzer.js:252-297 | a code missing from its table is shown as it is |
| CoachAnalyzer.LocationRow | src/services/coachAnalyzer.js:253-261 | every location the timeline classifier can produce has its row in the table |
| CoachAnalyzer.DeathContextRow | src/services/coachAnalyzer.js:266-271 | every death context the classifier can produce has its row in the table |
| CoachAnalyzer.EveryLocationLabelled | src/services/coachAnalyzer.js:252-263 | every classified location is shown by its Korean label, never by its raw code |
| CoachAnalyzer.EveryDeathContextLabelled | src/services/coachAnalyzer.js:265-273 | every classified death context is shown by its Korean label, never by its raw code |
| CoachAnalyzer.EmptyRoleLabelled | src/services/coachAnalyzer.js:282-285 | the empty role and 'UNKNOWN' are both shown as '알 수 없음' |
| EventService.EventId | src/services/eventService.js:38 | an event id starts with 'evt_' |
| EventService.NewEvent | src/services/eventService.js:40-54 | a new event has no participants, is not notified, repeats 'none' when no repeat is given, and keeps the given id, guild, time, title and description |
| EventService.IdsAppend | src/services/eventService.js:68 | the ids of two lists are the ids of each |
| EventService.Toggled | src/services/eventService.js:68-73 | a listed user is spliced out at their index; anyone else is appended at the end |
| EventService.IdsListed | src/services/eventService.js:68 | `findIndex` finds the user exactly when the user's id is listed |
| EventService.ToggleFlips | src/services/eventService.js:63-77 | a click keeps the ids distinct, flips whether the user is listed, and leaves every other user's sign-up as it was |
| EventService.LeaveFlips | src/services/eventService.js:69-70 | leaving keeps the ids distinct, unlists the user and no one else |
| EventService.JoinFlips | src/services/eventService.js:71-72 | joining keeps the ids distinct, lists the user and changes no one else |
| EventService.ToggleTwiceNewcomer | src/services/eventService.js:68-73 | a newcomer who clicks twice leaves the list exactly as it was |
| EventService.LeaveUnlists | src/services/eventService.js:68-70 | after leaving, `findIndex` no longer finds the user |
| EventService.ToggleTwiceMember | src/services/eventService.js:68-73 | a member who clicks twice keeps the same sign-ups but moves to the end |
| EventService.MoveToEnd | src/services/eventService.js:70-72 | removing one entry and appending one with the same id keeps the ids and puts that id last |
| EventService.Step | src/services/eventService.js:184-268 | an event is reminded exactly when its start is more than 4 and at most 6 minutes away and it was not notified, and is then marked notified; a notified event more than 30 minutes past moves on a day (daily) or a week (weekly) and is re-armed; anything else is unchanged |
| EventService.RemindOnce | src/services/eventService.js:190-244 | an event once reminded is not reminded again |
| EventService.RolloverRearms | src/services/eventService.js:249-266 | a notified repeating event moves on by exactly its period, re-armed, with its participants kept |
| EventService.MissedReminderStays | src/services/eventService.js:249-267 | an event past its window that was never notified stays as it is |
| EventService.GuildEvents | src/services/eventService.js:93-98 | the guild's events, exactly those, each as often as stored, sorted by start time |
| EventService.NotifyOne | src/services/eventService.js:184-268 | one step of the pass on one event, and whether it changed it |
| EventService.EventStore.constructor | src/services/eventService.js:20 | the store starts empty |
| EventService.EventStore.Lookup | src/services/eventService.js:103-106 | an event is found exactly when its id is stored |
| EventService.EventStore.CreateEvent | src/services/eventService.js:36-58 | the new event is stored under 'evt_' and the time, replacing nothing else, and can be looked up |
| EventService.EventStore.ToggleParticipant | src/services/eventService.js:63-77 | null and no change for an unknown id; otherwise the event with the toggled participants is stored back and returned |
| EventService.EventStore.DeleteEvent | src/services/eventService.js:82-88 | true exactly when the id was stored; afterwards it is not |
| EventService.EventStore.CheckAndNotify | src/services/eventService.js:179-272 | every stored event takes one step, the ids stay as they were, the reminded ids are `RemindedIds`, and the store is saved exactly when some event changed |
| EventService.SameKeys | src/services/eventService.js:184 | updating values in place keeps the ids |
| EventService.PassStep | src/services/eventService.js:184-268 | the loop's invariant survives one more event |
| EventService.RemindedSnoc | src/services/eventService.js:184-246 | one more event adds its id to the reminders exactly when it is reminded |
| EventService.ReplaceChanges | src/services/eventService.js:245-264 | the store differs from the original after an update exactly when it already did or that entry changed |
| EventService.RemindedIdsAre | src/services/eventService.js:184-246 | an id is reminded exactly when its event is inside the reminder window and was not notified |
| LevelService.XpForNextLevel | src/services/levelService.js:53-55 | the next level needs more XP than the current one |
| LevelService.XpForLevelMonotone | src/services/levelService.js:48-51 | higher levels need more XP, strictly |
| LevelService.LevelFrom | src/services/levelService.js:44-46 | the level reached from a lower bound is the one whose threshold band holds the XP |
| LevelService.CalculateLevel | src/services/levelService.js:44-46 | floor(0.1·√xp): the XP is at least the level's threshold and below the next one's |
| LevelService.LevelIsUnique | src/services/levelService.js:44-51 | the level is the only one whose band holds the XP |
| LevelService.LevelAtThreshold | src/services/levelService.js:44-51 | a level's own threshold computes back to that level |
| LevelService.CalculateLevelMonotone | src/services/levelService.js:44-46 | more XP never gives a lower level |
| LevelService.XpGain | src/services/levelService.js:89 | each gain is within 15..25 |
| LevelService.EveryGainReachable | src/services/levelService.js:89 | every gain from 15 to 25 comes from some random draw |
| LevelService.Award | src/services/levelService.js:76-100 | the message count always grows by one; within 60 seconds of the last award nothing else changes; otherwise the gain is added, the time recorded, the level recomputed, and a level-up reported exactly when the level rose |
| LevelService.AwardKeepsLevels | src/services/levelService.js:89-96 | a level consistent with the XP stays so, never drops, and rises exactly when the XP reaches the next threshold |
| LevelService.OneAwardPerCooldown | src/services/levelService.js:83-86 | a second message within the cooldown after an award earns nothing |
| LevelService.LevelStore.constructor | src/services/levelService.js:26 | no guild has data at first |
| LevelService.LevelStore.GuildUsers | src/services/levelService.js:120 | a guild without data has no users |
| LevelService.LevelStore.UserData | src/services/levelService.js:106-116 | a stored user's record, else the zero record |
| LevelService.LevelStore.AddXp | src/services/levelService.js:60-101 | the user's stored record (or a fresh zero one) takes one `Award` and is stored back; nothing else changes |
| LevelService.AddXpTouchesOneUser | src/services/levelService.js:60-101 | every other user of every guild keeps their record |
| LevelService.Entries | src/services/levelService.js:122-123 | one entry per user, carrying the id with the record |
| LevelService.RearrangedEntries | src/services/levelService.js:122-124 | any rearrangement of the entries still pairs each id with its own record and lists every user |
| LevelService.ByXp | src/services/levelService.js:122-124 | every user once, each with their own record, sorted by XP, most first |
| LevelService.ByXpStable | src/services/levelService.js:124 | the sort is stable: users with equal XP keep their stored order |
| LevelService.KnownUserListed | src/services/levelService.js:132-136 | a stored user appears in the sorted list |
| LevelService.Leaderboard | src/services/levelService.js:118-126 | the first `limit` users (or all) of the sorted list, each with their own record |
| LevelService.UserRank | src/services/levelService.js:128-138 | the 1-based position of the user in the sorted list, every user before with at least as much XP; one past the end exactly for an unknown user |
| LevelService.RankOnLeaderboard | src/services/levelService.js:118-138 | a user ranked within the limit sits on the leaderboard at their rank |
| Membership.UsersIn | src/services/membershipService.js:141-144 | a guild's users, none when the guild has no data |
| Membership.RecordIn | src/services/membershipService.js:47-50 | the user's record in the guild, none when the guild or the user is missing, with at most fifty history entries |
| Membership.SetMember | src/services/membershipService.js:96-108 | storing a record keeps the ledger well-formed and makes the record the user's |
| Membership.SetMemberKeepsOthers | src/services/membershipService.js:93-125 | storing one user's record leaves every other user's record in every guild as it was |
| Membership.Capped | src/services/membershipService.js:82-84 | `slice(-50)`: the last fifty entries, or all when there are fewer |
| Membership.PushCapped | src/services/membershipService.js:76-84 | the history after the push is the capped history with the entry appended |
| Membership.Used | src/services/membershipService.js:70-84 | one credit fewer, purchases and tier kept; the history is the old one plus the use entry, keeping only the last 50 (the oldest dropped when it was full) |
| Membership.Charged | src/services/membershipService.js:106-121 | credits and purchases grow by the amount and the tier becomes the one bought; the history is the old one plus the charge entry, keeping only the last 50 (the oldest dropped when it was full) |
| Membership.ChargeRecord | src/services/membershipService.js:96-121 | the stored record, or a zero one for a first purchase, is charged |
| Membership.FilterSnoc | src/services/membershipService.js:170 | appending an entry adds it to the use entries exactly when it is a use |
| Membership.UpdatesKeepBalance | src/services/membershipService.js:63-125 | while the history is below the cap, a use and a charge keep credits left plus uses on record equal to credits bought |
| Membership.FirstChargeBalanced | src/services/membershipService.js:97-108 | a first purchase gives a balanced record holding exactly the credits bought |
| Membership.FullHistoryForgetsUse | src/services/membershipService.js:82-84 | with a full history of uses, a further use leaves the counted uses unchanged: the statistics under-count usage past fifty |
| Membership.MembershipLedger.constructor | src/services/membershipService.js:26 | the ledger starts empty |
| Membership.MembershipLedger.Record | src/services/membershipService.js:47-50 | the user's record when the guild and the user are on file |
| Membership.MembershipLedger.Credits | src/services/membershipService.js:42-45 | the user's credits, 0 when there is no record |
| Membership.MembershipLedger.HasCredit | src/services/membershipService.js:55-58 | true exactly when the user has a record with a positive credit count |
| Membership.MembershipLedger.UseCredit | src/services/membershipService.js:63-88 | succeeds exactly when the user had credit; then that record alone loses one credit and gains the use entry; otherwise nothing changes |
| Membership.MembershipLedger.ChargeCredits | src/services/membershipService.js:93-125 | the user's record (or a new one) is charged and stored; it is returned and found afterwards |
| Membership.MembershipLedger.MembershipStats | src/services/membershipService.js:149-190 | the loops over guilds and users compute `StatsOf` the ledger |
| Membership.MembersOfSnoc | src/services/membershipService.js:157-163 | one more guild adds its users after the earlier ones |
| Membership.UserSums | src/services/membershipService.js:163-172 | one more user adds its credits, purchases and uses to the sums |
| Membership.GuildSums | src/services/membershipService.js:157-180 | one more guild adds its users, credits, purchases and uses to the totals and its row to the per-guild table |
| Membership.ServerStatsOf | src/services/membershipService.js:175-180 | one per-guild row for each guild, under its id |
| Membership.ServerStatsSnoc | src/services/membershipService.js:157-181 | one more guild adds its row at the end |
| Membership.StatsAddUp | src/services/membershipService.js:149-190 | every grand total is the sum of the per-guild figures |
| Membership.UsedBounded | src/services/membershipService.js:170 | the counted uses are never negative and at most fifty per user |
| TtsService.SplitIndex | src/services/ttsService.js:96-98 | the cut is the last '.' at or before maxLen, else the last ' ', else maxLen; no '.' lies between the cut and maxLen |
| TtsService.Chunks | src/services/ttsService.js:85-105 | there are no chunks exactly when the text is empty |
| TtsService.CutPoint | src/services/ttsService.js:96-98 | the two searches compute `SplitIndex` |
| TtsService.SplitText | src/services/ttsService.js:85-105 | the loop computes `Chunks` |
| TtsService.CutShrinks | src/services/ttsService.js:101 | what remains after a cut is shorter than before, so the loop ends |
| TtsService.ChunksUnfold | src/services/ttsService.js:96-101 | a long text gives its trimmed head up to the cut, then the chunks of its trimmed rest |
| TtsService.ChunksStep | src/services/ttsService.js:100-101 | one pass of the loop keeps pushed chunks plus chunks of the rest equal to the chunks of the text |
| TtsService.ChunkSizes | src/services/ttsService.js:90-100 | no chunk is longer than maxLen + 1 characters |
| TtsService.ShortText | src/services/ttsService.js:89-92 | an empty text gives no chunk; a text within maxLen is one chunk, untrimmed |
| TtsService.DropsNothing | src/services/ttsService.js:100-101 | a text keeps all its characters in itself |
| TtsService.DropsBlankPrefix | src/services/ttsService.js:101 | dropping a leading whitespace run loses only whitespace |
| TtsService.DropsBlankSuffix | src/services/ttsService.js:100 | dropping a trailing whitespace run loses only whitespace |
| TtsService.DropsConcat | src/services/ttsService.js:100-101 | losing only whitespace in two parts loses only whitespace in the whole |
| TtsService.TrimDropsSpace | src/services/ttsService.js:100-101 | `trim` loses only whitespace |
| TtsService.TrimSplit | src/services/ttsService.js:100-101 | a text is a blank prefix, its trimmed text and a blank suffix |
| TtsService.TrimIsBothEnds | src/services/ttsService.js:100-101 | trimming is trimming the start, then the end |
| TtsService.SplitAt | src/services/ttsService.js:100-101 | `substring(0, k)` and `substring(k)` together give the text |
| TtsService.DropsAround | src/services/ttsService.js:100-101 | a text between two whitespace runs keeps all but whitespace |
| TtsService.ChunksKeepText | src/services/ttsService.js:85-105 | the chunks in order hold every non-whitespace character of the text, in order: only whitespace is lost |
| TtsService.DropsTransitive | src/services/ttsService.js:100-101 | losing only whitespace twice loses only whitespace |
| Html.ReplaceChar | src/services/reportRenderer.js:108-115 | a global one-character replace: the character is gone when the replacement lacks it, and a text without it is unchanged |
| Html.ReplaceCharAppend | src/services/reportRenderer.js:108-115 | replacing in a concatenation is replacing in each part |
| Html.EscapeHtmlDistributes | src/services/reportRenderer.js:108-115 | the five-step escape of a concatenation is the escapes of its parts |
| Html.KeepingQuotesDistributes | src/services/imageService.js:82-88 | the four-step escape of a concatenation is the escapes of its parts |
| Html.ReplaceOne | src/services/reportRenderer.js:110-114 | one character is replaced exactly when it is the searched one |
| Html.Untouched | src/services/reportRenderer.js:111-114 | the later steps leave a text alone that holds none of their characters |
| Html.EscapeOne | src/services/reportRenderer.js:108-115 | the replace chain on one character gives that character's entity, or the character itself |
| Html.EscapeAmp | src/services/reportRenderer.js:110 | '&' becomes '&amp;' under both escapes, and the later steps do not touch it |
| Html.EscapeLt | src/services/reportRenderer.js:111 | '<' becomes '&lt;' under both escapes |
| Html.EscapeGt | src/services/reportRenderer.js:112 | '>' becomes '&gt;' under both escapes |
| Html.EscapeQuot | src/services/reportRenderer.js:113 | '"' becomes '&quot;' under both escapes |
| Html.EscapeApos | src/services/reportRenderer.js:114 | the renderer turns an apostrophe into '&#39;'; the image service leaves it |
| Html.EscapeHtmlIsEncode | src/services/reportRenderer.js:108-115 | the replace chain equals escaping one character at a time |
| Html.KeepingQuotesIsEncode | src/services/imageService.js:82-88 | the image service's chain equals escaping one character at a time, apostrophes kept |
| Html.EncodeIsInert | src/services/reportRenderer.js:108-115 | the escaped text holds no '<', '>' or '"'; an apostrophe remains exactly when it is kept and the input had one |
| Html.EncodeCharInert | src/services/reportRenderer.js:110-114 | one escaped character holds no '<', '>' or '"', and an apostrophe only when kept |
| Html.InConcat | src/services/reportRenderer.js:108-115 | a character is in a concatenation exactly when it is in one of the parts |
| Html.EncodeAmpersands | src/services/reportRenderer.js:108-115 | every '&' of the escaped text begins one of the entities |
| Html.UnescapePlain | src/services/reportRenderer.js:108-115 | decoding keeps a character that does not start with '&' |
| Html.UnescapeAmp | src/services/reportRenderer.js:110 | '&amp;' decodes to '&' |
| Html.UnescapeLt | src/services/reportRenderer.js:111 | '&lt;' decodes to '<' |
| Html.UnescapeGt | src/services/reportRenderer.js:112 | '&gt;' decodes to '>' |
| Html.UnescapeQuot | src/services/reportRenderer.js:113 | '&quot;' decodes to '"' |
| Html.UnescapeApos | src/services/reportRenderer.js:114 | '&#39;' decodes to an apostrophe |
| Html.UnescapeStep | src/services/reportRenderer.js:108-115 | decoding an escaped character gives the character back |
| Html.UnescapeEncode | src/services/reportRenderer.js:108-115 | decoding the escaped text gives the text back |
| Html.EscapeHtmlRoundTrip | src/services/reportRenderer.js:108-115 | the renderer's escape decodes back to its input, holds no raw '<', '>', '"' or apostrophe, and every '&' starts an entity |
| Html.KeepingQuotesRoundTrip | src/services/imageService.js:82-88 | the image service's escape decodes back to its input, holds no raw '<', '>' or '"', keeps apostrophes exactly when present, and every '&' starts an entity |
| ImageService.KdaText | src/services/imageService.js:35-37 | the fixed KDA when raw figures exist, else kills/deaths/assists with a missing count as 0 |
| ImageService.CsText | src/services/imageService.js:40 | CS per minute exactly when raw figures exist, else '-' |
| ImageService.ResultColor | src/services/imageService.js:43 | green exactly for 'WIN', red otherwise |
| ImageService.LazyEnd | src/services/imageService.js:92-93 | the lazy `(.+?)`: the first closer at or after k, with no line terminator inside the group |
| ImageService.LazyEndFinds | src/services/imageService.js:92-93 | the search stops at the first closer after a group without line terminators |
| ImageService.FormatAnalysisHtml | src/services/imageService.js:90-95 | the result holds no line break: every '\n' became '<br>' |
| ImageService.HeadersSkip | src/services/imageService.js:92 | a position not starting `**[` is copied |
| ImageService.BoldSkip | src/services/imageService.js:93 | a position not starting `**` is copied |
| ImageService.ConsConcat | src/services/imageService.js:90-95 | the first character and the rest of a prefix give the prefix |
| ImageService.StarlessPrefix | src/services/imageService.js:92-93 | a prefix without '*' passes through both replacements |
| ImageService.StarlessText | src/services/imageService.js:90-95 | a text without '*' only has its line breaks replaced; with none, it is unchanged |
| ImageService.BracketlessHeaders | src/services/imageService.js:92 | a text without '[' has no section header to replace |
| ImageService.HeaderReplaced | src/services/imageService.js:92 | `**[t]**` becomes the section-header div around t |
| ImageService.BoldReplaced | src/services/imageService.js:93 | `**t**` becomes `<strong>t</strong>` |
| ImageService.InertPrefix | src/services/imageService.js:93-94 | a prefix without '*' or line breaks passes through the later passes |
| ImageService.InertMarkup | src/services/imageService.js:92-93 | the inserted tags around a one-line title hold no '*' or line break |
| ImageService.HeaderBecomesDiv | src/services/imageService.js:90-95 | a leading `**[t]**` becomes a section-header div and the rest is formatted on |
| ImageService.BoldBecomesStrong | src/services/imageService.js:90-95 | a leading `**t**` becomes `<strong>t</strong>` and the rest is formatted on |
| ReportRenderer.KdaRatio | src/services/reportRenderer.js:53-55 | 'Perfect' exactly when there are no deaths; otherwise the ratio times the deaths is kills plus assists |
| ReportRenderer.GoldClass | src/services/reportRenderer.js:117-121 | 'gold-positive' exactly for a gain, 'gold-negative' exactly for a loss, 'gold-neutral' exactly for zero |
| ReportRenderer.GoldText | src/services/reportRenderer.js:118-120 | a gain starts with '+', a loss with '-', and zero is '0' |
| ReportRenderer.SignedDigitsReadBack | src/services/reportRenderer.js:118-119 | a sign before digits reads back as the signed number |
| ReportRenderer.ZeroReadBack | src/services/reportRenderer.js:120 | '0' reads back as 0 |
| ReportRenderer.PositiveReadBack | src/services/reportRenderer.js:118 | a gain's text reads back as the gain |
| ReportRenderer.NegativeReadBack | src/services/reportRenderer.js:119 | a loss's text reads back as the loss |
| ReportRenderer.GoldTextReadBack | src/services/reportRenderer.js:117-121 | every difference's text reads back as the difference |
| ReportRenderer.FormatGoldDiff | src/services/reportRenderer.js:117-121 | the span carries the class of the difference's sign ('gold-positive', 'gold-negative', 'gold-neutral') around a signed text that reads back as the difference |
| ReportRenderer.TranslateLocationType | src/services/reportRenderer.js:141-152 | a zone code in the table shows its (non-empty) label; any other code is shown raw |
| ReportRenderer.TranslateDeathContext | src/services/reportRenderer.js:154-162 | a death-context code in the table shows its (non-empty) label; any other code is shown raw |
| ReportRenderer.TranslateRoleAsWritten | src/services/reportRenderer.js:164-170 | as written: a listed role other than UNKNOWN shows its label; UNKNOWN, whose label is empty and so falsy, and any unlisted role are shown raw |
| ReportRenderer.TranslateRole | src/services/reportRenderer.js:164-170 | corrected: a listed role shows its label, even UNKNOWN's empty one; anything else is shown as it is |
| ReportRenderer.UnknownRoleShownRaw | src/services/reportRenderer.js:164-170 | as written, 'UNKNOWN' is shown as 'UNKNOWN', because its empty label is falsy; the table means '' |
| ReportRenderer.RoleTranslatorsAgree | src/services/reportRenderer.js:164-170 | the written and corrected translators differ only on 'UNKNOWN' |
| ReportRenderer.SameZoneCodes | src/services/reportRenderer.js:141-170 | the renderer's zone and death tables have the same codes as the coach's, each once, with non-empty labels |
| ReportRenderer.ReportLocationTable | src/services/reportRenderer.js:142-150 | the zone codes are the coach table's, in order, each with a non-empty label other than the code |
| ReportRenderer.ReportDeathContextTable | src/services/reportRenderer.js:155-160 | the death codes are the coach table's, in order, each with a non-empty label other than the code |
| ReportRenderer.ReportRoleTable | src/services/reportRenderer.js:165-168 | the role codes are distinct, and only UNKNOWN has an empty label |
| ReportRenderer.EveryCodeLabelled | src/services/reportRenderer.js:141-162 | every zone and death context the timeline classifier produces is shown by its label, never its raw code |
| ReportRenderer.ZoneRowsAgree | src/services/reportRenderer.js:142-150 | the renderer and the coach label a zone alike except the over-extended lane and UNKNOWN |
| ReportRenderer.ZoneLabelsDiffer | src/services/reportRenderer.js:141-152 | the two translators agree on a classified zone exactly when it is neither the over-extended lane nor UNKNOWN |
| ReportRenderer.UnknownCodesShownRaw | src/services/reportRenderer.js:141-170 | a code missing from its table is shown as it is |
| ReportRenderer.DeathTableRows | src/services/reportRenderer.js:123-139 | no deaths give the single placeholder row; otherwise one row per death, in order |
| ReportRenderer.DeathRowsFaithful | src/services/reportRenderer.js:128-138 | each death's row keeps its minute, shows its zone and context by their labels, and a gold span that reads back as the difference |
| Numbers.Round | src/services/playstyleProfiler.js:31 | `Math.round`: the nearest integer, halves upward |
| Numbers.RoundMonotone | src/services/playstyleProfiler.js:31 | rounding never reverses an order |
| Numbers.RoundOfInt | src/services/playstyleProfiler.js:31 | an integer rounds to itself |
| Numbers.Percent | src/services/playstyleProfiler.js:135 | a rounded percentage: within 0..100 for a part of the whole, 100 for the whole, 0 for nothing |
| Numbers.KdaFigureOf | src/services/playstyleProfiler.js:149-152 | 'Perfect' exactly without deaths; otherwise the ratio times the deaths is kills plus assists |
| Numbers.Clamp | src/services/playstyleProfiler.js:37 | `Math.max(lo, Math.min(hi, x))` lies within lo..hi and keeps a value already inside |
| Text.TrimStart | src/services/ttsService.js:100-101 | a suffix of the text, not starting with whitespace, after a blank prefix |
| Text.TrimEnd | src/services/ttsService.js:100-101 | a prefix of the text, not ending with whitespace, before a blank suffix |
| Text.Trim | src/services/ttsService.js:100-101 | no longer than the text, with no whitespace at either end, and empty exactly for a blank text |
| Text.Split | src/services/lolAnalyzer.js:174 | `split`: at least one piece, none holding the separator |
| Text.JoinSplit | src/services/lolAnalyzer.js:174 | joining the pieces with the separator gives the text back |
| Text.SplitJoin | src/events/emojiEnlarger.js:109 | pieces without the separator, joined and split, come back as they were |
| Text.LastIndexOf | src/services/ttsService.js:96-97 | `lastIndexOf(c, from)`: -1 or an index at most `from` holding c, with no c after it up to `from` |
| Text.Lower | src/services/musicService.js:125-126 | `toLowerCase` keeps the length and lowers each character |
| Text.NatToBase | src/events/emojiEnlarger.js:107 | `toString(base)`: at least one digit, all of that base |
| Text.BaseRoundTrip | src/events/emojiEnlarger.js:107 | a number's digits read back as the number |
| Text.Pad2 | src/services/musicService.js:412 | `padStart(2, '0')` is at least two characters |
| Text.Pad2RoundTrip | src/services/musicService.js:412 | a padded number reads back as the number |
| OrderedDict.Get | src/services/eventService.js:65 | a key's value exactly when the key is present |
| OrderedDict.Put | src/services/eventService.js:40 | the key gets the value; no other key changes; a new key goes last |
| OrderedDict.Remove | src/services/eventService.js:85 | the key is gone; no other key changes |
| OrderedDict.Translate | src/services/coachAnalyzer.js:262 | the label when it is present and non-empty, else the key |
| Sorting.SortDesc | src/services/levelService.js:124 | a permutation sorted by key, largest first |
| Sorting.SortDescStable | src/services/levelService.js:124 | equal keys keep their order, as `Array.prototype.sort` guarantees |
| Sorting.Take | src/services/levelService.js:125 | `slice(0, n)`: a prefix of the input; for n >= 0 the first n elements or all of them; for negative n all but the last -n elements, or none |
| Seqs.Filter | src/services/eventService.js:96 | the elements that pass, each from the input, and all that pass |
| Seqs.FindIndex | src/services/eventService.js:68 | the first index that passes, or -1 when none does |
| Seqs.Find | src/utils/matchParser.js:43 | `find`: present exactly when some element passes, and then the first element that passes |
| Seqs.Mean | src/services/playstyleProfiler.js:137-147 | the mean times the count is the sum |
| Seqs.MeanNonNegative | src/services/playstyleProfiler.js:137-147 | a mean of non-negative figures is non-negative, and 0 exactly when all are |

## Left out

- Numeric string formatting (`toFixed`, `toLocaleString`, Korean date strings): the numbers are modelled, not their text. A KDA shown to two decimals is a `KdaFigure` value (`Perfect` or a ratio).
- Float artefacts: stat arithmetic is exact `real` arithmetic. `calculateLevel` uses an integer square root instead of `0.1 * Math.sqrt(xp)` in doubles.
- Properties inherited from `Object.prototype` (keys such as `constructor` on a lookup table) are not modelled; a table lookup sees only the table's own keys.
- Lower-casing of tier strings covers ASCII letters only; Unicode case mapping is not modelled.
- `String()` of non-string values (numbers, null, objects) passed to the image service's `escapeHtml` is not modelled; its input is a string.
- Strings are sequences of code points. JavaScript's UTF-16 code units, lone surrogates and the Unicode emoji regular-expression test of the emoji enlarger are not modelled.
- `textToSpeech` (Google TTS download, 200-character truncation, temporary files) and `cleanupTTSFiles` are file and network I/O; only `splitText` is modelled.
- JSON file load and save of every store: the in-memory object is the state of a class.
- `Date.now()`, `new Date()`, `Math.random()` and ISO timestamps are parameters of the operations that use them.
- Event rollover adds 86,400,000 ms per day; daylight-saving shifts that `setDate` would apply are not modelled.
- Discord side effects are not modelled: embed construction and sending (`createEventEmbed`, `createLevelUpEmbed`), reminder DMs and channel messages in `checkAndNotify` (only the notify and rollover state rules are), sticker handling, and the enlarger's replies.
- Voice connections, the audio player, yt-dlp and the disconnect timer, and with them `playCurrentSong`, skip, stop, pause and resume: they drive external processes and timers.
- MusicService.MusicQueues: a queue is a value in the map of queues, so two holders of one queue object sharing later updates (aliasing) is not modelled.
- Fractional song durations are not modelled; durations are whole seconds.
- Console logging is not modelled; the warnings of `validateResponse` are returned as a list so their conditions can be stated.
- `getFallbackAnalysis` of the Claude service (a fixed message template) is not modelled.
- Thumbnail URLs and colours of the three AI formatters are constants; that they differ from one another is not stated.
- `renderAnalysisReport` and `generateReportImage` are not modelled beyond their KDA-ratio, result-colour and KDA-string rules: their template substitution feeds Puppeteer screenshots.
- `formatCoachFeedbackForHtml` of the report renderer is not modelled.
- The `TIERS` price catalogue of the membership service is not modelled; `chargeCredits` takes the tier name and amount as given.
- Membership.MembershipLedger.UseCredit: a record whose `history` array is missing is not modelled; every record has a history.
- Network and library calls (Riot API with its rate-limit queue, Anthropic, crawlers, schedulers, the database pool) are outside the modelled core. They are the callers of the code modelled here.
- MatchSummary.ParseMatch: requires a positive game duration; with a zero duration the source divides by zero and produces non-finite per-minute figures.
- PlaystyleProfiler.ProfilePlaystyle: requires that some classic match contains the player whenever classic matches exist; otherwise the source divides its totals by zero.

## Findings

| source | as written | input that shows it | evidently intended | confidence | as-written member | corrected member |
|---|---|---|---|---|---|---|
| src/services/playstyleProfiler.js:44-56 | `extractTier` tests '마스터' before '그랜드마스터', and the first contains-match wins | a rank line '그랜드마스터 I 100LP ...' is read as MASTER | a grandmaster rank line is read as GRANDMASTER | not executed | PlaystyleProfiler.GrandmasterReadAsMaster | PlaystyleProfiler.ExtractTier |
| src/services/playstyleProfiler.js:115-127 | kill participation pairs `participantData[i]` with `classicMatches[i]` after `filter(Boolean)` dropped the games without the player | a classic game without the player, then one where the player scores a lone kill: the team kills are read from the first game (0), so participation is 0 instead of 100 | each record is paired with the game it came from | not executed | PlaystyleProfiler.KillParticipationMisPaired | PlaystyleProfiler.PairedKillsWithinTeam |
| src/services/reportRenderer.js:164-170 | `translateRole` returns `map[role] \|\| role`, and the label of 'UNKNOWN' is the empty string, which is falsy | role 'UNKNOWN' is shown as 'UNKNOWN' | 'UNKNOWN' is shown with its empty label | not executed | ReportRenderer.TranslateRoleAsWritten | ReportRenderer.TranslateRole |
