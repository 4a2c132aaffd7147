# FPL assistant core, modelled in Dafny

This project models the deterministic logic of a Fantasy Premier League assistant.
The platform syncs FPL data, matches player names across data sources, predicts expected points, and advises a manager on squad health, chips and transfers.
Every database query, HTTP fetch, clock read and random draw is lifted out.
Each one becomes a parameter or an input snapshot, and the logic left over is modelled one module per source file:

- `Domain` (`domain.dfy`) holds the shared vocabulary: `Option`/`Result`, positions, the FPL scoring table, and JavaScript helpers (`trim`, `slice`, `Math.round`).
- `Ordering` (`ordering.dfy`) holds the stable sorts that JavaScript's `Array.prototype.sort` performs.
- `FplSync` (`fpl_sync.dfy`) covers gameweek selection, the player, team and fixture record builders, and the per-fixture stat snapshot, which is a class updated entry by entry.
- `SyncCli` (`sync_cli.dfy`) is the command-line parser of the sync script. It includes a `parseInt` prefix parser and an imperative loop over `argv`.
- `Understat` (`understat.dfy`) covers the `JSON.parse('…')` variable extraction from Understat pages and the `\xHH` unescaper, with its encoder and round trip.
- `PlayerMapper` (`player_mapper.dfy`) covers name normalisation and the Levenshtein distance (a two-dimensional array filled in nested loops). It also covers the similarity score and the best-match scan.
- `FplTools` (`fpl_tools.dfy`) holds the language-model tools: the position codes, search normalisation, player summaries, the replacement search and the head-to-head comparison.
- `PredictionUtils`, `Minutes`, `Attack`, `Points` and `PredictionService` are the heuristic prediction arithmetic: clamps, per-90 rates, the minutes model, involvement scores, Poisson point expectations and the Poisson tail.
- `TrendFeatures`, `InjuryFeatures`, `RoleFeatures`, `TeamStrength` and `DefenseFeatures` are the feature builders.
- `Sampling` and `Simulator` are the Monte-Carlo match simulation. Explicit uniform draws stand in for `Math.random`.
- `Squad`, `SquadAnalysis`, `ChipStrategy` and `TransferAdvisor` are the advisory services. Each runs over a snapshot of the user's latest squad.

`Math.exp` appears as a function parameter `exp: real -> real`.
The prediction service's `getProjections` and the context service's `getEliteOwnership` appear as function parameters too.
Numbers are exact reals or unbounded integers.

## Model

| member | source | states |
|---|---|---|
| Domain.GoalPoints | lib/services/prediction/simulation/simulator.ts:47-48 | points per goal are 4 exactly for a forward, 5 exactly for a midfielder, 6 for goalkeepers and defenders |
| Domain.CleanSheetPoints | lib/services/prediction/simulation/simulator.ts:54-60 | a clean sheet is worth 4 exactly for goalkeepers and defenders and nothing exactly for a forward (1 for a midfielder) |
| Domain.Round | lib/services/squad-analysis-service.ts:134 | `Math.round` lands within half a point of its argument, halves rounding up |
| Domain.Prefix | lib/llm/tools/fplTools.ts:250 | `slice(0, end)` is a prefix of the input whose length follows JavaScript's clamping of `end` |
| Domain.TrimEnds | lib/services/playerMapper.ts:29 | `trim()` leaves no white space at either end and returns an already trimmed string unchanged |
| Ordering.SortAsc | lib/services/fplSync.ts:125 | the numeric ascending sort returns an ascending permutation of its input |
| Ordering.SortDesc | lib/llm/tools/fplTools.ts:250 | the descending sort by a key returns a permutation of its input ordered by that key, largest first |
| Ordering.HeadOfSortDescIsMax | lib/services/prediction/simulation/simulator.ts:132-136 | the first element of the descending sort is an input element whose key is the largest |
| Ordering.HeadOfSortDescIsFirstMax | lib/services/transfer-advisor-service.ts:77-84 | the stable sort starts with the earliest element whose key is largest |
| Ordering.PrefixOfSortDesc | lib/services/chip-strategy-service.ts:69 | any prefix of the descending sort is still sorted and holds only input elements |
| FplSync.PositionOfElementType | lib/services/fplSync.ts:12-19 | element types 1-4 map to goalkeeper, defender, midfielder and forward; any other code maps to midfielder |
| FplSync.CurrentEventId | lib/services/fplSync.ts:127 | present exactly when some event is flagged current, and then it is the id of the first such event |
| FplSync.MaxPreviousId | lib/services/fplSync.ts:128-129 | `Math.max(0, ...previous ids)` is at least 0, bounds every previous id and is 0 or one of them |
| FplSync.IdsUpTo | lib/services/fplSync.ts:130-132 | keeps exactly the event ids `x` with `0 < x <= limit` |
| FplSync.Distinct | lib/services/fplSync.ts:125 | `[...new Set(s)]` has no duplicates and the same members as `s` |
| FplSync.DetermineTargetEvents | lib/services/fplSync.ts:123-134 | always ascending; a non-empty explicit list comes back strictly ascending with exactly its members; otherwise a permutation of the ids up to the limit |
| FplSync.SortedDistinctIsStrict | lib/services/fplSync.ts:125 | sorting a duplicate-free list gives a strictly ascending one |
| FplSync.DefaultTargetsAreEventsUpToLimit | lib/services/fplSync.ts:127-133 | with no explicit list, a gameweek is synced iff it is an event id in `(0, limit]`; with no current and no previous event nothing is synced |
| FplSync.ToFloat | lib/services/fplSync.ts:136-140 | a missing value reads as 0, a present one as itself |
| FplSync.NonEmptyOrNull | lib/services/fplSync.ts:156-157 | `s \|\| null`: null exactly for a missing or empty string, otherwise the string |
| FplSync.BuildPlayerUpsertData | lib/services/fplSync.ts:142-189 | create and update carry the same fields, keyed by the element id and connected to the element's team: code, names, cost and total points copied from the element, the mapped position, selectedBy/pointsPerGame/form read through toFloat, status and chance of playing passed through, news and newsAdded null when missing or empty, and lastSyncedAt the clock reading |
| FplSync.BuildTeamUpsertData | lib/services/fplSync.ts:191-210 | create and update carry the same name and short name under the team's FPL id |
| FplSync.BuildMatchUpsertData | lib/services/fplSync.ts:212-246 | fails exactly when the home or away team has no mapping; otherwise create equals update, with the mapped team ids, gameweek 0 for a missing event and the Unix epoch exactly for a missing kickoff |
| FplSync.FieldOfIdentifier | lib/services/fplSync.ts:90-104 | an identifier maps to the one snapshot field named for it, and never to the total |
| FplSync.UnmappedFieldStaysZero | lib/services/fplSync.ts:106-121 | a field that no entry maps to keeps its default of 0 |
| FplSync.FixtureStatSnapshot.constructor | lib/services/fplSync.ts:106-121 | the default snapshot has every field at 0 |
| FplSync.FixtureStatSnapshot.ApplyStatEntry | lib/services/fplSync.ts:261-267 | the mapped field takes the entry's value, the total grows by `points + (points_modification ?? 0)`, and no other field changes |
| FplSync.ExtractFixtureStats | lib/services/fplSync.ts:248-259 | each field holds the value of the last entry mapped to it (0 if none), and the total is the explain sum unless that is 0, when it is the cumulative total |
| SyncCli.ParseUnsigned | scripts/sync-fpl.ts:23 | `parseInt` yields a number exactly when the text starts with a digit, and that number is not negative |
| SyncCli.ParseIntOfDecimal | scripts/sync-fpl.ts:23 | `parseInt` reads back the decimal rendering of any natural number and stops at the first non-digit |
| SyncCli.ParseIntOfSignedDecimal | scripts/sync-fpl.ts:23 | with a leading `-` it reads back the negated number, with a leading `+` the number itself |
| SyncCli.ParseIntWithoutDigits | scripts/sync-fpl.ts:23-24 | text holding no digit at all parses as NaN |
| SyncCli.SplitOnSeparators | scripts/sync-fpl.ts:22 | `split(/[,\s]+/)` always yields at least one piece |
| SyncCli.SplitJoin | scripts/sync-fpl.ts:22 | splitting non-empty separator-free pieces joined with commas gives the pieces back |
| SyncCli.KeyOf | scripts/sync-fpl.ts:18 | the key is a prefix of the argument holding no `=` |
| SyncCli.ValueOf | scripts/sync-fpl.ts:18 | the value is undefined exactly when the argument has no `=`; otherwise it is the text after the first `=` up to the next one |
| SyncCli.KeyAndValueAfterPrefix | scripts/sync-fpl.ts:18 | for `key` or `key=rest` the key is `key` and the value is undefined or the first `=`-free piece of `rest` |
| SyncCli.PositiveEvents | scripts/sync-fpl.ts:23-24 | only positive gameweek numbers survive the filter, at most one per piece |
| SyncCli.EventsOption | scripts/sync-fpl.ts:20-25 | `--events` without a value leaves the events undefined, with one it sets a list |
| SyncCli.EventsRoundTrip | scripts/sync-fpl.ts:20-25 | `--events=` followed by comma-joined decimal numbers yields exactly the positive ones, in order |
| SyncCli.NumericOption | scripts/sync-fpl.ts:28-40 | a numeric option is undefined exactly when its value is missing or empty |
| SyncCli.NumericOptionWithoutValue | scripts/sync-fpl.ts:28-40 | `--key` and `--key=` both leave a numeric option undefined |
| SyncCli.RpmAlias | scripts/sync-fpl.ts:26-28 | `--rpm` and `--requests-per-minute` have the same effect, setting the request rate only |
| SyncCli.ArgumentEffects | scripts/sync-fpl.ts:13-44 | `--help`/`-h` sets help and nothing else, an unknown key changes nothing, a numeric key sets its field to the parsed value, `--events` sets the events |
| SyncCli.ParseArgs | scripts/sync-fpl.ts:11-47 | the loop over the arguments produces the options of applying every argument in order to the empty record |
| Understat.DecodeHexEscapes | lib/collectors/understatCollector.ts:106-108 | every well-formed `\xHH` escape shrinks to one character, so the result is three characters shorter per escape |
| Understat.DecodeWithoutEscapes | lib/collectors/understatCollector.ts:106-108 | text without an escape is left unchanged |
| Understat.MalformedEscapesStay | lib/collectors/understatCollector.ts:106 | a truncated or non-hex escape is copied through as it is |
| Understat.NoRescan | lib/collectors/understatCollector.ts:106-108 | a decoded backslash does not start a new escape: the replacement makes one pass |
| Understat.EncodeHexEscapes | lib/collectors/understatCollector.ts:106-108 | the inverse rendering writes four characters per Latin-1 character |
| Understat.DecodeEncode | lib/collectors/understatCollector.ts:106-108 | decoding undoes escaping every character of a Latin-1 string |
| Understat.SkipSpaces | lib/collectors/understatCollector.ts:96 | `\s*` stops at the first non-white-space character |
| Understat.SkipToQuote | lib/collectors/understatCollector.ts:96 | `[^']+` runs up to the first quote |
| Understat.PayloadAt | lib/collectors/understatCollector.ts:96 | a captured payload is non-empty and holds no quote |
| Understat.MatchAt | lib/collectors/understatCollector.ts:96 | a match of `var name = JSON.parse('...')` at a position captures a non-empty quote-free payload |
| Understat.FirstMatch | lib/collectors/understatCollector.ts:97 | the leftmost position where the pattern matches, and None exactly when it matches nowhere |
| Understat.ExtractVariableText | lib/collectors/understatCollector.ts:95-108 | fails exactly when the pattern matches nowhere; otherwise it is the decoded capture of the leftmost match |
| Understat.ExtractFromDeclaration | lib/collectors/understatCollector.ts:95-108 | on `var name = JSON.parse('payload')` it returns the decoded payload |
| PlayerMapper.LowerChar | lib/services/playerMapper.ts:24 | `A`-`Z` move to `a`-`z`; other characters below U+00C0 are unchanged |
| PlayerMapper.ToLower | lib/services/playerMapper.ts:24 | lower-casing keeps the length |
| PlayerMapper.ReplaceOslash | lib/services/playerMapper.ts:25 | replacing `ø` by `o` keeps the length |
| PlayerMapper.DecomposeChar | lib/services/playerMapper.ts:26 | NFD splits a precomposed letter into a base letter and one combining mark and leaves ASCII alone |
| PlayerMapper.Nfd | lib/services/playerMapper.ts:26 | decomposition at most doubles the length |
| PlayerMapper.StripMarks | lib/services/playerMapper.ts:27 | removing combining marks never lengthens |
| PlayerMapper.KeepWordCharsMakesPlain | lib/services/playerMapper.ts:28 | after the filter only `a-z`, `0-9` and white space remain |
| PlayerMapper.NormalizeChain | lib/services/playerMapper.ts:22-31 | normalizeName is the seven steps applied in the source's order |
| PlayerMapper.CollapseShape | lib/services/playerMapper.ts:30 | collapsing leaves no two spaces in a row and keeps the character class at both ends |
| PlayerMapper.NormalizeCanonical | lib/services/playerMapper.ts:22-31 | a normalised name is lower-case ASCII words separated by single spaces, with no space at either end |
| PlayerMapper.NormalizeFixedPoints | lib/services/playerMapper.ts:22-31 | a name is left unchanged by normalisation exactly when it is already in that canonical form |
| PlayerMapper.NormalizeIdempotent | lib/services/playerMapper.ts:22-31 | normalising twice is normalising once |
| PlayerMapper.LevUpper | lib/services/playerMapper.ts:36-56 | the edit distance of two prefixes is at most the longer length |
| PlayerMapper.LevLower | lib/services/playerMapper.ts:36-56 | it is at least the difference of the lengths |
| PlayerMapper.LevSymmetric | lib/services/playerMapper.ts:36-56 | it is symmetric |
| PlayerMapper.LevZero | lib/services/playerMapper.ts:36-56 | it is 0 exactly for equal prefixes |
| PlayerMapper.Distance | lib/services/playerMapper.ts:36-56 | the Levenshtein distance is 0 iff the strings are equal, lies between the length difference and the longer length, and is the other length when one string is empty |
| PlayerMapper.LevenshteinDistance | lib/services/playerMapper.ts:36-56 | the row-by-row matrix fill returns that distance |
| PlayerMapper.Similarity | lib/services/playerMapper.ts:62-73 | the score lies in [0, 1] and is 1 exactly when the normalised names are equal |
| PlayerMapper.SimilaritySymmetric | lib/services/playerMapper.ts:62-73 | the score does not depend on the order of the names |
| PlayerMapper.CalculateSimilarity | lib/services/playerMapper.ts:62-73 | the method computes that score |
| PlayerMapper.Choose | lib/services/playerMapper.ts:86-124 | a chosen index is a candidate index |
| PlayerMapper.ChooseFrom | lib/services/playerMapper.ts:86-124 | from any state of the scan: an exact match anywhere makes the first one win; otherwise a fuzzy result exists iff a positive top score reaches the threshold, and it is the first top-scoring candidate |
| PlayerMapper.Report | lib/services/playerMapper.ts:89-93 | an exact choice reports confidence 1, a fuzzy one its score |
| PlayerMapper.ScanIsChoose | lib/services/playerMapper.ts:86-116 | the candidate loop makes the same choice as the reference scan |
| PlayerMapper.FindBestMatch | lib/services/playerMapper.ts:78-127 | the loop with its early return computes the best match |
| PlayerMapper.FindBestMatchProperties | lib/services/playerMapper.ts:78-127 | the first exact candidate wins with confidence 1; without one, a fuzzy result exists iff a positive top score reaches the threshold, and it names the first candidate with the top score |
| PlayerMapper.NoCandidates | lib/services/playerMapper.ts:118-126 | an empty candidate list gives null |
| FplTools.PositionRoundTrip | lib/llm/tools/fplTools.ts:13-18 | POSITION_MAP and positionToFpl (lines 58-66) are inverse bijections between the short codes and the positions |
| FplTools.KeepAlphanumerics | lib/llm/tools/fplTools.ts:73 | only `a-z` and `0-9` survive, and nothing is added |
| FplTools.NormalizeSearchName | lib/llm/tools/fplTools.ts:68-74 | a normalised search name is made of `a-z` and `0-9` only |
| FplTools.NormalizeSearchNameFixedPoints | lib/llm/tools/fplTools.ts:68-74 | a name is unchanged exactly when it is already alphanumeric, so normalising twice is normalising once |
| FplTools.ExpectedPointsNext5 | lib/llm/tools/fplTools.ts:76-80 | five times the form (4 when the form is 0), rounded to one decimal: within 0.05 of that product and a whole number of tenths |
| FplTools.Summary | lib/llm/tools/fplTools.ts:85-110 | id, web name and form are copied; price is cost over 10; the position code maps back to the position; injured iff a chance of playing below 100 is known; team is the short name or "Unknown"; injury status is the news when there is any |
| FplTools.FullNameShape | lib/llm/tools/fplTools.ts:98 | the full name has no white space at either end and is "first second" when both parts are present and already trimmed |
| FplTools.Filter | lib/llm/tools/fplTools.ts:218-236 | every row kept is a table row that passes the position, price, ownership and fitness filters |
| FplTools.Fetch | lib/llm/tools/fplTools.ts:238-243 | at most `take` rows are fetched |
| FplTools.FetchedAreEligible | lib/llm/tools/fplTools.ts:218-243 | every fetched row is a table row that passes the filters |
| FplTools.SearchReplacementsProperties | lib/llm/tools/fplTools.ts:209-251 | at most `limit` (default 5) summaries, sorted by expected points, each the summary of a row that passes the filters |
| FplTools.LowerWins | lib/llm/tools/fplTools.ts:283-288 | the first player wins exactly when cheaper, the second exactly when the other is cheaper |
| FplTools.HigherWins | lib/llm/tools/fplTools.ts:294-310 | the first player wins exactly with the higher value, the second exactly with the lower |
| FplTools.FitWins | lib/llm/tools/fplTools.ts:322-327 | a fit player wins against an injured one, and nobody wins otherwise |
| FplTools.ComparisonRows | lib/llm/tools/fplTools.ts:278-329 | the comparison has five metrics |
| FplTools.WinsTotal | lib/llm/tools/fplTools.ts:331-332 | the two win counts add up to at most the number of metrics |
| FplTools.Recommend | lib/llm/tools/fplTools.ts:334-342 | "even" exactly when the win counts tie; otherwise it names the player with more wins, that count and the number of metrics |
| FplTools.ComparePlayers | lib/llm/tools/fplTools.ts:271 | a comparison exists exactly when both players were found |
| FplTools.ComparisonRules | lib/llm/tools/fplTools.ts:278-349 | price goes to the cheaper player, expected points and form to the higher, ownership to nobody, health to the fit one; the recommendation follows the win counts |
| FplTools.ComparisonSwap | lib/llm/tools/fplTools.ts:278-332 | swapping the two players mirrors every row's winner and swaps the win counts |
| FplTools.MirrorWins | lib/llm/tools/fplTools.ts:331-332 | mirrored rows swap the two win counts |
| PredictionUtils.Clamp | lib/services/prediction/utils.ts:1-3 | with `lo <= hi` the result lies in `[lo, hi]`, equals `x` inside the range and the nearer bound outside it; it is never below `lo` |
| PredictionUtils.ClampProperties | lib/services/prediction/utils.ts:1-3 | clamping is idempotent and monotone |
| PredictionUtils.Rate | lib/services/prediction/utils.ts:7 | `(value / minutes) * 90` times the minutes gives back `90 * value` |
| PredictionUtils.SafePer90 | lib/services/prediction/utils.ts:5-8 | 0 for a missing value or fewer minutes than the sample floor, otherwise the per-90 rate |
| PredictionUtils.SafePer90Player | lib/services/prediction/utils.ts:10-14 | 0 for a missing value, no minutes or too few minutes, otherwise the per-90 rate |
| PredictionUtils.SafePer90Team | lib/services/prediction/utils.ts:16-19 | 0 for a missing value or no minutes, otherwise the per-90 rate |
| PredictionUtils.Per90Agreement | lib/services/prediction/utils.ts:5-19 | from 30 minutes on the three variants agree; the player variant is 0 below 15 minutes and agrees with the team variant from 15 on |
| PredictionUtils.Per90Monotone | lib/services/prediction/utils.ts:16-19 | a larger non-negative value never gives a smaller, and never a negative, team rate |
| PredictionUtils.AddRow | lib/services/prediction/utils.ts:24-34 | folding in one row counts it once |
| PredictionUtils.Fold | lib/services/prediction/utils.ts:23-46 | the reduction counts every row |
| PredictionUtils.AggregateStats | lib/services/prediction/utils.ts:21-47 | the count is the length of `slice(0, take)`, so `take` itself whenever it is within the list |
| PredictionUtils.FoldAppend | lib/services/prediction/utils.ts:23-46 | the totals of two lists of rows one after the other are the sums of their totals |
| PredictionUtils.FoldNonNegative | lib/services/prediction/utils.ts:23-46 | rows with no negative figure give no negative total |
| PredictionUtils.Share | lib/services/prediction/utils.ts:49-54 | 0 when the team rate is at most 0.05 (missing counts as 0); otherwise the player's rate divided by the team's |
| PredictionUtils.ShareBounds | lib/services/prediction/utils.ts:49-54 | a player rate between 0 and the team rate gives a share in [0, 1] |
| Minutes.PosMinutesSettings | lib/services/prediction/minutes.ts:4-9 | a starter's expected minutes are 90 exactly for a goalkeeper and otherwise 80-85; the threshold is 85 for goalkeepers and 60 for the rest |
| Minutes.RecentAverage | lib/services/prediction/minutes.ts:34-35 | with no recent games the recent average falls back to the season average |
| Minutes.RecentFallback | lib/services/prediction/minutes.ts:34-38 | with no recent games the raw minutes are the season average |
| Minutes.BaseStartProbability | lib/services/prediction/minutes.ts:40-46 | the base start probability lies in [0, 1] |
| Minutes.CappedStart | lib/services/prediction/minutes.ts:92 | the start probability lies in [0, 0.99] |
| Minutes.CappedMinutes | lib/services/prediction/minutes.ts:100 | the expected minutes lie in [0, 90] |
| Minutes.ApplyContext | lib/services/prediction/minutes.ts:49-89 | the sequence of context updates produces the start and 60-minute penalties and the adjusted raw minutes of the reference definitions |
| Minutes.PenaltiesAreDiscounts | lib/services/prediction/minutes.ts:49-89 | both penalties lie in (0, 1], and both are 1 without context |
| Minutes.PredictMinutesAndProbability | lib/services/prediction/minutes.ts:24-102 | the method equals the reference prediction, with the start probability in [0, 0.99] and the expected minutes in [0, 90] |
| Minutes.PredictionBounds | lib/services/prediction/minutes.ts:91-100 | the start probability lies in [0, 0.99]; the 60-minute probability is `start * 0.92 * penalty` and never above the start probability; the minutes lie in [0, 90] |
| Minutes.CappedStartMonotone | lib/services/prediction/minutes.ts:92 | a larger penalty factor never lowers the start probability |
| Minutes.ContextOnlyLowersStart | lib/services/prediction/minutes.ts:49-92 | context can only lower the start probability |
| Minutes.ScaledBelowCap | lib/services/prediction/minutes.ts:100 | scaling by an availability in [0, 1] and clamping keeps minutes under a non-negative cap |
| Minutes.RecoveryCaps | lib/services/prediction/minutes.ts:66-88 | more than 40 days out caps the expected minutes at 25, 21-40 days at 40, an impact sub at 35 |
| Attack.TeamBase | lib/services/prediction/attack.ts:30 | the team base is at least 0.5 and at least the team's xG, and equals the xG from 0.5 on |
| Attack.InvolvementScore | lib/services/prediction/attack.ts:20-52 | the score never exceeds 1 |
| Attack.TermBounds | lib/services/prediction/attack.ts:45-46 | a share term lies between 0 and its weight, reaching the weight once the share is at least 1 |
| Attack.InvolvementBounds | lib/services/prediction/attack.ts:30-51 | for non-negative inputs the score lies in [0, 1], and it is exactly 1 once goals and assists reach the team base, key passes 3 and box touches 6 |
| Attack.InvolvementMonotoneInGoals | lib/services/prediction/attack.ts:31-51 | more xG never lowers the score |
| Attack.AssistBoost | lib/services/prediction/attack.ts:66 | fewer than 0.5 key passes per 90 give no boost |
| Attack.AssistBoostShape | lib/services/prediction/attack.ts:66-81 | the boost is never negative; it is positive exactly when key passes reach 0.5 and xA differs from 12% of them; it is half the excess or 30% of the shortfall |
| Attack.AssistBoostIgnoresLeagueAverage | lib/services/prediction/attack.ts:63-81 | the league-average xA has no effect on the boost |
| Points.Fact | lib/services/prediction/points.ts:10-18 | every factorial is at least 1 |
| Points.FactorialCache.constructor | lib/services/prediction/points.ts:10 | the cache starts as `[1, 1]` |
| Points.FactorialCache.Factorial | lib/services/prediction/points.ts:11-18 | 1 for a negative argument, otherwise `n!`; the cache keeps `cache[i] = i!`, only grows, and is extended exactly to `n` when it was shorter |
| Points.PoissonPmf | lib/services/prediction/points.ts:23-27 | a non-positive rate puts all mass on 0, a negative count has probability 0, and no probability is negative |
| Points.PoissonTermIsPmf | lib/services/prediction/points.ts:23-27 | the recurrence `term *= mean / i` of the tail loop (lib/services/predictionService.ts:479-483) computes the same probabilities as the pmf |
| Points.CdfStep | lib/services/predictionService.ts:482-483 | one loop step extends the term and the cumulative sum by one count |
| Points.CdfUpToMonotone | lib/services/predictionService.ts:480-483 | the cumulative sum never decreases as more counts are added |
| Points.PoissonTermNonNegative | lib/services/predictionService.ts:479-483 | no term of the recurrence is negative |
| Points.ExpectedPointsScale | lib/services/prediction/points.ts:49 | the expected points are linear in the points per event |
| Points.ExpectedPointsNonNegative | lib/services/prediction/points.ts:46-50 | non-negative probabilities and points give non-negative expected points |
| Points.PointMassAtZero | lib/services/prediction/points.ts:46-50 | a distribution with all mass on 0 events gives no points |
| Points.MorePointsPerEvent | lib/services/prediction/points.ts:46-50 | more points per event never lower the expected points |
| Points.PoissonPoints | lib/services/prediction/points.ts:43-52 | the loop records the pmf of every count from 0 to the maximum and the expected points of that distribution |
| Points.PoissonGoalPoints | lib/services/prediction/points.ts:33-53 | counts 0 to `maxGoals` (default 5) with the position's points per goal |
| Points.PoissonAssistPoints | lib/services/prediction/points.ts:59-77 | counts 0 to `maxAssists` (default 4) at 3 points per assist |
| Points.PoissonAttackPoints | lib/services/prediction/points.ts:83-104 | six goal and five assist probabilities, each part the expected points of its distribution, and the total the sum of the parts |
| Points.NoChancesNoPoints | lib/services/prediction/points.ts:23-24 | with a rate of 0 there are no expected points |
| Points.SmartBonus | lib/services/prediction/points.ts:110-149 | the bonus lies in [0, 3] |
| Points.KeyPlayerNeverLowers | lib/services/prediction/points.ts:146 | being a key player never lowers the bonus |
| Points.NoCleanSheetNoDefensiveBonus | lib/services/prediction/points.ts:136-146 | a defender or goalkeeper with no clean-sheet chance gets only the key-player 0.15 |
| PredictionService.Blend | lib/services/predictionService.ts:332-336 | the season value when the recent one is missing or the weight product is 0; the recent value when the product is 1 |
| PredictionService.BlendBetween | lib/services/predictionService.ts:332-336 | with a weight product in [0, 1] the blend lies between the season and the recent value |
| PredictionService.AvgMins | lib/services/predictionService.ts:338-346 | between 78 and 90 minutes, 90 exactly for a goalkeeper |
| PredictionService.GetShareBounds | lib/services/predictionService.ts:348-356 | the three sample-size bands, each with `0 < floor < cap < 1` |
| PredictionService.BoundShareWithin | lib/services/predictionService.ts:194-196 | a bounded share lies between the band's floor and cap and is unchanged when already inside |
| PredictionService.PositionBounds | lib/services/predictionService.ts:95-100 | every position's bounds satisfy `2 <= min < max <= 9` |
| PredictionService.ApplyPositionCalibration | lib/services/predictionService.ts:358-362 | the calibrated value lies within the position's bounds |
| PredictionService.CalibrationMonotone | lib/services/predictionService.ts:358-362 | calibration is monotone, and leaves in-range forward and midfielder values unchanged |
| PredictionService.InferPlayerRole | lib/services/predictionService.ts:407-423 | goalkeeper role iff a goalkeeper; a defender is attacking iff xG+xA exceeds 0.10; a midfielder is box-to-box, playmaker or winger by the goal ratio above 1.2, below 0.6 or between; a forward is a poacher iff the ratio exceeds 2 |
| PredictionService.ServiceUsesPointsTable | lib/services/predictionService.ts:231-243 | the service's goal, assist and clean-sheet values are the points table's |
| PredictionService.LastTerm | lib/services/predictionService.ts:478-485 | the loop stops after at most 201 terms |
| PredictionService.PoissonTail | lib/services/predictionService.ts:476-488 | the tail probability lies in [0, 1] and is 0 for a non-positive mean |
| PredictionService.PoissonTailLoop | lib/services/predictionService.ts:476-488 | the loop with its early break computes that tail |
| PredictionService.TailDecreasesWithThreshold | lib/services/predictionService.ts:476-488 | a higher threshold never gives a larger tail |
| PredictionService.DefconThreshold | lib/services/predictionService.ts:468 | the threshold is 10 exactly for defenders and 12 for everyone else |
| PredictionService.DefconExpectedPoints | lib/services/predictionService.ts:467-472 | the probability lies in [0, 1], the points are twice it, so within [0, 2], and 0 for a non-positive mean |
| PredictionService.DefenderThresholdIsEasier | lib/services/predictionService.ts:468-470 | at the same mean a defender's expected points are never below another position's |
| TrendFeatures.RollingAverage | lib/services/prediction/features/trendFeatures.ts:3-7 | 0 for an empty window, otherwise the mean of the first `window` values (times the count it gives their sum) |
| TrendFeatures.SquaredDeviations | lib/services/prediction/features/trendFeatures.ts:13 | one squared distance from the mean per value |
| TrendFeatures.DeviationsNonNegative | lib/services/prediction/features/trendFeatures.ts:13 | no squared deviation is negative |
| TrendFeatures.RollingVariance | lib/services/prediction/features/trendFeatures.ts:9-15 | 0 for an empty window and never negative |
| TrendFeatures.Slope | lib/services/prediction/features/trendFeatures.ts:17-23 | 0 with fewer than two values; otherwise (newest - oldest) spread over the gaps between them |
| TrendFeatures.WindowOnly | lib/services/prediction/features/trendFeatures.ts:4-18 | values after the window change none of the three statistics |
| TrendFeatures.ConstantSeries | lib/services/prediction/features/trendFeatures.ts:3-23 | over a constant series the average is the constant and the variance and slope are 0 |
| TrendFeatures.XgSeries | lib/services/prediction/features/trendFeatures.ts:26 | one entry per match, a missing xG read as 0 |
| TrendFeatures.XaSeries | lib/services/prediction/features/trendFeatures.ts:27 | one entry per match, a missing xA read as 0 |
| TrendFeatures.BuildTrendFeatures | lib/services/prediction/features/trendFeatures.ts:25-46 | every statistic has exactly one entry per requested window (3, 5 and 10 by default), and no variance is negative |
| TrendFeatures.DefaultWindowsShape | lib/services/prediction/features/trendFeatures.ts:25 | the default windows are exactly 3, 5 and 10 |
| InjuryFeatures.PlayedIffNotMissed | lib/services/prediction/features/injuryFeatures.ts:8-9 | a match counts as missed exactly when it does not count as played |
| InjuryFeatures.CountMissed | lib/services/prediction/features/injuryFeatures.ts:8 | no more misses than matches |
| InjuryFeatures.FirstPlayed | lib/services/prediction/features/injuryFeatures.ts:9 | the index of the first match with minutes, None exactly when there is none |
| InjuryFeatures.BuildInjuryFeatures | lib/services/prediction/features/injuryFeatures.ts:3-17 | days out are always unknown; missing or empty history gives `(null, 0, null)`; the misses never exceed the matches |
| InjuryFeatures.MissedBeforeReturn | lib/services/prediction/features/injuryFeatures.ts:8-9 | every match before the first one played is missed, and no match was played exactly when all were missed |
| InjuryFeatures.InjuryFeaturesConsistent | lib/services/prediction/features/injuryFeatures.ts:3-17 | games missed are at least the return index, and the index is null exactly when every match was missed |
| RoleFeatures.Filter | lib/services/prediction/features/roleFeatures.ts:7-8 | the filter keeps exactly the matches that pass |
| RoleFeatures.GroupPer90 | lib/services/prediction/features/roleFeatures.ts:10-22 | a group's per-90 xG and xA are 0 under 30 minutes and otherwise its totals per 90 minutes |
| RoleFeatures.BuildRoleFeatures | lib/services/prediction/features/roleFeatures.ts:6-23 | per-start and per-sub xG and xA are the per-90 rates of the starts (60+ minutes) and the sub appearances, 0 under 30 minutes |
| RoleFeatures.StartsAndSubsPartition | lib/services/prediction/features/roleFeatures.ts:7-8 | no match is both a start and a sub, and starts, subs and unplayed matches account for every match |
| RoleFeatures.StartMinutesBound | lib/services/prediction/features/roleFeatures.ts:7-10 | starts total at least 60 minutes each |
| RoleFeatures.SubMinutesBound | lib/services/prediction/features/roleFeatures.ts:8-11 | sub appearances total under 60 minutes each |
| TeamStrength.Chosen | lib/services/prediction/features/teamStrength.ts:5 | the recent figure when present, otherwise the season figure |
| TeamStrength.Relative | lib/services/prediction/features/teamStrength.ts:7-11 | relative to a positive league average, else the raw figure |
| TeamStrength.BuildTeamStrengthFeatures | lib/services/prediction/features/teamStrength.ts:4-19 | the xG difference is chosen xG minus chosen xGA; attack and defence strengths are relative to the league averages when positive; points per game is always null |
| TeamStrength.DiffIsStrengthGap | lib/services/prediction/features/teamStrength.ts:5-11 | with equal positive averages the xG difference is the strength gap times the average |
| DefenseFeatures.TotalsNonNegative | lib/services/prediction/features/defenseFeatures.ts:63-69 | non-negative match figures give non-negative totals |
| DefenseFeatures.PoissonCdf | lib/services/prediction/features/defenseFeatures.ts:118-119 | a non-positive rate gives 1 for `k >= 0` and 0 below; a negative `k` gives 0 |
| DefenseFeatures.PoissonCdfLoop | lib/services/prediction/features/defenseFeatures.ts:118-127 | the loop returns that cdf |
| DefenseFeatures.EstimateDefconProbability | lib/services/prediction/features/defenseFeatures.ts:103-113 | the probability lies in [0, 1] |
| DefenseFeatures.Per90 | lib/services/prediction/features/defenseFeatures.ts:72 | the per-90 rate times the minutes is 90 times the total, and is non-negative for a non-negative total |
| DefenseFeatures.DefenseOf | lib/services/prediction/features/defenseFeatures.ts:39-97 | all zeros for no matches or under 90 minutes; otherwise each of the five rates times the minutes played is its summed total times 90; the probability always lies in [0, 1] |
| DefenseFeatures.BuildDefenseFeatures | lib/services/prediction/features/defenseFeatures.ts:39-97 | the accumulating loop produces those features |
| DefenseFeatures.DefenseShape | lib/services/prediction/features/defenseFeatures.ts:71-81 | CBIT is the sum of the four per-90 counts, CBIRT adds recoveries, and with non-negative match counts `0 <= CBIT <= CBIRT` |
| Sampling.Bernoulli | lib/services/prediction/simulation/sampling.ts:29-31 | with a uniform draw in [0, 1), probability 0 never succeeds and probability 1 always does |
| Sampling.ProductPrefix | lib/services/prediction/simulation/sampling.ts:20 | each step multiplies the running product by one more draw |
| Sampling.Run | lib/services/prediction/simulation/sampling.ts:18-21 | the do-while loop stops at a draw it has read |
| Sampling.RunIsFirstReach | lib/services/prediction/simulation/sampling.ts:18-23 | the loop returns `m` exactly when `m + 1` is the first number of draws whose product is at most the limit |
| Sampling.PoissonSample | lib/services/prediction/simulation/sampling.ts:11-24 | 0 for a non-positive rate; otherwise a count smaller than the number of draws supplied |
| Sampling.PoissonSampleIsFirstReach | lib/services/prediction/simulation/sampling.ts:14-23 | for a positive rate the sample is `m` exactly when the product of the first `m + 1` draws is the first to fall to `e^-lambda` or below |
| Sampling.SamplePoisson | lib/services/prediction/simulation/sampling.ts:11-24 | the do-while loop computes that sample |
| Sampling.SampleReturns | lib/services/prediction/simulation/sampling.ts:72-83 | no goals or assists when the scaled rate is not positive |
| Sampling.SubChance | lib/services/prediction/simulation/sampling.ts:49-50 | the sub chance is clamped to [0, 0.3] |
| Sampling.SampleMinutes | lib/services/prediction/simulation/sampling.ts:37-67 | minutes lie in [0, 90]; a non-starter plays 0 or 1-45, a starter at least 45; 60+ exactly when the player starts and passes the 60-minute draw; 0 exactly when the player neither starts nor comes on |
| Sampling.SampleCleanSheet | lib/services/prediction/simulation/sampling.ts:88-92 | no clean sheet under 60 minutes; from 60 minutes a clean sheet exactly when the draw succeeds |
| Sampling.DefconActionThreshold | lib/services/prediction/simulation/sampling.ts:108 | 10 actions exactly for goalkeepers and defenders, 12 for the rest |
| Sampling.SampleDefcon | lib/services/prediction/simulation/sampling.ts:97-115 | 0 under 60 minutes; otherwise 2 exactly when the sampled actions reach the threshold, and 0 or 2 in every case |
| Sampling.BonusScore | lib/services/prediction/simulation/sampling.ts:129-135 | the BPS score is `12·goals + 9·assists` (+12 for a back-line clean sheet) plus a random 0-9 |
| Sampling.BonusForScore | lib/services/prediction/simulation/sampling.ts:138-141 | bonus in [0, 3]; 3 exactly from 30 BPS, 0 exactly under 10 |
| Sampling.SampleBonus | lib/services/prediction/simulation/sampling.ts:120-142 | bonus in [0, 3]; a hat-trick always gets 3, any goal at least 1, and no goal, assist or back-line clean sheet gets 0 |
| Sampling.BonusMonotone | lib/services/prediction/simulation/sampling.ts:129-141 | more goals or assists never lower the bonus |
| Simulator.AppearancePoints | lib/services/prediction/simulation/simulator.ts:39-44 | 2 points exactly from 60 minutes, 1 exactly for 1-59, 0 exactly without minutes |
| Simulator.CleanSheetAward | lib/services/prediction/simulation/simulator.ts:54-60 | clean-sheet points only for a clean sheet with 60+ minutes, then the position's value |
| Simulator.CalculatePoints | lib/services/prediction/simulation/simulator.ts:26-69 | the step-by-step sum equals the FPL points of the outcome |
| Simulator.PointsNonNegative | lib/services/prediction/simulation/simulator.ts:37-68 | with non-negative defcon and bonus the points are at least the appearance points, so never negative |
| Simulator.PointsPerReturn | lib/services/prediction/simulation/simulator.ts:47-51 | one more goal adds the position's goal points, one more assist adds 3 |
| Simulator.SimulateOnce | lib/services/prediction/simulation/simulator.ts:74-127 | minutes in [0, 90]; a clean sheet only with 60+ minutes; defcon 0 or 2 and 0 under 60 minutes; bonus in [0, 3]; total the FPL points of the sample and never negative |
| Simulator.Totals | lib/services/prediction/simulation/simulator.ts:133 | the total points of every result, in order |
| Simulator.IntSumPermutation | lib/services/prediction/simulation/simulator.ts:133-136 | sorting does not change the sum |
| Simulator.CalculateStats | lib/services/prediction/simulation/simulator.ts:132-153 | statistics exist exactly for a non-empty list of results |
| Simulator.StatsOrdered | lib/services/prediction/simulation/simulator.ts:133-151 | `min <= p5 <= p25 <= median <= p75 <= p95 <= max`, every result lies between min and max, and both are results |
| Simulator.StatsMoments | lib/services/prediction/simulation/simulator.ts:136-139 | the mean lies between min and max, and the variance is not negative |
| Simulator.Bucket | lib/services/prediction/simulation/simulator.ts:162 | points clamp into buckets 0-20 and keep their own bucket inside that range |
| Simulator.Histogram | lib/services/prediction/simulation/simulator.ts:159-164 | there are 21 buckets |
| Simulator.HistogramTotal | lib/services/prediction/simulation/simulator.ts:159-164 | the bucket counts add up to the number of results |
| Simulator.Distribution | lib/services/prediction/simulation/simulator.ts:167 | 21 probabilities |
| Simulator.DistributionSumsToOne | lib/services/prediction/simulation/simulator.ts:158-168 | the probabilities sum to exactly 1 |
| Simulator.CreateDistribution | lib/services/prediction/simulation/simulator.ts:158-168 | the counting loop returns that distribution, and none for no results |
| Simulator.HaulsAndBlanksDisjoint | lib/services/prediction/simulation/simulator.ts:188-189 | no result is both a haul (10+) and a blank (2 or less) |
| Simulator.RatesAreProbabilities | lib/services/prediction/simulation/simulator.ts:197-198 | the haul and blank rates are non-negative and add up to at most 1 |
| Simulator.Outcomes | lib/services/prediction/simulation/simulator.ts:180-182 | one outcome per simulation, in order |
| Simulator.SimulateGame | lib/services/prediction/simulation/simulator.ts:177-200 | echoes the player and the count, the stats and distribution of the outcomes, and the haul and blank rates, which are probabilities whose sum is at most 1 |
| Simulator.QuickSimulate | lib/services/prediction/simulation/simulator.ts:205-213 | the running total divided by N, none when N is 0 |
| Simulator.QuickMatchesFullMean | lib/services/prediction/simulation/simulator.ts:205-213 | the quick mean equals the mean of the full statistics |
| Squad.StartersAndBench | lib/services/squad-analysis-service.ts:69-70 | the starting XI and the bench together hold as many picks as the squad |
| Squad.SplitExactly | lib/services/squad-analysis-service.ts:69-70 | the XI holds exactly the picks in slots 1-11 and the bench exactly the others |
| Squad.UnavailablesExactly | lib/services/squad-analysis-service.ts:73-75 | the filter keeps exactly the picks whose player is not available or has a chance of playing below 75 |
| Squad.PlayerIds | lib/services/squad-analysis-service.ts:112 | one id per pick, in order |
| Squad.GameweeksFrom | lib/services/squad-analysis-service.ts:110 | the `n` consecutive gameweeks from `start` |
| Squad.XPts | lib/services/chip-strategy-service.ts:112 | the projected points of each projection, in order |
| Squad.PickIndex | lib/services/squad-analysis-service.ts:116 | the index of the first pick of that player, and None exactly when there is none |
| Squad.FindPick | lib/services/squad-analysis-service.ts:116 | `find` returns that first pick |
| SquadAnalysis.InjuryProblems | lib/services/squad-analysis-service.ts:73-89 | one injury problem per unavailable pick |
| SquadAnalysis.InjuryProblemsExactly | lib/services/squad-analysis-service.ts:73-86 | the injury problems are exactly those of the unavailable picks |
| SquadAnalysis.AvailabilityLoss | lib/services/squad-analysis-service.ts:87 | each unavailable pick costs between 5 and 15 points |
| SquadAnalysis.InjuryStep | lib/services/squad-analysis-service.ts:75-87 | one more pick adds a problem and 15 (starter) or 5 (bench) lost points exactly when it is unavailable |
| SquadAnalysis.AvailabilityTurn | lib/services/squad-analysis-service.ts:73-89 | one turn of the loop keeps the problems and the score equal to those of the picks seen so far |
| SquadAnalysis.RiskyStarters | lib/services/squad-analysis-service.ts:115-120 | at most one flagged player per projection |
| SquadAnalysis.FixtureProblems | lib/services/squad-analysis-service.ts:115-130 | one fixture problem per flagged starter |
| SquadAnalysis.FixtureStep | lib/services/squad-analysis-service.ts:115-129 | a projection adds a problem exactly when it belongs to a starter costing more than 8.0m projected under 10 points |
| SquadAnalysis.VerdictFor | lib/services/squad-analysis-service.ts:137-140 | critical under 50, needs improvement 50-69, good 70-84, excellent from 85 |
| SquadAnalysis.RoundWeighted | lib/services/squad-analysis-service.ts:134 | `Math.round` of the 40/30/30 weighting is the exact integer `(tenths + 5) div 10` |
| SquadAnalysis.NonNegative | lib/services/squad-analysis-service.ts:147-149 | `Math.max(0, x)` is the larger of 0 and `x` |
| SquadAnalysis.HealthOf | lib/services/squad-analysis-service.ts:133-151 | the score lies in [0, 100], the verdict is the score's, and the breakdown is the three scores floored at 0 |
| SquadAnalysis.HealthNearWeighted | lib/services/squad-analysis-service.ts:134-135 | inside [0, 100] the score is within half a point of the weighted average |
| SquadAnalysis.SquadAnalysisOf | lib/services/squad-analysis-service.ts:27-154 | fails exactly when the user has no squad; otherwise the score and every breakdown figure lie in [0, 100], and fixtures stay 100 without a next event |
| SquadAnalysis.CheckAvailability | lib/services/squad-analysis-service.ts:73-89 | the loop produces the injury problems and the availability score |
| SquadAnalysis.CheckFixtures | lib/services/squad-analysis-service.ts:115-130 | the loop appends the fixture problems and produces the fixtures score |
| SquadAnalysis.AnalyzeSquad | lib/services/squad-analysis-service.ts:27-154 | the method computes that analysis |
| SquadAnalysis.FinalHealth | lib/services/squad-analysis-service.ts:133-151 | the method computes that health |
| SquadAnalysis.CountKindAppend | lib/services/squad-analysis-service.ts:60 | counting problems of a kind distributes over appending |
| SquadAnalysis.ProblemCounts | lib/services/squad-analysis-service.ts:73-131 | one injury problem per unavailable pick, one bench problem iff the bench costs more than 22.0m, one fixture problem per flagged starter, and never a low-xPts problem |
| SquadAnalysis.PerfectIffNoProblems | lib/services/squad-analysis-service.ts:87-135 | the health score is 100 exactly when no problem is reported |
| SquadAnalysis.WeightedBelowPerfect | lib/services/squad-analysis-service.ts:134 | losing 5 availability, 5 fixture or 10 form points drops the score below 100 |
| ChipStrategy.WildcardOf | lib/services/chip-strategy-service.ts:78-129 | a wildcard is recommended exactly when two or more unavailable players come with an expensive bench or a low average, or the bench is expensive and the average low; its confidence is the summed score capped at 100, so within [50, 100]; the trigger is "Multiple injuries" exactly from four unavailable players |
| ChipStrategy.EvaluateWildcard | lib/services/chip-strategy-service.ts:72-130 | the method, with its accumulating score, returns that recommendation for the five-gameweek projections of the whole squad |
| ChipStrategy.HighCount | lib/services/chip-strategy-service.ts:156 | no more high projections than projections |
| ChipStrategy.BenchBoostOf | lib/services/chip-strategy-service.ts:145-171 | recommended exactly when the bench projects more than 12 points; the expected value is that total; the confidence lies in (200/3, 100] and stays at most 90 without two projections above 4 |
| ChipStrategy.TripleCaptainOf | lib/services/chip-strategy-service.ts:181-196 | a recommendation is a triple captain with confidence in (200/3, 95] |
| ChipStrategy.TripleCaptainIsBest | lib/services/chip-strategy-service.ts:181-194 | recommended exactly when some starter projects more than 10; the expected value is twice a starter's projection and at least twice every starter's |
| ChipStrategy.BlankCount | lib/services/chip-strategy-service.ts:207 | no more blanks than projections |
| ChipStrategy.FreeHitOf | lib/services/chip-strategy-service.ts:207-221 | recommended exactly from six blanking starters; the expected value is five per blank; the confidence lies in [600/11, 95] and is 95 exactly from eleven |
| ChipStrategy.Evaluation | lib/services/chip-strategy-service.ts:49-67 | an evaluation is for the chip asked about, with confidence in [50, 100] |
| ChipStrategy.Push | lib/services/chip-strategy-service.ts:49-52 | nothing is pushed exactly when the chip is not held or its evaluation declined |
| ChipStrategy.Collect | lib/services/chip-strategy-service.ts:49-67 | at most one recommendation per chip |
| ChipStrategy.CollectExactly | lib/services/chip-strategy-service.ts:49-67 | a recommendation is collected exactly when some held chip's evaluation produced it |
| ChipStrategy.CandidatesInOrder | lib/services/chip-strategy-service.ts:49-67 | the candidates are wildcard, bench boost, triple captain and free hit in that order, each present when held and recommended |
| ChipStrategy.CollectRecommendations | lib/services/chip-strategy-service.ts:48-67 | the four guarded pushes build exactly that list |
| ChipStrategy.ChipOpportunities | lib/services/chip-strategy-service.ts:39-69 | a user without a squad, or a season without a next gameweek, gets no recommendations |
| ChipStrategy.AnalyzeChipOpportunities | lib/services/chip-strategy-service.ts:39-70 | the method computes those opportunities |
| ChipStrategy.CandidatesExactly | lib/services/chip-strategy-service.ts:48-67 | at most four candidates, and each is the recommendation of a held chip |
| ChipStrategy.ChipOpportunitiesShape | lib/services/chip-strategy-service.ts:39-69 | at most four recommendations, highest confidence first, each for an available chip with confidence in [50, 100], and every available chip's recommendation is among them |
| TransferAdvisor.LastProjection | lib/services/transfer-advisor-service.ts:71 | the map built from the projections keeps, for a player, the last projection of that player, and finds none exactly when no projection is theirs |
| TransferAdvisor.WeakestLinkIsLowest | lib/services/transfer-advisor-service.ts:74-86 | a weakest link exists exactly when the starting XI is not empty; it is a starter projected no higher than any other starter (a missing projection counting as 0), and the first such in squad order, as the stable ascending sort leaves it |
| TransferAdvisor.EligiblePlayers | lib/services/transfer-advisor-service.ts:99-108 | the query never yields more players than the table holds |
| TransferAdvisor.EligibleExactly | lib/services/transfer-advisor-service.ts:100-107 | a player matches exactly when they play the same position, cost no more than the budget, are not the outgoing player, are available and are not in the squad |
| TransferAdvisor.CandidatesAreEligible | lib/services/transfer-advisor-service.ts:99-117 | at most 20 candidates, in descending form, each a matching player from the table |
| TransferAdvisor.CandidatesAreBestInForm | lib/services/transfer-advisor-service.ts:109-112 | a matching player left out means the 20 places are full and every candidate is in at least as good form |
| TransferAdvisor.CandidateIds | lib/services/transfer-advisor-service.ts:119 | one id per candidate, in order |
| TransferAdvisor.PlayerIndex | lib/services/transfer-advisor-service.ts:128 | the index of the first candidate with that id, and none exactly when no candidate has it |
| TransferAdvisor.FindPlayer | lib/services/transfer-advisor-service.ts:128 | the first candidate with that id, found exactly when one exists |
| TransferAdvisor.Consider | lib/services/transfer-advisor-service.ts:125-145 | a projection is skipped exactly when it gains no more than two points or names no candidate; otherwise the recommendation swaps the outgoing player for that candidate, with the gain as delta and an ownership context that is never both differential and template |
| TransferAdvisor.Considered | lib/services/transfer-advisor-service.ts:124-147 | at most one recommendation per projection, each sound in that sense |
| TransferAdvisor.ConsideredComplete | lib/services/transfer-advisor-service.ts:124-147 | every projection that gains more than two points for a known candidate yields a recommendation for that candidate |
| TransferAdvisor.CollectTransfers | lib/services/transfer-advisor-service.ts:122-147 | the loop collects exactly those recommendations, in projection order |
| TransferAdvisor.TopFiveShape | lib/services/transfer-advisor-service.ts:150 | at most five recommendations, largest gain first, each still sound |
| TransferAdvisor.ReplacementsShape | lib/services/transfer-advisor-service.ts:90-150 | every recommendation sells the chosen player at their projected points and buys a matching player within the selling price plus the bank, gaining more than two points; at most five, largest gain first |
| TransferAdvisor.TransferRecommendations | lib/services/transfer-advisor-service.ts:50-63 | no squad or no next gameweek gives an empty list; an empty starting XI is an error (the source's read of an undefined pick) |
| TransferAdvisor.RecommendationsShape | lib/services/transfer-advisor-service.ts:54-150 | with a starting XI the advice succeeds, sells a starter of the squad, and offers at most five matching players, largest gain first |
| TransferAdvisor.GenerateRecommendations | lib/services/transfer-advisor-service.ts:26-151 | the method computes that advice |

## Left out

- PredictionUtils.SafePer90: requires a positive minimum sample; with a minimum of 0 or less and zero minutes the source divides by zero and yields NaN or Infinity, a case the model does not represent. Every caller passes the default of 30.
- Database and network access (Prisma queries, the FPL bootstrap and live endpoints, Understat and FBref pages, the rate-limited collectors) is not modelled. Its results are inputs: `Option` snapshots for a missing user, squad or next event, and sequences in table order for query results.
- The ordering a database query would apply to ties is not modelled; the model keeps table order and then applies a stable sort.
- `syncFplData`, `syncTeams`, `syncPlayers`, `syncFixtures`, `syncEventStats` and `buildFixtureMaps` in lib/services/fplSync.ts are database orchestration; only the pure builders and the stat snapshot they call are modelled.
- `printHelp` and `main` in scripts/sync-fpl.ts write to the console and call the sync; only `parseArgs` is modelled.
- `JSON.parse` of the extracted Understat payload is not modelled; the model stops at the unescaped text.
- `getPlayerByName`, `getPlayerFixtures` and `getFixturesForPlayers` in lib/llm/tools/fplTools.ts are database lookups (case-insensitive `contains` queries, fixture joins) and are not modelled; their building blocks `normalizeSearchName` and `mapPlayerToSummary` are.
- `lambdaAttack` and `lambdaDefense` (lib/services/prediction/attack.ts, lib/services/predictionService.ts) and the `calculateXPts` pipelines are built on `Math.log`, `Math.exp` and `Math.pow` with real exponents and are not modelled; the helpers they call are.
- `Math.exp` is an arbitrary function parameter, so no property depends on its values; `Math.sqrt` is not modelled, and the simulator's statistics report the variance where the source reports its square root, the standard deviation.
- Floating-point rounding, `toFixed` and `Number` parsing of decimal strings are not modelled: reals are exact, and `toFloat` takes the already-parsed number.
- `NaN` results (an average over no values, statistics of no simulations) are modelled as `None`, or as a failed comparison where the source compares with `NaN`.
- The message, reason and news strings of problems, recommendations and comparisons are not modelled; the triggers, verdicts and winners are.
- Randomness: every `Math.random()` draw is an explicit real in [0, 1), and `simulateOnce` in the simulation loops is a parameter `draw: nat -> SimulationResult`; no distributional claim is made.
- Sampling.SamplePoisson: the draws are a finite sequence, and the sample is `None` when they run out before the product falls below `e^-λ`, where the source would keep drawing.
- Unicode lower-casing and NFD decomposition are modelled by tables covering ASCII and Latin-1 only; other characters pass through unchanged.
- The clock reading `new Date()` stored as `lastSyncedAt` is an integer parameter `now`; the `Date` parsing of `news_added` is not modelled, and the text is kept as it is.
- The transfer advisor's `TypeError` on an empty starting XI (it reads `.player` of an undefined pick) is modelled as an `Err` result.
- `analyzeChipOpportunities`, `analyzeSquad` and `generateRecommendations` are async methods of service classes with no state of their own; they are modelled as module-level methods, split into helper methods per section.
