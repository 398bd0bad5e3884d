# Dota 2 PTS tracker — statistics, forecasts and game-day bookkeeping

The tracker records ranked Dota 2 games one game day at a time. A day is
opened with a start PTS (matchmaking rating) and closed with an end PTS. It
is either itemised, with one record per match (hero, result, PTS change, time
of day, duration), or summarised, with only a match count and a win count.
From the stored days the tracker derives:

- winrates overall, for today and for the last 7 and 30 days;
- per-hero and per-time-of-day tallies, and the five most played heroes;
- a progress bar towards a target PTS;
- forecasts of the days left to reach the target;
- achievement badges for PTS milestones.

The logic exists twice: once in the vanilla tracker (`script.js`) and once in
the React app (`react-app/src/components`). The model keeps both where they
differ.

Modules:

| file | module | what it holds |
|---|---|---|
| `wrappers.dfy` | `Wrappers` | `Option` |
| `types.dfy` | `Types` | matches, game days, day summaries, win/loss counts |
| `numeric.dfy` | `Numeric` | `Math.round` of a percentage and `Math.ceil` of a quotient, exactly |
| `normalize.dfy` | `Normalize` | the match log built from stored days (both trackers' `getAllMatches`) |
| `aggregate.dfy` | `Aggregate` | date windows, period winrates, time-of-day buckets |
| `heroes.dfy` | `Heroes` | the hero dictionary and the stable top-5 sort |
| `dashboard.dfy` | `Dashboard` | the React dashboard's day-by-day counters and the progress percentage |
| `forecast.dfy` | `Forecast` | the three forecasts (React dashboard, React adaptive, `script.js`) |
| `script_tracker.dfy` | `ScriptTracker` | the `script.js` tracker object and its dashboard figures |
| `app_state.dfy` | `App` | the React state and its handlers (game-day controls, match form, target) |
| `achievements.dfy` | `Achievements` | the badge table |

Modelling conventions:

- Timestamps are integers (milliseconds).
- "Now" is a parameter.
- Midnight truncation is a parameter `dayOf`.
- Percentages and forecasts use exact integer arithmetic. `Math.round(100·w/n)` is `(200w + n) div 2n`.
- `Math.ceil(p/q)` is characterised by `(r−1)·q < p ≤ r·q`. It is computed as `-((-p) div q)`, which divides a negative numerator when p > 0. That is correct because q > 0, and for a positive divisor Dafny's Euclidean division and floor division agree.
- A day's summary fields (`matchesCount`, `wins`, `losses`, `winrate`, `ptsChange`) are one optional `DayStats`, because every writer sets them together.
- Each forecast returns a tagged outcome, with one constructor per text the component shows.

## Model

| member | source | states |
|---|---|---|
| Numeric.Winrate | react-app/src/components/ChartsSection.tsx:186-191 | 0 for an empty count; otherwise the integer nearest to 100·wins/count, with halves rounded up as `Math.round` does; always within [0,100] when 0 ≤ wins ≤ count |
| Numeric.CeilDiv | script.js:261 | the least integer r with p ≤ r·q, which is `Math.ceil(p/q)` for q > 0, negative p included |
| Numeric.CeilDivNonPositive | react-app/src/components/AdaptiveForecast.tsx:178 | the ceiling of a non-positive quotient is not positive |
| Types.OpenDay | react-app/src/components/GameDayControls.tsx:30-36 | a new day has no matches, no end PTS, no summary, is not complete, and carries the start PTS and date given |
| Types.EnteredMatch | react-app/src/components/AdvancedStats.tsx:44-51 | an empty hero becomes 'Не указан' and any other hero is kept; a missing PTS change or duration becomes 0 and a given one is kept; result, time of day and date are kept |
| Types.WinsPlusLosses | script.js:143-144 | every match is a win or a loss, so wins + losses = number of matches |
| Types.CountWinsAppend | react-app/src/components/Dashboard.tsx:24-51 | win counts add up over concatenated match lists |
| Normalize.Synthetic | react-app/src/components/ChartsSection.tsx:101-118 | `n` copies of the same placeholder match, none for n ≤ 0 |
| Normalize.SyntheticWins | react-app/src/components/ChartsSection.tsx:101-118 | placeholder wins count as wins and placeholder losses do not |
| Normalize.DayMatches | react-app/src/components/ChartsSection.tsx:95-119 | an itemised day contributes its matches unchanged; a summary-only day contributes exactly `matchesCount` matches dated with the day, `wins` wins first and then losses, with no hero; a day with neither contributes nothing |
| Normalize.Flatten | react-app/src/components/ChartsSection.tsx:95-119 | every match a completed day contributes is in the log, and every match in the log comes from some completed day's contribution |
| Normalize.AllMatches | react-app/src/components/ChartsSection.tsx:91-151 | the log starts with the completed days' log and ends with the open day's contribution, if there is an open day |
| Normalize.FlattenAppend | react-app/src/components/ChartsSection.tsx:93-132 | the log of a concatenation of days is the concatenation of their logs |
| Normalize.FlattenSnoc | react-app/src/components/ChartsSection.tsx:93-132 | a day added at the end adds its contribution at the end of the log |
| Normalize.DayOrder | react-app/src/components/ChartsSection.tsx:93-148 | the log holds the days in stored order, each day's matches in one block, and the open day last |
| Normalize.CloseKeepsLog | react-app/src/components/GameDayControls.tsx:142-148 | closing the open day into a day with the same contribution leaves the log unchanged |
| Normalize.AppendDay | react-app/src/components/ChartsSection.tsx:95-119 | the push loops append exactly the day's contribution to the accumulated log |
| Normalize.CollectMatches | react-app/src/components/ChartsSection.tsx:91-151 | the loop over days and then the open day builds exactly the normalised log |
| Normalize.ScriptAgreesOnItemisedDays | script.js:295-311 | when every day's summary, if any, is that of its own matches (days closed with no match included), the `script.js` log (only `matches` arrays) equals the React log |
| Normalize.SelfSummarisedContributes | react-app/src/components/ChartsSection.tsx:95-119 | a day whose summary is that of its own matches contributes exactly its `matches` array, none for a day closed with no match |
| Normalize.ScriptFlatten | script.js:295-303 | every match in a completed day's `matches` array is in the log, and every match in the log comes from one; summary-only days contribute nothing |
| Normalize.ScriptAllMatches | script.js:295-311 | the `script.js` log starts with the completed days' matches and ends with the open day's `matches` array |
| Aggregate.Dated | react-app/src/components/ChartsSection.tsx:157-160 | a filter by date keeps no more matches than it is given, and every match it keeps has a date the window accepts |
| Aggregate.DatedMembers | react-app/src/components/ChartsSection.tsx:153-180 | a match is in a window's result exactly when it is in the log and its date is in the window |
| Aggregate.DatedSubMultiset | script.js:313-331 | every window is a sub-multiset of the log |
| Aggregate.DatedAppend | react-app/src/components/ChartsSection.tsx:153-180 | filtering distributes over concatenation, so order is kept |
| Aggregate.DatedNarrows | react-app/src/components/ChartsSection.tsx:164-180 | filtering by a wider window and then a narrower one is filtering by the narrower one |
| Aggregate.Today | react-app/src/components/ChartsSection.tsx:153-162 | the today window accepts a time exactly when it falls on the same calendar day as now |
| Aggregate.AtOrAfter | react-app/src/components/ChartsSection.tsx:164-180 | the 7- and 30-day windows accept a time exactly when it is at or after their start |
| Aggregate.TodayMatches | script.js:313-322 | a match is among today's matches exactly when it is in the log and was played on today's calendar day |
| Aggregate.WeeklyMatches | script.js:324-331 | a match is among the week's matches exactly when it is in the log and no older than 7·86400000 ms |
| Aggregate.MonthlyMatches | script.js:815-821 | a match is among the month's matches exactly when it is in the log and no older than 30·86400000 ms |
| Aggregate.WeekWithinMonth | script.js:324-331 | the last-7-days window is the last-30-days window filtered again, and a sub-multiset of it and of the log |
| Aggregate.PeriodWinrate | react-app/src/components/ChartsSection.tsx:186-191 | 0 for an empty window, otherwise the rounded share of wins; always in [0,100] |
| Aggregate.TallyBy | react-app/src/components/ChartsSection.tsx:248-259 | a bucket's wins and losses are non-negative and add up to its total, which is at most the number of matches |
| Aggregate.Keyed | react-app/src/components/ChartsSection.tsx:312-320 | a bucket never holds more than the log, and every match in it has the bucket's key |
| Aggregate.KeyedMembers | react-app/src/components/ChartsSection.tsx:312-320 | a match is in a bucket exactly when it is in the log and has the bucket's key |
| Aggregate.KeyedAppend | react-app/src/components/ChartsSection.tsx:312-320 | bucketing distributes over concatenation, so a bucket keeps the log's order |
| Aggregate.TallyByKeyed | react-app/src/components/ChartsSection.tsx:312-320 | a bucket's counter holds the number of its matches, the wins among them and the rest as losses |
| Aggregate.BucketRates | react-app/src/components/ChartsSection.tsx:324-329 | each bucket's rounded rate and total are the winrate and the size of that bucket's matches |
| Aggregate.TallyTimeOfDay | react-app/src/components/ChartsSection.tsx:305-321 | always exactly the four buckets, even for no matches, and each bucket is the tally of the matches in that slot, a missing time of day counting as morning |
| Aggregate.Slot | react-app/src/components/ChartsSection.tsx:313 | a match's bucket is its recorded time of day, and morning when it has none |
| Aggregate.BucketsPartition | script.js:713-728 | the four bucket totals sum to the number of matches |
| Aggregate.TimeOfDayWinrates | react-app/src/components/ChartsSection.tsx:323-327 | four rates, the k-th the winrate of the matches in bucket k (morning, afternoon, evening, night), so in [0,100] and 0 for an empty bucket |
| Aggregate.TimeOfDayCounts | react-app/src/components/ChartsSection.tsx:328 | four counts, the k-th the number of matches in bucket k, summing to the number of matches |
| Heroes.HeroStatsCorrect | react-app/src/components/ChartsSection.tsx:248-259 | the hero dictionary has distinct keys, ordered by the index of each hero's first match; a hero (or 'Не указан') is a key exactly when some match has it, and its value is that hero's win/loss/total tally |
| Heroes.HeroTallies | react-app/src/components/ChartsSection.tsx:245-259 | the dictionary's keys are distinct, a hero is a key exactly when it has a match, and each value is that hero's tally |
| Heroes.TalliesStep | react-app/src/components/ChartsSection.tsx:247-258 | one `forEach` step keeps every value equal to its hero's tally over the longer log |
| Heroes.FirstIndex | react-app/src/components/ChartsSection.tsx:246-252 | the index of a hero's first match: that match has the hero and no earlier one does; the log's length when the hero never played |
| Heroes.HeroKeysFirstSeen | react-app/src/components/ChartsSection.tsx:246-252 | a hero is a key exactly when it has a first match, and the keys are in the order of their first matches |
| Heroes.FirstIndexSnoc | react-app/src/components/ChartsSection.tsx:246-252 | appending a match keeps every existing first index and gives the new hero the appended position |
| Heroes.FirstSeenKnown | react-app/src/components/ChartsSection.tsx:249-258 | a match for a known hero keeps the keys in first-seen order |
| Heroes.FirstSeenNew | react-app/src/components/ChartsSection.tsx:249-252 | a match for a new hero appends a key that was first seen last |
| Heroes.TallyHeroes | script.js:636-651 | the `forEach` loop that bumps the dictionary builds exactly that dictionary |
| Heroes.HeroKey | script.js:640 | the dictionary key is never empty: the match's hero when it has a non-empty one, otherwise 'Не указан' |
| Heroes.Record | script.js:640-650 | one `forEach` step (no contract of its own; `RecordKnownHero` and `RecordNewHero` state its effect) |
| Heroes.HeroStats | script.js:636-651 | the dictionary after the whole log never has more keys than there are matches; `HeroStatsCorrect` states its contents |
| Heroes.Entries | react-app/src/components/ChartsSection.tsx:262 | `Object.entries` lists one entry per key, in key order |
| Heroes.SumTotalsUpdate | react-app/src/components/ChartsSection.tsx:253 | replacing one entry changes the sum of totals by the difference of the two totals |
| Heroes.RecordAddsOne | react-app/src/components/ChartsSection.tsx:250-258 | recording one match keeps the dictionary valid and raises the sum of totals by one |
| Heroes.RecordKnownHero | react-app/src/components/ChartsSection.tsx:253-258 | for a hero already in the dictionary the keys stay as they were, that hero's entry becomes its counter bumped by the match, every other entry is unchanged, and the sum of totals rises by one |
| Heroes.KnownEntries | react-app/src/components/ChartsSection.tsx:253-258 | the entries after a known hero's match are the old entries with that hero's one replaced in place |
| Heroes.RecordNewHero | react-app/src/components/ChartsSection.tsx:250-252 | for a hero seen for the first time the key is appended to the keys, the entries are the old ones followed by that hero's entry of one game, and the sum of totals rises by one |
| Heroes.NewEntries | react-app/src/components/ChartsSection.tsx:250-258 | the entries after a new hero's match are the old entries and then the new one |
| Heroes.HeroTotalsPartition | react-app/src/components/ChartsSection.tsx:248-259 | the hero totals sum to the number of matches |
| Heroes.InsertByTotalPermutes | react-app/src/components/ChartsSection.tsx:263 | inserting an entry into the sorted list adds exactly that entry |
| Heroes.InsertByTotalSorted | react-app/src/components/ChartsSection.tsx:263 | inserting into a list sorted by descending total keeps it sorted |
| Heroes.InsertedBelowHead | react-app/src/components/ChartsSection.tsx:263 | inserting below the head of a sorted list adds nothing above the head's total |
| Heroes.ConsSorted | react-app/src/components/ChartsSection.tsx:263 | a head at least as large as everything in a sorted tail keeps the list sorted |
| Heroes.InsertByTotalStable | react-app/src/components/ChartsSection.tsx:263 | the inserted entry goes before its ties, which keep their order |
| Heroes.SortByTotal | react-app/src/components/ChartsSection.tsx:262-263 | the sort returns a permutation ordered by descending total, and entries with equal totals keep their original order (stability) |
| Heroes.WithTotalAppend | react-app/src/components/ChartsSection.tsx:263 | selecting the entries of one total distributes over concatenation |
| Heroes.PrefixProperties | react-app/src/components/ChartsSection.tsx:264 | a prefix of a sorted list is sorted and contained in it, and everything after the prefix has a total no larger than the prefix's last |
| Heroes.PrefixBoundsRest | react-app/src/components/ChartsSection.tsx:264 | an entry not among the first k of a sorted list has a total no larger than the k-th |
| Heroes.TopHeroes | react-app/src/components/ChartsSection.tsx:262-264 | at most five entries, all from the dictionary, in descending total with ties in first-seen order; a hero is left out only when five are shown and its total is at most the fifth's |
| Heroes.TopAreTallies | react-app/src/components/ChartsSection.tsx:244-264 | every entry among the top five is a hero that played, carrying that hero's own tally |
| Heroes.TopHeroesOf | react-app/src/components/ChartsSection.tsx:244-264 | the chart shows at most five heroes, in descending total, each a hero that played with its own win/loss/total tally; a hero that played is left out only when five are shown and its total is at most the fifth's |
| Heroes.TopLeavesOutSmaller | react-app/src/components/ChartsSection.tsx:262-264 | a hero that played and is not in the top five has no more games than the fifth shown |
| Dashboard.CountMatches | react-app/src/components/Dashboard.tsx:26-29 | the per-match loop adds the number of matches in the window and the wins among them |
| Dashboard.CountDay | react-app/src/components/Dashboard.tsx:24-34 | one day adds its itemised matches in the window, or its whole summary when its own date is in the window |
| Dashboard.CountDays | react-app/src/components/Dashboard.tsx:24-51 | the counters over the completed days and then the open day equal the specified sum |
| Dashboard.DayCounts | react-app/src/components/Dashboard.tsx:25-35 | an itemised day adds at most its own matches; a day without matches adds nothing unless it has a summary dated inside the window; for a well-formed day the wins never exceed the matches |
| Dashboard.DaysCounts | react-app/src/components/Dashboard.tsx:24-36 | over well-formed completed days the wins never exceed the matches |
| Dashboard.TrackerCounts | react-app/src/components/Dashboard.tsx:24-51 | over well-formed days, completed and open, the wins never exceed the matches |
| Dashboard.OverallCounts | react-app/src/components/Dashboard.tsx:18-55 | on well-formed days, the overall counters are the length and the wins of the whole normalised log |
| Dashboard.TodayCounts | react-app/src/components/Dashboard.tsx:57-112 | on well-formed days, today's counters are the length and the wins of the log's today window |
| Dashboard.WeeklyCounts | react-app/src/components/Dashboard.tsx:115-163 | on well-formed days, the week's counters are the length and the wins of the log's last-7-days window |
| Dashboard.WindowCounts | react-app/src/components/Dashboard.tsx:24-51 | on well-formed days, the counters of any window are those of the normalised log restricted to it |
| Dashboard.DatedSameDate | react-app/src/components/Dashboard.tsx:131-137 | a window keeps all or none of a day's placeholder matches, as its own date decides |
| Dashboard.DayCountsAgree | react-app/src/components/Dashboard.tsx:116-163 | a day's counter contribution equals the count and wins of its normalised matches inside the window |
| Dashboard.LogCountsAppend | react-app/src/components/Dashboard.tsx:24-51 | counts over a concatenation add up |
| Dashboard.DaysCountsAgree | react-app/src/components/Dashboard.tsx:24-34 | the day-by-day counters over completed days equal the counts over their normalised log |
| Dashboard.CountsAgreeWithLog | react-app/src/components/Dashboard.tsx:24-51 | the counters over completed days and the open day equal the counts over the full normalised log, for any window |
| Dashboard.DatedAlways | react-app/src/components/Dashboard.tsx:19-51 | the overall counters filter nothing out |
| Dashboard.DashboardAgreesWithCharts | react-app/src/components/Dashboard.tsx:19-163 | the dashboard's overall, today and weekly counts and winrates equal those of the chart windows over the log; today's and the week's wins ≤ matches ≤ total matches |
| Dashboard.ProgressPercent | react-app/src/components/Dashboard.tsx:180 | 0 when the target is not positive; otherwise 100·current/target capped at 100 and not clamped below 0 (negative for a negative current PTS) |
| Dashboard.ProgressMonotone | react-app/src/components/Dashboard.tsx:180 | the percentage never falls when the current PTS rises |
| Forecast.ScaledGain | script.js:286-293 | `count` times the expected PTS per match, 20·(2·wins − count): positive exactly when wins are more than half the matches and zero exactly when they are half |
| Forecast.DashboardForecast | react-app/src/components/Dashboard.tsx:166-177 | no data unless some match was won; unreachable iff wins do not outnumber losses; goal reached iff nothing more is needed; otherwise the least positive number of days whose gain at one match's expected gain per day covers the PTS needed |
| Forecast.CompletedVolume | react-app/src/components/AdaptiveForecast.tsx:144-158 | the number of days with a known match count is at most the number of completed days |
| Forecast.DayVolume | react-app/src/components/AdaptiveForecast.tsx:144-158 | a completed day counts as one day exactly when it has matches or a summary; it adds its match count, or its summary's count when it has no matches, and nothing when it does not count |
| Forecast.CountVolume | react-app/src/components/AdaptiveForecast.tsx:144-158 | the accumulation loop counts days with a known match count and sums those counts |
| Forecast.AvgMatchesPerDay | react-app/src/components/AdaptiveForecast.tsx:160 | the sum of the known match counts over the number of days that have one; exactly 1 when no completed day has a known count |
| Forecast.AdaptiveForecast | react-app/src/components/AdaptiveForecast.tsx:93-181 | the outcome chain as an iff per outcome: no matches; 1–4 matches; a non-positive expected gain (checked before the completed days); no completed day; a non-positive daily average; otherwise the least number of days whose expected gain covers the PTS needed; never a "goal reached" outcome, and a met goal gives 0 or fewer days |
| Forecast.AdaptiveExample | react-app/src/components/AdaptiveForecast.tsx:132-178 | 10 matches with 7 wins, 1000 PTS needed and 10 matches a day give 13 days |
| Forecast.ExampleLog | react-app/src/components/AdaptiveForecast.tsx:30-90 | the example's summary-only day of 10 matches and 7 wins normalises to 10 matches with 7 wins |
| Forecast.CompletedMatchCount | script.js:282-284 | `getTotalMatches` is the length of the completed days' itemised log |
| Forecast.DaysSinceStart | script.js:273-280 | the span between the first and last completed day in whole days, rounded up |
| Forecast.AvgGamesPerDay | script.js:266-271 | the average is zero exactly when there is no completed day, the span is zero days or there are no itemised completed matches |
| Forecast.ScriptForecast | script.js:236-264 | no data iff no matches; no activity iff the average games per day is zero; unreachable iff the expected gain is not positive; otherwise the PTS needed over ONE match's expected gain, rounded up |
| ScriptTracker.CalculateDayStats | script.js:140-154 | count = number of matches, wins = the matches won, wins + losses = count, winrate the rounded share of wins (the period winrate of the day's matches, so in [0,100] and 0 for no matches), PTS change = end − start once closed and the sum of the matches' changes before |
| ScriptTracker.TrackerLogIsNormalised | script.js:140-154 | on the days the tracker stores (closed days and the open day, each summarised by `calculateDayStats`), the `script.js` log equals the React log |
| ScriptTracker.EmptyClosedDay | script.js:81-112 | a day started and ended without a match is closed with a zero summary and adds no match to either log |
| ScriptTracker.SumPts | script.js:152 | the sum of the matches' PTS changes: 0 for no matches, non-negative when no change is negative and non-positive when no change is positive |
| ScriptTracker.Tracker.constructor | script.js:3-7 | the tracker starts at 0 PTS with target 10000, no days and no open day |
| ScriptTracker.Tracker.StartGameDay | script.js:57-79 | refused, changing nothing, while a day is open or without a number; otherwise opens an empty, incomplete day with the start PTS |
| ScriptTracker.Tracker.EndGameDay | script.js:81-112 | refused, changing nothing, without an open day or a number; otherwise appends exactly one completed day (earlier days untouched), sets the current PTS to its end PTS, clears the open day, and leaves the match log unchanged |
| ScriptTracker.Tracker.AddMatch | script.js:114-138 | refused without an open day; otherwise appends exactly one entered match to the open day, recomputes its statistics, and the match log grows by that match |
| ScriptTracker.Tracker.Figures | script.js:185-234 | the overall winrate is that of the whole log, and the today, weekly and monthly winrates those of the today, last-7-days and last-30-days windows (the monthly one as the period chart computes it at script.js:566-574); all in [0,100] and all 0 with no matches; the forecast is `updateForecast`'s outcome, "no data" with no matches; the progress is shown only for a positive target, is the progress percentage and never exceeds 100 |
| App.CloseSimple | react-app/src/components/GameDayControls.tsx:69-88 | the closed day keeps the open day's fields, is settled with the typed-in counts (losses = matches − wins ≥ 0, rounded winrate, PTS change = end − start), and without itemised matches stands for exactly that many matches and wins in the log |
| App.CloseDetailed | react-app/src/components/GameDayControls.tsx:117-138 | the closed day keeps the open day's fields and is settled with the count, wins and losses of its matches; a day with matches or with no summary contributes the same matches as before |
| App.Completed | react-app/src/components/GameDayControls.tsx:77-88 | the closed day keeps the open day's date, start PTS and matches, is complete with the end PTS and the given counts, and is settled exactly when 0 ≤ wins ≤ matches and losses = matches − wins |
| App.AppState.constructor | react-app/src/App.tsx:11-14 | the app starts at 0 PTS with target 10000, no days and no open day |
| App.AppState.ValidIsWellFormed | react-app/src/components/GameDayControls.tsx:77-88 | every stored day's wins lie within its match count and its winrate within [0,100] |
| App.AppState.StartGameDay | react-app/src/components/GameDayControls.tsx:19-41 | refused, changing nothing, while a day is open or without a number; otherwise opens an empty, incomplete day with the start PTS |
| App.AppState.EndGameDaySimple | react-app/src/components/GameDayControls.tsx:43-104 | refused, changing nothing, unless there is an open day, an end PTS, a match count ≥ 0 and a win count ≥ 0 not above it; otherwise appends exactly one settled day, sets the current PTS, clears the open day, and the log becomes the completed days' log plus that day's contribution |
| App.AppState.EndGameDayDetailed | react-app/src/components/GameDayControls.tsx:106-152 | refused without an open day or an end PTS; otherwise appends the day settled from its own matches, sets the current PTS, clears the open day, and (for a day with matches or no summary) leaves the log unchanged |
| App.AppState.AddMatch | react-app/src/components/AdvancedStats.tsx:30-68 | refused without an open day or when the open day carries a summary; otherwise appends exactly one entered match at the end of the open day, other fields unchanged, and the log grows by that match |
| App.AppState.SetTarget | react-app/src/components/Dashboard.tsx:182-190 | the target changes exactly when the input parses to a positive integer, and then to that number |
| Achievements.Badges | react-app/src/components/AchievementBadges.tsx:24-79 | exactly six badges with ids, titles and strictly ascending thresholds 1000 to 5000; a badge is achieved iff the PTS reaches its threshold; an achieved badge is preceded only by achieved ones |
| Achievements.Unlocked | react-app/src/components/AchievementBadges.tsx:82 | the filter keeps no more badges than it is given, and every badge it keeps is achieved |
| Achievements.DropLastClosed | react-app/src/components/AchievementBadges.tsx:82 | dropping the last badge keeps "achieved badges come first" |
| Achievements.UnlockedIsPrefix | react-app/src/components/AchievementBadges.tsx:82 | when achieved badges come first, the unlocked list is a prefix and a badge is in it iff it is achieved |
| Achievements.CutPoint | react-app/src/components/AchievementBadges.tsx:24-79 | when achieved badges come first, there is a position before which every badge is achieved and from which none is |
| Achievements.UnlockedUpTo | react-app/src/components/AchievementBadges.tsx:82 | the filter keeps exactly the badges before that position, in order |
| Achievements.UnlockedCount | react-app/src/components/AchievementBadges.tsx:115 | the unlocked count is at most six |
| Achievements.UnlockedBadges | react-app/src/components/AchievementBadges.tsx:82-115 | the unlocked badges are the first `count` of the list; none below 1000 PTS and all six from 5000 PTS |
| Achievements.UnlockedMonotone | react-app/src/components/AchievementBadges.tsx:29-77 | raising the PTS never locks a badge nor lowers the unlocked count |

### Where the code and its description differ

- The adaptive forecast has no "goal reached" outcome. With enough matches and a positive expected gain, a met target gives a ceiling of 0 or below. It tests for an unreachable goal before it tests for completed days. The model follows the code.
- In `script.js`, `updateForecast` divides the PTS needed by the expected gain of one match. The calendar-span average of games per day only guards against zero and does not scale the result. So its "days" count is a count of matches. The model follows the code.
- `script.js` builds its log from `matches` arrays only (`Normalize.ScriptFlatten`). Days it closes itself, including a day closed with no match (a zero summary), carry the summary of their own matches, and on such days both logs agree (`Normalize.ScriptAgreesOnItemisedDays`, `ScriptTracker.TrackerLogIsNormalised`). Only a summary-only day with a non-zero count, which the React app's simple close writes, contributes nothing in `script.js` and its placeholder matches in the React app.
- The React dashboard counts days one by one rather than through the match log. `Dashboard.DashboardAgreesWithCharts` proves that the two give the same figures.
- The React dashboard's forecast (`Dashboard.tsx:166-177`) is described as reporting the goal reached whenever the current PTS meets the target, whatever the match history. The code tests for a won match first ("no data") and for a positive expected gain next ("unreachable"), and only then for the PTS still needed. So a met target with no wins, or with wins not outnumbering losses, is not reported as reached. `Forecast.DashboardForecast` follows the code.

## Left out

- DOM and chart rendering are not modelled: element lookup, listeners, `innerHTML`, Chart.js, JSX, labels, badge icons, colours and descriptions. They are presentation only.
- `HistorySection.tsx` is not part of this model. It only re-displays stored statistics.
- Persistence is not modelled: `saveToStorage`/`loadFromStorage`, App.tsx's localStorage effects and the storage key the two trackers share. Both constructors start from the defaults. State written by one tracker and read by the other (for example a `script.js` open day that already carries a summary when the React match form sees it) is covered only as far as the React invariants allow.
- `prompt`, `alert`, form reading and `parseInt`/`isNaN` string parsing are not modelled. Inputs arrive already parsed, as `Option<int>`: `None` is missing or not a number. The two trackers' slightly different string tests are not distinguished.
- Floating point is not modelled. Winrates, estimates and forecasts are exact. IEEE rounding artefacts of `Math.round`/`Math.ceil` are not reproduced.
- `Math.round` of the progress percentage in the progress-bar text is not modelled. `ScriptTracker.Tracker.Figures` gives the exact percentage.
- Time zones and daylight saving are not modelled. Midnight truncation is the parameter `dayOf`. "7 and 30 days ago" are fixed offsets of 7·86400000 and 30·86400000 ms, whereas `setDate` shifts local calendar days.
- The `startDate`/`endDate` fields are not modelled. They are written but never read by the modelled code.
- Heroes.HeroStatsCorrect: assumes hero names that are not integer-like. JS enumerates integer-like object keys first, and the model keeps first-seen order for every key.
- `timeOfDay` values outside the four known ones are excluded by the type. JS would index an undefined bucket.
- ScriptTracker.CalculateDayStats: an itemised match without a PTS change counts as 0 in the open-day sum. In JS it would make the sum `NaN`, but the `script.js` form always records one.
- A day with `matchesCount` but no `wins` (a `NaN` in the React counters) cannot be represented, because the summary fields are one optional record. No handler writes such a day.
- ScriptTracker.Tracker.AddMatch and Types.EnteredMatch: the hero default applies only to the empty string, the `||` case the forms can produce.
- `calculateDayStats` updates the day object in place. The model recomputes the day as a value and stores it back, so aliasing of the day object is not modelled.
- App.AppState.EndGameDayDetailed: the log is proved unchanged only when the open day had matches or no summary. An open day that carries a summary but no matches (possible only with state from `script.js`) gets its summary replaced by zeros, and its placeholder matches leave the log.
