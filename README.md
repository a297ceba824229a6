# Brand tracker analytics, modelled in Dafny

This project models the analytics core of a brand-mention tracker. The tracker stores
mentions of a brand: a post on Twitter, Facebook, a news site, a blog or a forum,
with a sentiment, topics and engagement counters. It turns them into reports:
- the live analytics snapshot;
- the analytics overview with growth between stored snapshots;
- the spike alert;
- the dashboard summary with its rule-based insights;
- the dashboard widgets;
- the paginated mention list;
- the topic extraction and sentiment labelling done on ingestion;
- the dashboard record, with its default layout and quick statistics.

Database queries become functions over a sequence that stands for the collection, in store order.
The clock is a parameter:
- `now` and local midnight are millisecond counts;
- every mention carries its local hour and its UTC calendar day as plain fields.

The modules follow the program's files:

| module (file) | models |
|---|---|
| `MentionSchema` (mention.dfy) | the mention record and its projections |
| `TimeWindows` (windows.dfy) | the `period` / `timeRange` mapping and the "mentions since" query |
| `Numbers` (numbers.dfy) | `toFixed` rounding, JavaScript division by zero, guarded percentages |
| `Counting` (counting.dfy) | the counter object of `reduce((acc, x) => { acc[x] = (acc[x] \|\| 0) + 1 })`, in key insertion order, with its loop |
| `Sorting` (sorting.dfy) | the stable descending sort used for JavaScript `sort` and for Mongo `$sort: -1` |
| `AnalyticsModel` (analytics_model.dfy) | the stored snapshot, `calculateGrowth`, `getLatestAnalytics` |
| `RealTime` (realtime.dfy) | `calculateRealTimeAnalytics` |
| `AnalyticsRoute` (analytics_route.dfy) | `GET /overview` and `GET /spike-alerts` |
| `InsightGenerator` (insights.dfy) | `generateInsights` |
| `DashboardRoute` (dashboard_route.dfy) | `GET /:brand/summary` and `GET /:brand/widgets/:widgetType` |
| `MentionsRoute` (mentions_route.dfy) | `GET /` (list), `POST /` (create), `extractTopics`, the sentiment label |
| `DashboardModel` (dashboard_model.dfy) | the dashboard record: a class with `getOrCreate` and `updateQuickStats` |

Where the source changes state step by step, the model is imperative Dafny, each method proved against a specification function:
- `Counting.CountKeys`: the counter reduce, a loop over the keys;
- `RealTime.BuildTopicTable` and `RealTime.Record`: the topic table built in place;
- `DashboardRoute.CountSentiments`: the sentiment-count reduce;
- `InsightGenerator.GenerateInsights`: the insight list built with successive pushes;
- the `DashboardModel.Dashboard` and `DashboardModel.DashboardStore` classes.

## Model

| member | source | states |
|---|---|---|
| MentionSchema.SourceName | backend/models/Mention.js:8-12 | the stored string of each of the five source enum values is non-empty and starts with a lower-case letter |
| MentionSchema.SourceNameInjective | backend/models/Mention.js:8-12 | distinct sources have distinct stored names, so grouping by `$source` groups by source |
| MentionSchema.SentimentsPartition | backend/routes/analytics.js:344-347 | positive + negative + neutral counts equal the number of mentions |
| MentionSchema.TotalInteractionsNonNegative | backend/routes/analytics.js:352-356 | with non-negative counters, the summed likes + shares + comments (missing counted 0) is non-negative |
| TimeWindows.PeriodDays | backend/routes/analytics.js:15 | 7 exactly for "7d", 30 exactly for "30d", 90 exactly for anything else |
| TimeWindows.PeriodDefaults | backend/routes/dashboard.js:9-11 | a missing period means 7 days; "" and unknown strings mean 90 |
| TimeWindows.DaysAgo | backend/routes/analytics.js:336-337 | the start of an N-day window is never after now |
| TimeWindows.MentionsSince | backend/routes/analytics.js:339-342 | a mention is selected iff it is in the store, of the brand, and not older than the start; each selected mention occurs as often as in the store |
| TimeWindows.MentionsSinceAppend | backend/routes/analytics.js:339-342 | the query over a concatenated store is the concatenation of the two results, so store order is kept |
| TimeWindows.MentionsSinceSingle | backend/routes/analytics.js:339-342 | a one-record store yields that record exactly when it matches |
| Numbers.RoundTo | backend/models/Analytics.js:86 | `toFixed` read back: a whole number of units of 10^-places, within half a unit of the input, of the same sign, and 0 for 0 |
| Numbers.NegatedRounding | backend/models/Analytics.js:86 | a negative number rounds to the negation of its magnitude's rounding (halves away from zero) |
| Numbers.PercentOf | backend/models/Dashboard.js:107-108 | `a / b * 100` is finite iff b ≠ 0, and then equals a·100/b |
| Numbers.GuardedPercent | backend/routes/dashboard.js:131-133 | 0 when total ≤ 0, else part·100/total, within [0, 100] for 0 ≤ part ≤ total |
| Numbers.SpikePercentage | backend/routes/analytics.js:197 | 0 when the baseline is ≤ 0; otherwise (count − baseline)/baseline·100 as `toFixed(places)` shows it (`RoundedFrom`: the nearest multiple of 10^-places, halves away from zero), never positive when count ≤ baseline |
| Counting.TallyCorrect | backend/routes/analytics.js:359-362 | the counter's keys are the distinct keys in first-seen order, each maps to its number of occurrences, and the counts sum to the length |
| Counting.TallyEntries | backend/routes/analytics.js:359-362 | keys are distinct, every entry's key occurs with a positive count, and every occurring key has an entry |
| Counting.CountKeys | backend/routes/analytics.js:359-362 | the reduce loop produces exactly the counter object |
| Counting.MostCountedIsMax | backend/routes/dashboard.js:320 | no key occurs more often than the one `reduce((a, b) => a[1] > b[1] ? a : b)` picks |
| Counting.MostCountedTie | backend/routes/dashboard.js:320 | among keys counted equally often, the pick is the one first seen last |
| Counting.TallyKeyOrder | backend/routes/analytics.js:359-362 | counter entries are in the order in which their keys first occur |
| Sorting.SortDesc | backend/routes/analytics.js:384 | the sorted sequence is a permutation of its input |
| Sorting.SortDescSorted | backend/routes/analytics.js:384 | `sort((a, b) => b.count - a.count)` gives non-increasing keys |
| Sorting.SortDescStable | backend/routes/analytics.js:384 | elements with equal keys keep their relative order |
| AnalyticsModel.BreakdownEntries | backend/models/Analytics.js:28-34 | a stored breakdown has exactly the five source keys in schema order, each with its stored count |
| AnalyticsModel.NewSnapshot | backend/models/Analytics.js:14-34 | a new snapshot has period daily, all-zero metrics, zero for every source, empty topic, hour and keyword lists |
| AnalyticsModel.CalculateGrowth | backend/models/Analytics.js:82-87 | 0 without a previous snapshot or when its metric is 0; otherwise (current − previous)/previous·100 as `toFixed(1)` shows it (`RoundedFrom` with one place) |
| AnalyticsModel.GrowthAgainstItself | backend/models/Analytics.js:83-86 | growth of a snapshot against itself is 0 |
| AnalyticsModel.RawGrowthSign | backend/models/Analytics.js:86 | for a positive previous value the unrounded growth is positive iff the value rose and negative iff it fell |
| AnalyticsModel.GrowthSign | backend/models/Analytics.js:86 | after rounding the sign never contradicts the change, and an unchanged value gives 0 |
| AnalyticsModel.GrowthRoundsSmallChangeToZero | backend/models/Analytics.js:86 | 10000 → 10001 is reported as growth 0 |
| AnalyticsModel.NegativeBaselineInvertsSign | backend/models/Analytics.js:86 | with a negative previous value, a rise is reported as negative growth |
| AnalyticsModel.Select | backend/models/Analytics.js:75-78 | exactly the brand's snapshots dated from the start on are selected, each as often as it is stored |
| AnalyticsModel.SelectAppend | backend/models/Analytics.js:75-78 | the query over a concatenated store is the concatenation of the two results, so store order is kept |
| AnalyticsModel.SelectSingle | backend/models/Analytics.js:75-78 | a one-snapshot store yields that snapshot exactly when it matches |
| AnalyticsModel.LatestAnalytics | backend/models/Analytics.js:71-79 | a permutation of the selected snapshots, all of the brand, dated from the start on, newest first |
| AnalyticsModel.LatestIsNewest | backend/models/Analytics.js:75-78 | the first result is a snapshot of the brand in the window and none there is newer |
| AnalyticsModel.NewestFor | backend/models/Dashboard.js:98-100 | None iff the brand has no snapshot; otherwise one of the brand's snapshots, and none is newer |
| AnalyticsRoute.Overview | backend/routes/analytics.js:7-51 | a 400 "Brand name is required" exactly when the brand is missing or empty |
| AnalyticsRoute.OverviewFromStored | backend/routes/analytics.js:18-37 | with stored snapshots in the window the report shows the newest (none in the window is newer): its counts, scores, source breakdown, peak hours, keywords and competitor comparison as stored, its first five topics, and its growth against the next newest (or itself) |
| AnalyticsRoute.StoredReport | backend/routes/analytics.js:36-37 | the stored report's breakdown is the stored one as entries and its topics are exactly the first min(5, n) stored topics |
| AnalyticsRoute.OverviewSingleSnapshotHasNoGrowth | backend/routes/analytics.js:25-30 | one stored snapshot in the window gives growth 0 |
| AnalyticsRoute.OverviewFromLive | backend/routes/analytics.js:20-43 | without stored snapshots the live result over the window's mentions is shown: per-sentiment counts, sentiment and engagement scores, the source tally, exactly the first min(5, n) live topics, the 24 hour slots summing to the count, the live keywords, growth 0, and the brand as main brand without competitors |
| AnalyticsRoute.LiveReportMetrics | backend/routes/analytics.js:29-35 | the live report's total and per-sentiment counts are those of the mentions, its scores the live scores |
| AnalyticsRoute.LiveReportTables | backend/routes/analytics.js:36-39 | the live report carries the source tally, the 24 peak-hour slots summing to the count, and the live keywords |
| AnalyticsRoute.LiveReportTopics | backend/routes/analytics.js:37 | the live report's topics are exactly the first min(5, n) entries of the live topic distribution |
| AnalyticsRoute.MentionsBetween | backend/routes/analytics.js:161-167 | exactly the brand's mentions with from ≤ timestamp < to, each as often as it is stored |
| AnalyticsRoute.MentionsBetweenAppend | backend/routes/analytics.js:161-167 | the count over a concatenated store is taken over the concatenation of the two selections, in order |
| AnalyticsRoute.MentionsBetweenSingle | backend/routes/analytics.js:161-167 | a one-record store yields that record exactly when it matches |
| AnalyticsRoute.WeeklyAverage | backend/routes/analytics.js:169-190 | 0 with no mentions; otherwise mentions divided by the number of distinct days that have mentions, at least 1 |
| AnalyticsRoute.DayGroups | backend/routes/analytics.js:176-181 | one day group per distinct day, group sizes summing to the number of mentions |
| AnalyticsRoute.SpikeAlerts | backend/routes/analytics.js:150-198 | today's count, the weekly average, isSpike iff today > 2 × average, and the guarded two-decimal percentage |
| AnalyticsRoute.LastMillisecondIsNotToday | backend/routes/analytics.js:163-166 | a mention at 23:59:59.999 is not counted as today's (`$lt`) |
| AnalyticsRoute.QuietWeek | backend/routes/analytics.js:190-197 | with no mentions in the week the average and percentage are 0 and any mention today is a spike |
| AnalyticsRoute.SpikeNeedsThreeDays | backend/routes/analytics.js:160-191 | today's mentions count towards the weekly average, so a spike needs mentions on at least three calendar days of the week |
| AnalyticsRoute.TodayWithinWeek | backend/routes/analytics.js:157-174 | the today window, starting inside the week, holds no more mentions than the week window |
| AnalyticsRoute.FewDaysNoSpike | backend/routes/analytics.js:168-191 | over one or two calendar days the weekly average is at least half of the week's mentions |
| RealTime.EngagementScore | backend/routes/analytics.js:352-356 | 0 for no mentions; otherwise the mean interactions per mention, non-negative for non-negative counters |
| RealTime.SentimentScore | backend/routes/analytics.js:349-350 | 0 for no mentions; otherwise (positive − negative)/total, always within [−1, 1] |
| RealTime.LiveMetrics | backend/routes/analytics.js:344-356 | the live metrics: the counts per sentiment summing to the total, the score in [−1, 1], the engagement mean, reach = 100 × total |
| RealTime.UpsertAsTally | backend/routes/analytics.js:366-381 | one topic upsert bumps the topic's count exactly as a counter would |
| RealTime.TopicTableAsTally | backend/routes/analytics.js:365-383 | the topic table's (topic, count) pairs are the counter object of the topic occurrences |
| RealTime.UpsertFind | backend/routes/analytics.js:367-380 | an upsert creates the entry with its one sentiment, or credits the existing entry, and leaves other topics alone |
| RealTime.SplitAddsUp | backend/routes/analytics.js:370-378 | a topic's occurrences split exactly into positive, negative and neutral ones |
| RealTime.TopicTableFind | backend/routes/analytics.js:365-383 | the table has an entry for a topic iff it occurs, holding its count and sentiment split |
| RealTime.TopicTableFacts | backend/routes/analytics.js:365-383 | the table lists each occurring topic once, in first-occurrence order, with its expected entry |
| RealTime.BuildTopicTable | backend/routes/analytics.js:365-383 | the in-place find-or-push loop over mentions and their topics builds exactly the topic table |
| RealTime.Record | backend/routes/analytics.js:367-381 | the linear `find`, then the increment or push, is one upsert |
| RealTime.UpsertAt | backend/routes/analytics.js:367-381 | the upsert updates the first entry of the topic in place or appends a new entry |
| RealTime.TopicDistributionShape | backend/routes/analytics.js:384 | min(10, distinct topics) entries, sorted by count, with distinct topics |
| RealTime.TopicDistributionEntries | backend/routes/analytics.js:365-384 | each entry's topic occurs, its count is the occurrence count, and its three sub-counts add to it |
| RealTime.TopicDistributionKeepsTheMostMentioned | backend/routes/analytics.js:384 | a topic cut off by `slice(0, 10)` occurs no more often than any kept topic |
| RealTime.TopicTiesKeepFirstSeenOrder | backend/routes/analytics.js:384 | topics with equal counts appear in first-occurrence order (stable sort) |
| RealTime.DistributionIsPrefix | backend/routes/analytics.js:384 | the distribution is a prefix of the sorted table |
| RealTime.PeakHoursShape | backend/routes/analytics.js:387-390 | 24 slots, slot h has hour h and the number of mentions at hour h, and the slots sum to the number of mentions |
| RealTime.MentionsAtHour | backend/routes/analytics.js:389 | exactly the mentions whose local hour is h |
| RealTime.PeakHoursWithoutMentions | backend/routes/analytics.js:38 | no mentions gives the 24 zero slots of the fallback |
| RealTime.TrendingKeywords | backend/routes/analytics.js:405-409 | the first ≤ 5 topic entries as (topic, count, growth 0) |
| RealTime.SourceBreakdownCounts | backend/routes/analytics.js:359-362 | the live breakdown has a key exactly for each occurring source, first seen first, with its count, summing to the total |
| RealTime.KeywordsFollowTopics | backend/routes/analytics.js:405-409 | the keywords are the first ≤ 5 distribution entries with growth 0 |
| RealTime.CalculateRealTimeAnalytics | backend/routes/analytics.js:335-411 | the method, with its reduce loops, returns the live snapshot of the brand's mentions in the window |
| InsightGenerator.InsightContents | backend/routes/dashboard.js:285-326 | every insight carries its rule's kind and figure: positive news with the positive share, a warning with the negative share, positive news with the mean interactions (each `toFixed(1)`), info with the top source |
| InsightGenerator.PushedByRule | backend/routes/dashboard.js:285-326 | whatever one of the three rules pushes has its rule's kind and figure |
| InsightGenerator.InsightOrder | backend/routes/dashboard.js:269-329 | the insights come in push order: the sentiment insight, then the engagement insight, then the top platform, no kind twice |
| InsightGenerator.InsightRules | backend/routes/dashboard.js:269-329 | no mentions: exactly the info "No Data Available"; otherwise 1–3 insights ending in "Top Platform"; each rule fires iff its threshold is passed; never both sentiment insights |
| InsightGenerator.SentimentInsightTitles | backend/routes/dashboard.js:286-298 | positive iff share > 0.7; otherwise warning iff negative share > 0.3; at most one |
| InsightGenerator.EngagementInsightTitles | backend/routes/dashboard.js:301-312 | "High Engagement" iff the mean interactions exceed 50 |
| InsightGenerator.GenerateInsights | backend/routes/dashboard.js:269-329 | the push-based method with early return yields exactly the rule list |
| InsightGenerator.TopPlatformIsMostFrequent | backend/routes/dashboard.js:315-320 | the top platform occurs and no source occurs more often |
| InsightGenerator.TopPlatformTieGoesToLater | backend/routes/dashboard.js:320 | of equally frequent sources, the one first seen last is reported |
| InsightGenerator.EightOfTenPositive | backend/routes/dashboard.js:286-298 | 8 positive mentions of 10 give the positive insight and no warning |
| DashboardRoute.Distribution | backend/routes/dashboard.js:53-57 | all zero without mentions; each value is its guarded percentage as `toFixed(1)` shows it (`RoundedFrom` with one place) |
| DashboardRoute.MentionsFrom | backend/routes/dashboard.js:40-42 | exactly the mentions from local midnight on, each as often as it occurs |
| DashboardRoute.MentionsFromAppend | backend/routes/dashboard.js:40-42 | the filter over a concatenation is the concatenation of the two results, in order |
| DashboardRoute.MentionsFromSingle | backend/routes/dashboard.js:40-42 | one mention is kept exactly when it is from local midnight on |
| DashboardRoute.RecentMentionsAreTheNewest | backend/routes/dashboard.js:16-19 | at most 50, all of the brand in the window, newest first, none left out is newer, and a window of ≤ 50 is kept whole |
| DashboardRoute.DashboardSummary | backend/routes/dashboard.js:6-66 | over the newest ≤ 50 mentions of the window: total and per-sentiment counts of those mentions, today's count among them, their interactions, their source tally, isSpike iff today > total/days × 1.5, and the guarded percentage |
| DashboardRoute.DailyAverage | backend/routes/dashboard.js:44 | total/days, zero exactly when there are no mentions |
| DashboardRoute.AboveDailyAverage | backend/routes/dashboard.js:45 | today > (total/days) × 1.5, stated without division |
| DashboardRoute.SummaryBreakdown | backend/routes/dashboard.js:27-58 | the breakdown counts each source of the recent mentions, first seen first, summing to the total; each percentage is its count's guarded percentage as `toFixed(1)` shows it |
| DashboardRoute.SummaryInsights | backend/routes/dashboard.js:65 | the insights for the recent mentions: just the notice iff there are none, else 1–3 ending in "Top Platform" |
| DashboardRoute.InsightsShape | backend/routes/dashboard.js:269-329 | the insights of a list: the notice alone iff it is empty, else 1–3 ending in "Top Platform" |
| DashboardRoute.SummarySpikeThreshold | backend/routes/dashboard.js:44-45 | a one-week summary over 14 mentions flags a spike iff at least 4 of them are from today |
| DashboardRoute.Widget | backend/routes/dashboard.js:84-102 | "Unknown widget type" iff the type is not one of the five; each of the five types answers with its own widget computed over the mentions of the configured window; the topics widget is rejected iff its limit is not positive |
| DashboardRoute.LayoutOnlyWidgets | backend/routes/dashboard.js:84-101 | `metrics` and `alerts` get the 400 "Unknown widget type" |
| DashboardRoute.SentimentCountsOf | backend/routes/dashboard.js:121-124 | the three counts start at 0 and add to the number of mentions |
| DashboardRoute.CountSentiments | backend/routes/dashboard.js:121-124 | the reduce loop yields the three counts |
| DashboardRoute.SentimentCountsStep | backend/routes/dashboard.js:122 | each mention adds one to its own sentiment's count only |
| DashboardRoute.SentimentWidgetFacts | backend/routes/dashboard.js:121-135 | counts per sentiment summing to the total; each of the three percentages is its count's guarded share as `toFixed(1)` shows it; all zero without mentions |
| DashboardRoute.SourcesWidgetGroups | backend/routes/dashboard.js:143-162 | one group per occurring source with its count, sorted by count; totalSources is the number of sources |
| DashboardRoute.SourcesWidgetTopSource | backend/routes/dashboard.js:161 | "None" iff no mentions; otherwise the first group's source, which no source outnumbers |
| DashboardRoute.DaySentimentCount | backend/routes/dashboard.js:183-191 | a day's per-sentiment count never exceeds its mentions |
| DashboardRoute.DaySentimentsAddUp | backend/routes/dashboard.js:182-191 | a day's three sentiment counts add to its count |
| DashboardRoute.TimelineGroups | backend/routes/dashboard.js:170-193 | one group per distinct day, each with a positive count split into the three sentiments |
| DashboardRoute.DayGroupFacts | backend/routes/dashboard.js:170-193 | every day group is its day's group, for a day that has mentions, with a positive count split into the three sentiments |
| DashboardRoute.TimelineCoversDays | backend/routes/dashboard.js:177-182 | every mention's day has a group |
| DashboardRoute.TimelineAscending | backend/routes/dashboard.js:194 | the days strictly increase |
| DashboardRoute.PeakDay | backend/routes/dashboard.js:199 | none (the `{ count: 0 }` seed of the reduce) iff no day has a positive count; otherwise a day of the timeline with the largest count, the earliest on a tie |
| DashboardRoute.AveragePerDay | backend/routes/dashboard.js:200-201 | 0 without days; otherwise the sum of counts divided by the number of days |
| DashboardRoute.PeakOfAscendingDays | backend/routes/dashboard.js:199 | on ascending days with positive counts the peak exists iff there are days, and ties go to the earlier day |
| DashboardRoute.TimelinePeakAndAverage | backend/routes/dashboard.js:197-202 | no peak iff no mentions; the peak has the largest count, earliest on a tie; average 0 for no mentions |
| DashboardRoute.TopicsWidgetOf | backend/routes/dashboard.js:205-231 | rejected iff the limit (default 5) is not positive; otherwise the first `limit` of the ranking with the trending topic and its count |
| DashboardRoute.TopicRankingFacts | backend/routes/dashboard.js:216-223 | one entry per occurring topic with its occurrence count, most mentioned first |
| DashboardRoute.TopicsWidgetShape | backend/routes/dashboard.js:223-230 | min(limit, distinct topics) entries, sorted by count |
| DashboardRoute.TopicsWidgetEntries | backend/routes/dashboard.js:216-222 | each entry's topic occurs and its count is the occurrence count |
| DashboardRoute.TopicsWidgetTrending | backend/routes/dashboard.js:229 | "No topics" iff there is no topic or the first is falsy, otherwise the first topic |
| DashboardRoute.TopicRankingEmpty | backend/routes/dashboard.js:216-223 | the topic ranking is empty exactly when no mention has a topic |
| DashboardRoute.TopicsWidgetKeepsTheMostMentioned | backend/routes/dashboard.js:223-224 | a topic cut off by `$limit` occurs no more often than any kept one |
| DashboardRoute.Present | backend/routes/dashboard.js:248-253 | one value per mention carrying the field, each value as often as it is carried; empty iff no mention has the field |
| DashboardRoute.PresentAppend | backend/routes/dashboard.js:248-253 | the values of a concatenation are the concatenated values, in order |
| DashboardRoute.PresentSingle | backend/routes/dashboard.js:248-253 | one mention contributes its value exactly when it carries the field |
| DashboardRoute.FieldAverage | backend/routes/dashboard.js:251-253 | `$avg` is null iff no mention has the field, otherwise the mean of the present values |
| DashboardRoute.PresentSum | backend/routes/dashboard.js:248-250 | `$sum` over present values equals the sum with missing values counted 0 |
| DashboardRoute.FieldsMakeInteractions | backend/routes/dashboard.js:248-250 | the three field totals add up to the interactions of the mentions |
| DashboardRoute.EngagementWidgetFacts | backend/routes/dashboard.js:238-265 | the totals add to the interactions; the all-zero fallback without mentions; for likes, shares and comments alike, the total is the sum with missing values as 0, and the average is null exactly when the field is absent everywhere, else the mean of the present values |
| DashboardRoute.FieldAverageMissing | backend/routes/dashboard.js:251-253 | `$avg` of a field is null exactly when no mention carries it |
| MentionsRoute.LowerChar | backend/routes/mentions.js:106 | each character yields at least one; a capital A–Z becomes the one small letter at the same alphabet position; no capital remains; lower-case letters, digits, `_` and white space are kept |
| MentionsRoute.Lower | backend/routes/mentions.js:106 | the lower-cased content is no shorter and has no capital A–Z |
| MentionsRoute.LowerAppend | backend/routes/mentions.js:106 | lower-casing a concatenation concatenates the lower-cased parts |
| MentionsRoute.LowerSingle | backend/routes/mentions.js:106 | one character lower-cases as `LowerChar` says |
| MentionsRoute.Strip | backend/routes/mentions.js:107 | exactly the word and white-space characters of the input remain, each as often as in the input |
| MentionsRoute.StripAppend | backend/routes/mentions.js:107 | stripping a concatenation concatenates the stripped parts, in order |
| MentionsRoute.StripSingle | backend/routes/mentions.js:107 | one character survives exactly when it is a word or white-space character |
| MentionsRoute.Split | backend/routes/mentions.js:108 | at least one piece, none containing `' '`, all made of input characters |
| MentionsRoute.SplitJoin | backend/routes/mentions.js:108 | joining the pieces with `' '` gives back the string |
| MentionsRoute.JoinSplit | backend/routes/mentions.js:108 | splitting joined space-free pieces gives back the pieces |
| MentionsRoute.KeepTopicWords | backend/routes/mentions.js:109 | every kept word qualifies and comes from the input, and every qualifying input word is kept |
| MentionsRoute.OnlyWithIsStopped | backend/routes/mentions.js:105-109 | a word qualifies iff it is longer than 3 and is not "with" |
| MentionsRoute.KeepOrder | backend/routes/mentions.js:109 | the filter keeps the words' relative order |
| MentionsRoute.ExtractTopicsFacts | backend/routes/mentions.js:104-112 | at most 5 distinct topics, each a normalised token longer than 3, not a stop word, with no `' '` and no capital |
| MentionsRoute.ExtractTopicsOrder | backend/routes/mentions.js:106-111 | the topics are in first-occurrence order of the tokens |
| MentionsRoute.ExtractTopicsFirstFive | backend/routes/mentions.js:111 | a qualifying token left out means five topics, all first seen before it |
| MentionsRoute.Label | backend/routes/mentions.js:54-56 | positive iff score > 0.1, negative iff score < −0.1, neutral otherwise |
| MentionsRoute.LabelMonotone | backend/routes/mentions.js:54-56 | a higher score never gets a lower label |
| MentionsRoute.SimulatedScoreAgrees | backend/routes/mentions.js:132 | the simulated score of each drawn sentiment is labelled as that sentiment |
| MentionsRoute.SourceOf | backend/models/Mention.js:8-12 | a source string maps to the enum value that stores it, or to none when no enum value does |
| MentionsRoute.Filled | backend/models/Mention.js:26-30 | saved engagement has all three counters, missing ones 0 |
| MentionsRoute.CreateMention | backend/routes/mentions.js:47-83 | every rejection is a 400 |
| MentionsRoute.CreateMentionFacts | backend/routes/mentions.js:49-74 | accepted iff content, brand and an enum source are given and non-empty; the record carries the label of its score, the extracted topics, the time with its hour and day, and the body's engagement with defaults filled in |
| MentionsRoute.Matching | backend/routes/mentions.js:17-28 | exactly the stored mentions the filter matches, each as often as it is stored |
| MentionsRoute.MatchingAppend | backend/routes/mentions.js:17-28 | the filter over a concatenated store is the concatenation of the two results, so store order is kept |
| MentionsRoute.MatchingSingle | backend/routes/mentions.js:17-28 | a one-record store yields that record exactly when it matches |
| MentionsRoute.PageCount | backend/routes/mentions.js:37 | `Math.ceil(total / limit)`: not finite iff limit is 0, the ceiling for a positive limit, the floor-based value for a negative one |
| MentionsRoute.ListMentions | backend/routes/mentions.js:13-44 | a 500 iff the skip is negative; otherwise the total of matches, the page asked for, and `Math.ceil(total / limit)` pages as `PageCount` states it |
| MentionsRoute.WindowOfSorted | backend/routes/mentions.js:29-31 | a skip/limit window of a newest-first list is newest first and taken from it |
| MentionsRoute.ListMentionsWindow | backend/routes/mentions.js:28-31 | the page holds min(limit, what is left after the skip) mentions (all for limit 0), element i being match skip + i, newest first |
| MentionsRoute.WindowShape | backend/routes/mentions.js:30-31 | `.limit(n).skip(k)` keeps min(|n|, what follows the first k) elements (all of them for n = 0), element i being element k + i |
| MentionsRoute.ListMentionsMembers | backend/routes/mentions.js:17-31 | every listed mention is stored and matches, newest first |
| MentionsRoute.PageWithinCount | backend/routes/mentions.js:30-37 | for page ≥ 1 and limit > 0 the page has mentions iff page ≤ totalPages |
| MentionsRoute.UnsuppliedFiltersMatchAll | backend/routes/mentions.js:17-26 | without filters every mention matches |
| MentionsRoute.DateBoundsInclusive | backend/routes/mentions.js:22-26 | both date bounds are inclusive |
| DashboardModel.DefaultLayoutFits | backend/models/Dashboard.js:54-84 | six visible widgets — metrics, sentiment, sources, timeline, topics, alerts — inside 12 columns, no two overlapping |
| DashboardModel.WidgetTypeServed | backend/models/Dashboard.js:10-14 | of the seven widget types of the record, exactly metrics and alerts are unknown to the widget route |
| DashboardModel.TopBreakdownSourceIsMax | backend/models/Dashboard.js:110-112 | the top source has the largest stored count, a tie going to the later key |
| DashboardModel.TrendingTopicOf | backend/models/Dashboard.js:113-114 | the first topic, or "No topics" |
| DashboardModel.StatsOf | backend/models/Dashboard.js:105-115 | the total, the engagement, the rates part·100/total (not finite for total 0), the top source and the trending topic |
| DashboardModel.StatsRatesBounded | backend/models/Dashboard.js:107-108 | for total > 0 with consistent counts both rates lie in [0, 100] and add to at most 100 |
| DashboardModel.Dashboard.constructor | backend/models/Dashboard.js:24-41 | a new record has the default layout, the preferences 300 s / "7d" / "dark" / not compact, zero quick stats |
| DashboardModel.Dashboard.UpdateQuickStats | backend/models/Dashboard.js:94-120 | nothing changes without a snapshot; otherwise the quick stats of the newest one and lastUpdated = now, the layout untouched |
| DashboardModel.DashboardStore.GetOrCreate | backend/models/Dashboard.js:47-91 | an existing record is returned and the store unchanged; otherwise exactly one default record is added |
| DashboardModel.GetOrCreateTwice | backend/models/Dashboard.js:47-91 | a second call returns the same record as the first |

## Left out

- Express routing, the HTTP status plumbing beyond the modelled codes, sockets (`io.emit`), `.save()` and the database connection are not modelled. A query is a function over a sequence standing for the collection.
- The endpoints `/sentiment-distribution`, `/source-distribution`, `/mentions-over-time`, `/topic-analysis`, `/engagement-metrics` and `/generate-daily` of backend/routes/analytics.js are outside this model. The last of them only saves `calculateRealTimeAnalytics`, which is modelled.
- backend/routes/brands.js, backend/cron/analyticsGenerator.js and backend/server.js are not part of this model: they are CRUD, scheduling and wiring.
- The `natural` sentiment analyzer is a foreign library. Its score is a parameter of `MentionsRoute.CreateMention`.
- The random draws of the simulation are left out. Only the sentiment-to-score mapping is modelled (`SimulatedScoreAgrees`).
- The clock and time zones are left out:
  - `new Date()`, `setDate` and `setHours` become parameters (`now`, local midnight);
  - a day is 86 400 000 ms, with no daylight-saving changes;
  - the local hour and the UTC day of a mention are fields of the record.
- Floating point is replaced by exact `real` arithmetic.
- `Numbers.RoundTo` rounds halves away from zero. It does not model the string that `toFixed` returns or its binary-floating-point edge cases. Where the source mixes a string result with a number fallback, the model keeps the number.
- `JSON.parse` of the widget `config` is left out: the parsed `timeRange` and `maxTopics` are given. A parse failure, which answers 500, is not modelled.
- `parseInt`, query-string types, `new Date(startDate)` and `limit * 1` coercions are left out. Page, limit and dates arrive as integers; the empty string counts as a missing filter.
- Mongo's error messages are not modelled; only the status codes are. Two rejections are modelled as error values:
  - a negative `skip` (500 in `ListMentions`);
  - a non-positive `$limit` (`LimitRejected`).
- Mongo does not specify the order of `$group` output or of equal sort keys. The model takes first-seen order and a stable sort.
- Lower-casing maps ASCII capitals, U+212A KELVIN SIGN and U+0130, the only characters whose lower case holds an ASCII letter. Every other character is kept as it is, since the stripping step that follows removes it either way.
- The `author`, `url`, `location` and `language` fields, and the `createdAt` / `updatedAt` timestamps, carry no logic and are left out.
- Mongoose refuses to save a NaN number. The NaN rates that `DashboardModel.StatsOf` yields for a snapshot with zero mentions are kept as `NotFinite`, and their rejection on save is not modelled.
- `DashboardModel.Dashboard.UpdateQuickStats` takes the snapshot collection as a parameter instead of querying it.
- `DashboardModel.DashboardStore.GetOrCreate` does not model unique-index races between concurrent callers. No route of the repository calls `getOrCreate` or `updateQuickStats`.
- AnalyticsRoute.SpikeAlerts: a request without `brand` is not modelled. The source then filters on an undefined brand name, and what Mongoose and the driver make of that filter is not part of this model; the model takes the brand as a string.
- `peakHours || …`, `trendingKeywords || []` and `competitorComparison || {…}` fall back only for the live result. Stored snapshots always carry arrays, by the schema defaults.
