/** The `/:brand/summary` and `/:brand/widgets/:widgetType` handlers of
    backend/routes/dashboard.js, with the mention store given as a sequence
    and the clock as parameters. */
module DashboardRoute {
  import opened Wrappers
  import opened Seqs
  import opened Counting
  import opened Sorting
  import opened Numbers
  import opened MentionSchema
  import opened TimeWindows
  import opened InsightGenerator

  // ---------------------------------------------------------------------------
  // Shared projections.

  /** The zero-guarded percentages of the three sentiments, each to one decimal. */
  datatype SentimentDistribution = SentimentDistribution(positive: real, negative: real, neutral: real)

  /** `total > 0 ? (count / total * 100).toFixed(1) : 0` for each sentiment. */
  function Distribution(pos: int, neg: int, neu: int, total: int): (d: SentimentDistribution)
    ensures total <= 0 ==> d == SentimentDistribution(0.0, 0.0, 0.0)
    ensures Near(d.positive, GuardedPercent(pos, total), 1)
    ensures Near(d.negative, GuardedPercent(neg, total), 1)
    ensures Near(d.neutral, GuardedPercent(neu, total), 1)
    ensures RoundedFrom(d.positive, GuardedPercent(pos, total), 1)
    ensures RoundedFrom(d.negative, GuardedPercent(neg, total), 1)
    ensures RoundedFrom(d.neutral, GuardedPercent(neu, total), 1)
  {
    SentimentDistribution(RoundTo(GuardedPercent(pos, total), 1), RoundTo(GuardedPercent(neg, total), 1),
      RoundTo(GuardedPercent(neu, total), 1))
  }

  /** The mentions of `ms` stamped at `t` or later, in order: every copy of
      each, and nothing else. */
  function MentionsFrom(ms: seq<Mention>, t: int): (r: seq<Mention>)
    ensures |r| <= |ms|
    ensures forall m :: m in r <==> m in ms && m.timestamp >= t
    ensures forall m {:trigger Count(r, m)} :: Count(r, m) == if m.timestamp >= t then Count(ms, m) else 0
  {
    if ms == [] then []
    else
      var x := ms[|ms| - 1];
      var h := if x.timestamp >= t then [x] else [];
      var rest := MentionsFrom(ms[..|ms| - 1], t);
      assert ms == ms[..|ms| - 1] + [x];
      assert forall m {:trigger Count(rest + h, m)} :: (Count(rest + h, m)
          == if m.timestamp >= t then Count(ms, m) else 0) by {
        FilterSnocCount(x, ms[..|ms| - 1], rest, (m: Mention) => m.timestamp >= t);
      }
      rest + h
  }

  /** The filter runs over the mentions one by one: on a concatenation it is
      the concatenation of its results, in order. */
  lemma {:induction false} MentionsFromAppend(a: seq<Mention>, b: seq<Mention>, t: int)
    ensures MentionsFrom(a + b, t) == MentionsFrom(a, t) + MentionsFrom(b, t)
  {
    if b == [] {
      assert a + b == a;
    } else {
      assert (a + b)[..|a + b| - 1] == a + b[..|b| - 1];
      MentionsFromAppend(a, b[..|b| - 1], t);
    }
  }

  /** A single mention is kept exactly when it is stamped at `t` or later. */
  lemma MentionsFromSingle(m: Mention, t: int)
    ensures MentionsFrom([m], t) == if m.timestamp >= t then [m] else []
  {
    assert [m][..0] == [];
  }

  // ---------------------------------------------------------------------------
  // Summary.

  /** `Mention.find({ brandName, timestamp: { $gte: since } }).sort({ timestamp: -1 }).limit(50)`;
      mentions with equal timestamps stay in store order. */
  function RecentMentions(store: seq<Mention>, brand: string, since: int): seq<Mention> {
    Take(SortDesc(MentionsSince(store, brand, since), TimestampKey), 50)
  }

  /** The summary reads at most fifty mentions of the brand in the window,
      newest first: every mention of the window it leaves out is no newer than
      any it keeps, and a window of at most fifty mentions is kept whole. */
  lemma RecentMentionsAreTheNewest(store: seq<Mention>, brand: string, since: int)
    ensures var r := RecentMentions(store, brand, since);
      |r| <= 50
      && (forall i :: 0 <= i < |r| ==> r[i] in store && r[i].brandName == brand && r[i].timestamp >= since)
      && SortedDesc(r, TimestampKey)
      && (forall m, i :: m in store && m.brandName == brand && m.timestamp >= since && m !in r && 0 <= i < |r|
            ==> m.timestamp <= r[i].timestamp)
      && (|MentionsSince(store, brand, since)| <= 50 ==> multiset(r) == multiset(MentionsSince(store, brand, since)))
  {
    var w := MentionsSince(store, brand, since);
    var s := SortDesc(w, TimestampKey);
    var r := RecentMentions(store, brand, since);
    SortDescSorted(w, TimestampKey);
    assert r == s[..|r|];
    forall i | 0 <= i < |r| ensures r[i] in store && r[i].brandName == brand && r[i].timestamp >= since {
      assert r[i] in multiset(w);
    }
    forall m | m in store && m.brandName == brand && m.timestamp >= since && m !in r
      ensures forall i :: 0 <= i < |r| ==> m.timestamp <= r[i].timestamp
    {
      assert m in multiset(s);
      LeftOutOfPrefix(s, TimestampKey, |r|, m);
    }
  }

  /** The `realTime` part of the summary. */
  datatype RealTimeSummary = RealTimeSummary(
    totalMentions: int,
    positiveMentions: int,
    negativeMentions: int,
    neutralMentions: int,
    sentimentDistribution: SentimentDistribution,
    sourceBreakdown: seq<Entry<Source>>,
    recentEngagement: int,
    todayMentions: int,
    isSpike: bool,
    spikePercentage: real)

  datatype Summary = Summary(realTime: RealTimeSummary, insights: seq<Insight>)

  /** `GET /:brand/summary?period=` at time `now`; `todayStart` is local
      midnight of `now`. Every figure, today's count included, is taken over
      the newest fifty mentions of the window. */
  function DashboardSummary(store: seq<Mention>, brand: string, period: Option<string>, now: int,
                            todayStart: int): (r: Summary)
    ensures r.realTime.totalMentions == |RecentMentions(store, brand, DaysAgo(now, PeriodDays(PeriodOrDefault(period))))|
    ensures r.realTime.totalMentions <= 50
    ensures r.realTime.positiveMentions + r.realTime.negativeMentions + r.realTime.neutralMentions
         == r.realTime.totalMentions
    ensures 0 <= r.realTime.todayMentions <= r.realTime.totalMentions
    ensures r.realTime.isSpike
        == AboveDailyAverage(r.realTime.todayMentions, r.realTime.totalMentions, PeriodDays(PeriodOrDefault(period)))
    ensures r.realTime.spikePercentage == SpikePercentage(r.realTime.todayMentions,
      DailyAverage(r.realTime.totalMentions, PeriodDays(PeriodOrDefault(period))), 1)
    ensures r.realTime.totalMentions == 0 ==> r.realTime.spikePercentage == 0.0 && !r.realTime.isSpike
    ensures var recent := RecentMentions(store, brand, DaysAgo(now, PeriodDays(PeriodOrDefault(period))));
      r.realTime.positiveMentions == Count(Sentiments(recent), Positive)
      && r.realTime.negativeMentions == Count(Sentiments(recent), Negative)
      && r.realTime.neutralMentions == Count(Sentiments(recent), Neutral)
      && r.realTime.todayMentions == |MentionsFrom(recent, todayStart)|
      && r.realTime.recentEngagement == TotalInteractions(recent)
      && r.realTime.sourceBreakdown == Tally(Sources(recent))
  {
    var days := PeriodDays(PeriodOrDefault(period));
    var recent := RecentMentions(store, brand, DaysAgo(now, days));
    var total := |recent|;
    assert total <= 50 by { RecentMentionsAreTheNewest(store, brand, DaysAgo(now, days)); }
    var pos, neg, neu := Count(Sentiments(recent), Positive), Count(Sentiments(recent), Negative),
      Count(Sentiments(recent), Neutral);
    assert pos + neg + neu == total by { SentimentsPartition(Sentiments(recent)); }
    var today := |MentionsFrom(recent, todayStart)|;
    var avg := DailyAverage(total, days);
    var spike := AboveDailyAverage(today, total, days);
    Summary(
      RealTimeSummary(total, pos, neg, neu, Distribution(pos, neg, neu, total), Tally(Sources(recent)),
        TotalInteractions(recent), today, spike, SpikePercentage(today, avg, 1)),
      Insights(recent))
  }

  /** `totalMentions / days`. */
  function DailyAverage(total: nat, days: int): (avg: real)
    requires days > 0
    ensures avg * (days as real) == total as real
    ensures total == 0 <==> avg == 0.0
  {
    (total as real) / (days as real)
  }

  /** `todayMentions > avgDailyMentions * 1.5`, stated without the division. */
  function AboveDailyAverage(today: int, total: nat, days: int): (b: bool)
    requires days > 0
    ensures b <==> (today as real) * (days as real) > (total as real) * 1.5
  {
    var avg := DailyAverage(total, days);
    (today as real) > avg * 1.5
  }

  /** The summary's source breakdown counts the mentions it read, source by
      source, with a key only for sources that occur; its percentages are
      those of its counts. */
  lemma SummaryBreakdown(store: seq<Mention>, brand: string, period: Option<string>, now: int, todayStart: int)
    ensures var recent := RecentMentions(store, brand, DaysAgo(now, PeriodDays(PeriodOrDefault(period))));
      var s := DashboardSummary(store, brand, period, now, todayStart).realTime;
      Keys(s.sourceBreakdown) == Dedup(Sources(recent))
      && (forall x :: Lookup(s.sourceBreakdown, x) == Count(Sources(recent), x))
      && SumCounts(s.sourceBreakdown) == s.totalMentions
      && Near(s.sentimentDistribution.positive, GuardedPercent(s.positiveMentions, s.totalMentions), 1)
      && Near(s.sentimentDistribution.negative, GuardedPercent(s.negativeMentions, s.totalMentions), 1)
      && Near(s.sentimentDistribution.neutral, GuardedPercent(s.neutralMentions, s.totalMentions), 1)
      && RoundedFrom(s.sentimentDistribution.positive, GuardedPercent(s.positiveMentions, s.totalMentions), 1)
      && RoundedFrom(s.sentimentDistribution.negative, GuardedPercent(s.negativeMentions, s.totalMentions), 1)
      && RoundedFrom(s.sentimentDistribution.neutral, GuardedPercent(s.neutralMentions, s.totalMentions), 1)
  {
    var recent := RecentMentions(store, brand, DaysAgo(now, PeriodDays(PeriodOrDefault(period))));
    TallyCorrect(Sources(recent));
  }

  /** The summary's insights are those of the mentions it read: the notice
      alone when there are none, otherwise one to three ending with the top
      platform. */
  lemma SummaryInsights(store: seq<Mention>, brand: string, period: Option<string>, now: int, todayStart: int)
    ensures var recent := RecentMentions(store, brand, DaysAgo(now, PeriodDays(PeriodOrDefault(period))));
      var r := DashboardSummary(store, brand, period, now, todayStart);
      r.insights == Insights(recent)
      && (r.realTime.totalMentions == 0 <==> r.insights == [NoDataInsight])
      && 1 <= |r.insights| <= 3
      && r.insights[|r.insights| - 1].title in {NoDataAvailable, TopPlatformTitle}
  {
    var recent := RecentMentions(store, brand, DaysAgo(now, PeriodDays(PeriodOrDefault(period))));
    var r := DashboardSummary(store, brand, period, now, todayStart);
    assert r.insights == Insights(recent) && r.realTime.totalMentions == |recent|;
    InsightsShape(recent);
  }

  /** The insights of a list of mentions: the notice alone exactly when the
      list is empty, otherwise one to three ending with the top platform. */
  lemma InsightsShape(ms: seq<Mention>)
    ensures var ins := Insights(ms);
      (|ms| == 0 <==> ins == [NoDataInsight])
      && 1 <= |ins| <= 3
      && ins[|ins| - 1].title in {NoDataAvailable, TopPlatformTitle}
  {
    InsightRules(ms);
    if |ms| > 0 {
      assert Insights(ms)[|Insights(ms)| - 1].title == TopPlatformTitle;
      assert Insights(ms) != [NoDataInsight];
    }
  }

  /** A one-week summary over fourteen mentions flags a spike exactly when at
      least four of them are from today: the daily average is 2, and today's
      count must exceed 3. */
  lemma SummarySpikeThreshold(store: seq<Mention>, brand: string, now: int, todayStart: int)
    requires |RecentMentions(store, brand, DaysAgo(now, 7))| == 14
    ensures var s := DashboardSummary(store, brand, Some("7d"), now, todayStart).realTime;
      s.isSpike <==> s.todayMentions >= 4
  {
    var s := DashboardSummary(store, brand, Some("7d"), now, todayStart).realTime;
    assert PeriodDays(PeriodOrDefault(Some("7d"))) == 7;
    assert s.totalMentions == 14;
    assert s.isSpike <==> (s.todayMentions as real) * 7.0 > 21.0;
  }

  // ---------------------------------------------------------------------------
  // Widgets.

  /** The widget configuration after `JSON.parse`: both fields may be missing. */
  datatype WidgetConfig = WidgetConfig(timeRange: Option<string>, maxTopics: Option<int>)

  datatype SentimentCounts = SentimentCounts(positive: int, negative: int, neutral: int)

  /** One `$group` by calendar day with its per-sentiment sub-counts. */
  datatype DayGroup = DayGroup(day: int, count: int, positive: int, negative: int, neutral: int)

  /** The engagement `$group`: sums, and averages that are null (None) when no
      mention carries the field. */
  datatype EngagementTotals = EngagementTotals(
    totalLikes: int, totalShares: int, totalComments: int,
    avgLikes: Option<real>, avgShares: Option<real>, avgComments: Option<real>)

  datatype WidgetData =
    | SentimentWidget(data: SentimentCounts, percentages: SentimentDistribution, totalMentions: int)
    | SourcesWidget(sources: seq<Entry<Source>>, topSource: string, totalSources: int)
    | TimelineWidget(timeline: seq<DayGroup>, peakDay: Option<DayGroup>, averagePerDay: real)
    | TopicsWidget(topics: seq<Entry<string>>, trendingTopic: string, totalTopics: int)
    | EngagementWidget(engagement: EngagementTotals)

  /** A 400 for a widget type the route does not know, or the database
      rejecting the topics pipeline's `$limit` (a 500). */
  datatype WidgetError = UnknownWidgetType | LimitRejected

  function ErrorMessage(e: WidgetError): Option<string> {
    match e
    case UnknownWidgetType => Some("Unknown widget type")
    case LimitRejected => None
  }

  const KnownWidgets: set<string> := {"sentiment", "sources", "timeline", "topics", "engagement"}

  /** The `$match` of every widget pipeline: the brand's mentions of the configured window. */
  function WidgetMentions(store: seq<Mention>, brand: string, config: WidgetConfig, now: int): seq<Mention> {
    MentionsSince(store, brand, DaysAgo(now, PeriodDays(PeriodOrDefault(config.timeRange))))
  }

  /** `GET /:brand/widgets/:widgetType?config=`. */
  function Widget(store: seq<Mention>, brand: string, widgetType: string, config: WidgetConfig, now: int)
    : (r: Result<WidgetData, WidgetError>)
    ensures r.Err? && r.error == UnknownWidgetType <==> widgetType !in KnownWidgets
    ensures r.Err? ==> r.error == UnknownWidgetType || widgetType == "topics"
    ensures r.Ok? ==> (r.value.SentimentWidget? <==> widgetType == "sentiment")
    ensures r.Ok? ==> (r.value.SourcesWidget? <==> widgetType == "sources")
    ensures r.Ok? ==> (r.value.TimelineWidget? <==> widgetType == "timeline")
    ensures r.Ok? ==> (r.value.TopicsWidget? <==> widgetType == "topics")
    ensures r.Err? && r.error == LimitRejected <==> widgetType == "topics" && TopicLimit(config.maxTopics) <= 0
    ensures r.Ok? ==> (r.value.EngagementWidget? <==> widgetType == "engagement")
    ensures var ms := WidgetMentions(store, brand, config, now);
      (widgetType == "sentiment" ==> r == Ok(SentimentWidgetOf(ms)))
      && (widgetType == "sources" ==> r == Ok(SourcesWidgetOf(ms)))
      && (widgetType == "timeline" ==> r == Ok(TimelineWidgetOf(ms)))
      && (widgetType == "topics" ==> r == TopicsWidgetOf(ms, config.maxTopics))
      && (widgetType == "engagement" ==> r == Ok(EngagementWidgetOf(ms)))
  {
    var ms := WidgetMentions(store, brand, config, now);
    if widgetType == "sentiment" then Ok(SentimentWidgetOf(ms))
    else if widgetType == "sources" then Ok(SourcesWidgetOf(ms))
    else if widgetType == "timeline" then Ok(TimelineWidgetOf(ms))
    else if widgetType == "topics" then TopicsWidgetOf(ms, config.maxTopics)
    else if widgetType == "engagement" then Ok(EngagementWidgetOf(ms))
    else Err(UnknownWidgetType)
  }

  /** `metrics` and `alerts` are widget types of the dashboard layout, but the
      route has no data for them. */
  lemma LayoutOnlyWidgets(store: seq<Mention>, brand: string, config: WidgetConfig, now: int)
    ensures Widget(store, brand, "metrics", config, now) == Err(UnknownWidgetType)
    ensures Widget(store, brand, "alerts", config, now) == Err(UnknownWidgetType)
    ensures ErrorMessage(UnknownWidgetType) == Some("Unknown widget type")
  {
  }

  // Sentiment widget.

  function SentimentCountsOf(ms: seq<Mention>): (c: SentimentCounts)
    ensures c.positive + c.negative + c.neutral == |ms|
    ensures c.positive >= 0 && c.negative >= 0 && c.neutral >= 0
  {
    SentimentsPartition(Sentiments(ms));
    SentimentCounts(Count(Sentiments(ms), Positive), Count(Sentiments(ms), Negative), Count(Sentiments(ms), Neutral))
  }

  /** The reduce over the mentions from `{ positive: 0, negative: 0, neutral: 0 }`. */
  method CountSentiments(ms: seq<Mention>) returns (c: SentimentCounts)
    ensures c == SentimentCountsOf(ms)
  {
    c := SentimentCounts(0, 0, 0);
    for i := 0 to |ms|
      invariant c == SentimentCountsOf(ms[..i])
    {
      assert ms[..i + 1] == ms[..i] + [ms[i]];
      SentimentCountsStep(ms[..i], ms[i]);
      match ms[i].sentiment
      case Positive => c := c.(positive := c.positive + 1);
      case Negative => c := c.(negative := c.negative + 1);
      case Neutral => c := c.(neutral := c.neutral + 1);
    }
    assert ms[..|ms|] == ms;
  }

  /** One more mention adds one to the count of its own sentiment. */
  lemma SentimentCountsStep(p: seq<Mention>, m: Mention)
    ensures var before, after := SentimentCountsOf(p), SentimentCountsOf(p + [m]);
      after.positive == before.positive + (if m.sentiment == Positive then 1 else 0)
      && after.negative == before.negative + (if m.sentiment == Negative then 1 else 0)
      && after.neutral == before.neutral + (if m.sentiment == Neutral then 1 else 0)
  {
    var ss := Sentiments(p + [m]);
    assert (p + [m])[..|p|] == p;
    assert ss == Sentiments(p) + [m.sentiment];
    assert ss[..|ss| - 1] == Sentiments(p);
  }

  function SentimentWidgetOf(ms: seq<Mention>): WidgetData {
    var c := SentimentCountsOf(ms);
    SentimentWidget(c, Distribution(c.positive, c.negative, c.neutral, |ms|), |ms|)
  }

  /** The counts add up to the number of mentions, each is how many mentions
      carry that sentiment, each percentage is its count's share rounded to
      one place, and with no mentions every count and percentage is 0. */
  lemma SentimentWidgetFacts(ms: seq<Mention>)
    ensures var w := SentimentWidgetOf(ms);
      w.data.positive + w.data.negative + w.data.neutral == w.totalMentions == |ms|
      && (forall s :: Count(Sentiments(ms), s) ==
            if s == Positive then w.data.positive else if s == Negative then w.data.negative else w.data.neutral)
      && Near(w.percentages.positive, GuardedPercent(w.data.positive, |ms|), 1)
      && Near(w.percentages.negative, GuardedPercent(w.data.negative, |ms|), 1)
      && Near(w.percentages.neutral, GuardedPercent(w.data.neutral, |ms|), 1)
      && RoundedFrom(w.percentages.positive, GuardedPercent(w.data.positive, |ms|), 1)
      && RoundedFrom(w.percentages.negative, GuardedPercent(w.data.negative, |ms|), 1)
      && RoundedFrom(w.percentages.neutral, GuardedPercent(w.data.neutral, |ms|), 1)
      && (ms == [] ==> w.data == SentimentCounts(0, 0, 0) && w.percentages == SentimentDistribution(0.0, 0.0, 0.0))
  {
  }

  // Sources widget.

  /** `$group` by source, then `$sort: { count: -1 }`; groups come out in the
      order their source first occurs and equal counts keep that order. */
  function SourcesWidgetOf(ms: seq<Mention>): WidgetData {
    var sources := SortDesc(Tally(Sources(ms)), CountKey);
    SourcesWidget(sources, if sources == [] then "None" else SourceName(sources[0].key), |sources|)
  }

  /** One group per source that occurs, holding its number of mentions, most
      frequent first. */
  lemma SourcesWidgetGroups(ms: seq<Mention>)
    ensures var w := SourcesWidgetOf(ms);
      SortedDesc(w.sources, CountKey)
      && w.totalSources == |Dedup(Sources(ms))|
      && (forall i :: 0 <= i < |w.sources| ==>
            w.sources[i].key in Sources(ms) && w.sources[i].count == Count(Sources(ms), w.sources[i].key))
      && (forall s :: s in Sources(ms) ==> exists i :: 0 <= i < |w.sources| && w.sources[i].key == s)
  {
    var t := Tally(Sources(ms));
    var w := SourcesWidgetOf(ms);
    SortDescSorted(t, CountKey);
    ReorderedTally(Sources(ms), w.sources);
    forall s | s in Sources(ms) ensures exists i :: 0 <= i < |w.sources| && w.sources[i].key == s {
      var i := ReorderedTallyHas(Sources(ms), w.sources, s);
    }
  }

  /** The top source is a most frequent one, and `None` only when there are
      no mentions. */
  lemma SourcesWidgetTopSource(ms: seq<Mention>)
    ensures var w := SourcesWidgetOf(ms);
      (w.topSource == "None" <==> ms == [])
      && (ms != [] ==>
            w.topSource == SourceName(w.sources[0].key) && forall s :: Count(Sources(ms), s) <= w.sources[0].count)
  {
    var w := SourcesWidgetOf(ms);
    SourcesWidgetGroups(ms);
    if ms != [] {
      assert ms[0].source in Sources(ms);
      assert "None"[0] == 'N';
      forall s ensures Count(Sources(ms), s) <= w.sources[0].count {
        if s in Sources(ms) {
          var i := ReorderedTallyHas(Sources(ms), w.sources, s);
          SortedHeadIsMax(w.sources, CountKey, w.sources[i]);
        } else {
          CountPositive(Sources(ms), s);
        }
      }
    }
  }

  // Timeline widget.

  /** How many mentions of `ms` fall on day `d` with sentiment `s`. */
  function DaySentimentCount(ms: seq<Mention>, d: int, s: Sentiment): (n: nat)
    ensures n <= Count(Days(ms), d)
  {
    if ms == [] then 0
    else
      var m := ms[|ms| - 1];
      assert Days(ms) == Days(ms[..|ms| - 1]) + [m.day];
      DaySentimentCount(ms[..|ms| - 1], d, s) + (if m.day == d && m.sentiment == s then 1 else 0)
  }

  /** The `$group` document of day `d`: its mentions, split by sentiment. */
  function DayGroupOf(ms: seq<Mention>, d: int): DayGroup {
    DayGroup(d, Count(Days(ms), d), DaySentimentCount(ms, d, Positive), DaySentimentCount(ms, d, Negative),
      DaySentimentCount(ms, d, Neutral))
  }

  function DayGroupsOf(ms: seq<Mention>, ds: seq<int>): (r: seq<DayGroup>)
    ensures |r| == |ds| && forall i :: 0 <= i < |ds| ==> r[i] == DayGroupOf(ms, ds[i])
  {
    if ds == [] then [] else [DayGroupOf(ms, ds[0])] + DayGroupsOf(ms, ds[1..])
  }

  /** The sort key of `$sort: { _id: 1 }` on the day string, as a descending key. */
  function EarlierDayFirst(g: DayGroup): int {
    -g.day
  }

  /** The timeline: one group per calendar day with mentions, earliest day first. */
  function Timeline(ms: seq<Mention>): seq<DayGroup> {
    SortDesc(DayGroupsOf(ms, Dedup(Days(ms))), EarlierDayFirst)
  }

  function GroupCounts(t: seq<DayGroup>): (r: seq<int>)
    ensures |r| == |t| && forall i :: 0 <= i < |t| ==> r[i] == t[i].count
  {
    if t == [] then [] else [t[0].count] + GroupCounts(t[1..])
  }

  /** `timeline.reduce((max, day) => day.count > max.count ? day : max, { count: 0 })`:
      None stands for the initial `{ count: 0 }`. */
  function PeakDay(t: seq<DayGroup>): (p: Option<DayGroup>)
    ensures p.None? <==> forall i :: 0 <= i < |t| ==> t[i].count <= 0
    ensures p.Some? ==> p.value in t && p.value.count > 0
    ensures p.Some? ==> forall i :: 0 <= i < |t| ==> t[i].count <= p.value.count
    ensures p.Some? ==> forall i :: 0 <= i < |t| && t[i].count == p.value.count ==> IndexOf(t, p.value) <= i
  {
    var k := PeakIndex(GroupCounts(t));
    if k.None? then None else Some(t[k.value])
  }

  /** `timeline.length > 0 ? sum of counts / timeline.length : 0`. */
  function AveragePerDay(t: seq<DayGroup>): (a: real)
    ensures t == [] ==> a == 0.0
    ensures t != [] ==> a * (|t| as real) == Sum(GroupCounts(t)) as real
  {
    if t == [] then 0.0 else Mean(Sum(GroupCounts(t)), |t|)
  }

  function TimelineWidgetOf(ms: seq<Mention>): WidgetData {
    var t := Timeline(ms);
    TimelineWidget(t, PeakDay(t), AveragePerDay(t))
  }

  /** A day's sub-counts add up to its count. */
  lemma {:induction false} DaySentimentsAddUp(ms: seq<Mention>, d: int)
    ensures DaySentimentCount(ms, d, Positive) + DaySentimentCount(ms, d, Negative)
          + DaySentimentCount(ms, d, Neutral) == Count(Days(ms), d)
  {
    if ms != [] {
      var p, m := ms[..|ms| - 1], ms[|ms| - 1];
      DaySentimentsAddUp(p, d);
      assert Days(ms) == Days(p) + [m.day];
      assert Count(Days(ms), d) == Count(Days(p), d) + (if m.day == d then 1 else 0);
      assert DaySentimentCount(ms, d, Positive) == DaySentimentCount(p, d, Positive) + (if m.day == d && m.sentiment == Positive then 1 else 0);
      assert DaySentimentCount(ms, d, Negative) == DaySentimentCount(p, d, Negative) + (if m.day == d && m.sentiment == Negative then 1 else 0);
      assert DaySentimentCount(ms, d, Neutral) == DaySentimentCount(p, d, Neutral) + (if m.day == d && m.sentiment == Neutral then 1 else 0);
    }
  }

  /** The timeline has one group per calendar day with mentions; each group
      counts that day's mentions, at least one, and splits them by sentiment. */
  lemma TimelineGroups(ms: seq<Mention>)
    ensures var t := Timeline(ms);
      |t| == |Dedup(Days(ms))|
      && (forall i :: 0 <= i < |t| ==>
            t[i] == DayGroupOf(ms, t[i].day) && t[i].day in Days(ms) && t[i].count > 0
            && t[i].positive + t[i].negative + t[i].neutral == t[i].count)
  {
    var g := DayGroupsOf(ms, Dedup(Days(ms)));
    var t := Timeline(ms);
    forall i | 0 <= i < |t|
      ensures t[i] == DayGroupOf(ms, t[i].day) && t[i].day in Days(ms) && t[i].count > 0
        && t[i].positive + t[i].negative + t[i].neutral == t[i].count
    {
      assert t[i] in multiset(g);
      DayGroupFacts(ms, t[i]);
    }
  }

  /** A group of the unsorted timeline is its day's group, for a day that
      has mentions. */
  lemma DayGroupFacts(ms: seq<Mention>, x: DayGroup)
    requires x in DayGroupsOf(ms, Dedup(Days(ms)))
    ensures x == DayGroupOf(ms, x.day) && x.day in Days(ms) && x.count > 0
      && x.positive + x.negative + x.neutral == x.count
  {
    var ds := Dedup(Days(ms));
    var g := DayGroupsOf(ms, ds);
    var j :| 0 <= j < |g| && g[j] == x;
    assert x == DayGroupOf(ms, ds[j]) && x.day == ds[j];
    CountPositive(Days(ms), ds[j]);
    DaySentimentsAddUp(ms, ds[j]);
  }

  /** Every day with a mention has its group. */
  lemma TimelineCoversDays(ms: seq<Mention>)
    ensures var t := Timeline(ms);
      forall m :: m in ms ==> exists i :: 0 <= i < |t| && t[i].day == m.day
  {
    var ds := Dedup(Days(ms));
    var g := DayGroupsOf(ms, ds);
    var t := Timeline(ms);
    forall m | m in ms ensures exists i :: 0 <= i < |t| && t[i].day == m.day {
      var k :| 0 <= k < |ms| && ms[k] == m;
      assert Days(ms)[k] == m.day;
      var j := IndexOf(ds, m.day);
      assert g[j].day == m.day;
      assert g[j] in multiset(t);
      var i :| 0 <= i < |t| && t[i] == g[j];
    }
  }

  /** The days of the timeline strictly increase. */
  lemma TimelineAscending(ms: seq<Mention>)
    ensures var t := Timeline(ms);
      forall i, j :: 0 <= i < j < |t| ==> t[i].day < t[j].day
  {
    var g := DayGroupsOf(ms, Dedup(Days(ms)));
    GroupsOfDistinctDays(ms, Dedup(Days(ms)));
    SortByDay(g);
    var t := Timeline(ms);
    assert t == SortDesc(g, EarlierDayFirst);
    forall i, j | 0 <= i < j < |t| ensures t[i].day < t[j].day {
      assert SortDesc(g, EarlierDayFirst)[i].day < SortDesc(g, EarlierDayFirst)[j].day;
    }
  }

  lemma GroupsOfDistinctDays(ms: seq<Mention>, ds: seq<int>)
    requires Distinct(ds)
    ensures var g := DayGroupsOf(ms, ds);
      forall i, j :: 0 <= i < j < |g| ==> g[i].day != g[j].day
  {
    var g := DayGroupsOf(ms, ds);
    forall i, j | 0 <= i < j < |g| ensures g[i].day != g[j].day {
      assert g[i].day == ds[i] && g[j].day == ds[j];
    }
  }

  /** Groups of distinct days come out of the sort earliest day first. */
  lemma SortByDay(g: seq<DayGroup>)
    requires forall i, j :: 0 <= i < j < |g| ==> g[i].day != g[j].day
    ensures var t := SortDesc(g, EarlierDayFirst);
      forall i, j :: 0 <= i < j < |t| ==> t[i].day < t[j].day
  {
    var t := SortDesc(g, EarlierDayFirst);
    assert forall i, j :: 0 <= i < j < |g| ==> EarlierDayFirst(g[i]) != EarlierDayFirst(g[j]);
    SortDescStrict(g, EarlierDayFirst);
    forall i, j | 0 <= i < j < |t| ensures t[i].day < t[j].day {
      assert EarlierDayFirst(t[i]) > EarlierDayFirst(t[j]) by {
        assert 0 <= i < j < |SortDesc(g, EarlierDayFirst)|;
      }
    }
  }

  /** On groups of increasing days, each with a mention, the peak is
      missing only for an empty timeline and is the earliest of several
      equally busy days. */
  lemma PeakOfAscendingDays(t: seq<DayGroup>)
    requires forall i, j :: 0 <= i < j < |t| ==> t[i].day < t[j].day
    requires forall i :: 0 <= i < |t| ==> t[i].count > 0
    ensures PeakDay(t).None? <==> t == []
    ensures PeakDay(t).Some? ==>
      forall i :: 0 <= i < |t| && t[i].count == PeakDay(t).value.count ==> PeakDay(t).value.day <= t[i].day
  {
    if t != [] {
      var p := PeakDay(t).value;
      var k := IndexOf(t, p);
      forall i | 0 <= i < |t| && t[i].count == p.count ensures p.day <= t[i].day {
        if k != i {
          assert k < i && t[k] == p;
        }
      }
    }
  }

  /** The peak day is a busiest day, the earliest of several equally busy
      ones, and missing only when there are no mentions; the average is 0
      without mentions. */
  lemma TimelinePeakAndAverage(ms: seq<Mention>)
    ensures var w := TimelineWidgetOf(ms);
      (w.peakDay.None? <==> ms == [])
      && (w.peakDay.Some? ==>
            w.peakDay.value in w.timeline
            && (forall i :: 0 <= i < |w.timeline| ==> w.timeline[i].count <= w.peakDay.value.count)
            && (forall i :: 0 <= i < |w.timeline| && w.timeline[i].count == w.peakDay.value.count
                  ==> w.peakDay.value.day <= w.timeline[i].day))
      && (ms == [] ==> w.averagePerDay == 0.0)
  {
    var t := Timeline(ms);
    TimelineGroups(ms);
    TimelineAscending(ms);
    PeakOfAscendingDays(t);
    if ms != [] {
      assert Days(ms)[0] in Dedup(Days(ms));
    }
  }

  // Topics widget.

  /** `$unwind` of the topics, `$group` by topic and `$sort: { count: -1 }`. */
  function TopicRanking(ms: seq<Mention>): seq<Entry<string>> {
    SortDesc(Tally(TopicTags(ms)), CountKey)
  }

  /** `maxTopics = 5` when the configuration has none. */
  function TopicLimit(maxTopics: Option<int>): int {
    if maxTopics.None? then 5 else maxTopics.value
  }

  /** `topicData[0]?._id || 'No topics'`. */
  function TrendingTopic(topics: seq<Entry<string>>): string {
    if topics == [] || topics[0].key == "" then "No topics" else topics[0].key
  }

  /** The ranking cut by `$limit: parseInt(maxTopics)`; the database refuses a
      limit that is not positive. */
  function TopicsWidgetOf(ms: seq<Mention>, maxTopics: Option<int>): (r: Result<WidgetData, WidgetError>)
    ensures r.Err? <==> TopicLimit(maxTopics) <= 0
    ensures r.Ok? ==> r.value.TopicsWidget? && r.value.topics == Take(TopicRanking(ms), TopicLimit(maxTopics))
    ensures r.Ok? ==> r.value.totalTopics == |r.value.topics| && r.value.trendingTopic == TrendingTopic(r.value.topics)
  {
    var limit := TopicLimit(maxTopics);
    if limit <= 0 then Err(LimitRejected)
    else
      var topics := Take(TopicRanking(ms), limit);
      Ok(TopicsWidget(topics, TrendingTopic(topics), |topics|))
  }

  /** The ranking has one entry per topic that occurs, holding its number of
      occurrences, most mentioned first. */
  lemma TopicRankingFacts(ms: seq<Mention>)
    ensures var r := TopicRanking(ms);
      |r| == |Dedup(TopicTags(ms))|
      && SortedDesc(r, CountKey)
      && (forall i :: 0 <= i < |r| ==> r[i].key in TopicTags(ms) && r[i].count == Count(TopicTags(ms), r[i].key))
  {
    SortDescSorted(Tally(TopicTags(ms)), CountKey);
    ReorderedTally(TopicTags(ms), TopicRanking(ms));
  }

  /** At most `maxTopics` (by default five) topics, most mentioned first. */
  lemma TopicsWidgetShape(ms: seq<Mention>, maxTopics: Option<int>)
    requires TopicLimit(maxTopics) > 0
    ensures var limit := TopicLimit(maxTopics);
      var w := TopicsWidgetOf(ms, maxTopics).value;
      var tags := TopicTags(ms);
      |w.topics| == w.totalTopics == (if limit < |Dedup(tags)| then limit else |Dedup(tags)|)
      && SortedDesc(w.topics, CountKey)
  {
    TopicRankingFacts(ms);
    TakeSorted(TopicRanking(ms), CountKey, TopicLimit(maxTopics));
  }

  /** Each topic the widget shows occurs, with its number of occurrences. */
  lemma TopicsWidgetEntries(ms: seq<Mention>, maxTopics: Option<int>)
    requires TopicLimit(maxTopics) > 0
    ensures var w := TopicsWidgetOf(ms, maxTopics).value;
      forall i :: 0 <= i < |w.topics| ==>
        w.topics[i].key in TopicTags(ms) && w.topics[i].count == Count(TopicTags(ms), w.topics[i].key)
  {
    TopicRankingFacts(ms);
    TakeSorted(TopicRanking(ms), CountKey, TopicLimit(maxTopics));
  }

  /** The trending topic is the most mentioned one, or "No topics" when no
      mention has a topic or the leading topic is the empty string. */
  lemma TopicsWidgetTrending(ms: seq<Mention>, maxTopics: Option<int>)
    requires TopicLimit(maxTopics) > 0
    ensures var w := TopicsWidgetOf(ms, maxTopics).value;
      (w.topics == [] <==> TopicTags(ms) == [])
      && (w.trendingTopic == "No topics" <==> w.topics == [] || w.topics[0].key in {"", "No topics"})
      && (w.trendingTopic != "No topics" ==> w.trendingTopic == w.topics[0].key)
  {
    TopicRankingEmpty(ms);
    var w := TopicsWidgetOf(ms, maxTopics).value;
    assert w.topics == [] <==> TopicRanking(ms) == [];
  }

  /** The ranking is empty exactly when no mention has a topic. */
  lemma TopicRankingEmpty(ms: seq<Mention>)
    ensures TopicRanking(ms) == [] <==> TopicTags(ms) == []
  {
    var tags := TopicTags(ms);
    SortDescSorted(Tally(tags), CountKey);
    ReorderedTally(tags, TopicRanking(ms));
    if tags != [] {
      assert tags[0] in Dedup(tags);
    }
  }

  /** A topic the widget leaves out is mentioned no more often than any it keeps. */
  lemma TopicsWidgetKeepsTheMostMentioned(ms: seq<Mention>, maxTopics: Option<int>, x: string)
    requires TopicLimit(maxTopics) > 0
    requires x in TopicTags(ms) && x !in Keys(TopicsWidgetOf(ms, maxTopics).value.topics)
    ensures var w := TopicsWidgetOf(ms, maxTopics).value;
      forall i :: 0 <= i < |w.topics| ==> Count(TopicTags(ms), x) <= w.topics[i].count
  {
    var r := TopicRanking(ms);
    var kept := TopicsWidgetOf(ms, maxTopics).value.topics;
    SortDescSorted(Tally(TopicTags(ms)), CountKey);
    assert kept == r[..|kept|];
    var k := ReorderedTallyHas(TopicTags(ms), r, x);
    assert r[k] !in kept by {
      forall i | 0 <= i < |kept| ensures kept[i] != r[k] {
        assert Keys(kept)[i] == kept[i].key;
      }
    }
    LeftOutOfPrefix(r, CountKey, |kept|, r[k]);
  }

  // Engagement widget.

  /** The values a field takes where the mentions carry it, in order: one
      per mention that carries it, each value as often as it is carried. */
  function Present(vs: seq<Option<int>>): (r: seq<int>)
    ensures |r| <= |vs|
    ensures |r| + Count(vs, None) == |vs|
    ensures forall x {:trigger Count(r, x)} :: Count(r, x) == Count(vs, Some(x))
    ensures r == [] <==> forall i :: 0 <= i < |vs| ==> vs[i].None?
  {
    if vs == [] then []
    else
      var p := Present(vs[..|vs| - 1]);
      var h := if vs[|vs| - 1].Some? then [vs[|vs| - 1].value] else [];
      assert forall i :: 0 <= i < |vs| - 1 ==> vs[..|vs| - 1][i] == vs[i];
      assert forall x {:trigger Count(p + h, x)} :: Count(p + h, x) == Count(vs, Some(x)) by {
        forall x ensures Count(p + h, x) == Count(vs, Some(x)) {
          CountAppend(p, h, x);
          if h != [] { CountSingle(h[0], x); }
        }
      }
      p + h
  }

  /** Reading a field runs mention by mention: on a concatenation it is the
      concatenation of the values, in order. */
  lemma {:induction false} PresentAppend(a: seq<Option<int>>, b: seq<Option<int>>)
    ensures Present(a + b) == Present(a) + Present(b)
  {
    if b == [] {
      assert a + b == a;
    } else {
      assert (a + b)[..|a + b| - 1] == a + b[..|b| - 1];
      PresentAppend(a, b[..|b| - 1]);
    }
  }

  /** A single mention contributes its value exactly when it carries the field. */
  lemma PresentSingle(v: Option<int>)
    ensures Present([v]) == if v.Some? then [v.value] else []
  {
    assert [v][..0] == [];
  }

  function LikesOf(m: Mention): Option<int> {
    m.engagement.likes
  }

  function SharesOf(m: Mention): Option<int> {
    m.engagement.shares
  }

  function CommentsOf(m: Mention): Option<int> {
    m.engagement.comments
  }

  function Field(ms: seq<Mention>, f: Mention -> Option<int>): (r: seq<Option<int>>)
    ensures |r| == |ms| && forall i :: 0 <= i < |ms| ==> r[i] == f(ms[i])
  {
    if ms == [] then [] else Field(ms[..|ms| - 1], f) + [f(ms[|ms| - 1])]
  }

  /** `$avg`: the mean of the values present, null when there are none. */
  function FieldAverage(vs: seq<Option<int>>): (a: Option<real>)
    ensures a.None? <==> forall i :: 0 <= i < |vs| ==> vs[i].None?
    ensures a.Some? ==> a.value * (|Present(vs)| as real) == Sum(Present(vs)) as real
  {
    var p := Present(vs);
    if p == [] then None else Some(Mean(Sum(p), |p|))
  }

  /** The single `$group` document, or the all-zero fallback when the window
      has no mention and the pipeline returns no document. */
  function EngagementOf(ms: seq<Mention>): EngagementTotals {
    if ms == [] then EngagementTotals(0, 0, 0, Some(0.0), Some(0.0), Some(0.0))
    else
      EngagementTotals(Sum(Present(Field(ms, LikesOf))), Sum(Present(Field(ms, SharesOf))),
        Sum(Present(Field(ms, CommentsOf))), FieldAverage(Field(ms, LikesOf)),
        FieldAverage(Field(ms, SharesOf)), FieldAverage(Field(ms, CommentsOf)))
  }

  function EngagementWidgetOf(ms: seq<Mention>): WidgetData {
    EngagementWidget(EngagementOf(ms))
  }

  /** `$sum` of a field skips the mentions without it, which is the sum with
      a missing value counted as 0. */
  lemma {:induction false} PresentSum(ms: seq<Mention>, f: Mention -> Option<int>)
    ensures Sum(Present(Field(ms, f))) == SumOrZero(ms, f)
  {
    if ms != [] {
      var p := ms[..|ms| - 1];
      PresentSum(p, f);
      assert Field(ms, f) == Field(p, f) + [f(ms[|ms| - 1])];
      assert Field(ms, f)[..|ms| - 1] == Field(p, f);
      SumAppend(Present(Field(p, f)), if f(ms[|ms| - 1]).Some? then [f(ms[|ms| - 1]).value] else []);
    }
  }

  function SumOrZero(ms: seq<Mention>, f: Mention -> Option<int>): int {
    if ms == [] then 0 else SumOrZero(ms[..|ms| - 1], f) + OrZero(f(ms[|ms| - 1]))
  }

  lemma {:induction false} SumAppend(a: seq<int>, b: seq<int>)
    requires |b| <= 1
    ensures Sum(a + b) == Sum(a) + Sum(b)
  {
    if b != [] {
      assert (a + b)[..|a + b| - 1] == a;
      assert b[..0] == [];
    } else {
      assert a + b == a;
    }
  }

  lemma {:induction false} FieldsMakeInteractions(ms: seq<Mention>)
    ensures SumOrZero(ms, LikesOf) + SumOrZero(ms, SharesOf) + SumOrZero(ms, CommentsOf) == TotalInteractions(ms)
  {
    if ms != [] {
      FieldsMakeInteractions(ms[..|ms| - 1]);
    }
  }

  /** An average is missing exactly when no mention carries the field. */
  lemma FieldAverageMissing(ms: seq<Mention>, f: Mention -> Option<int>)
    ensures FieldAverage(Field(ms, f)).None? <==> forall i :: 0 <= i < |ms| ==> f(ms[i]).None?
  {
    var vs := Field(ms, f);
    assert forall i :: 0 <= i < |ms| ==> vs[i] == f(ms[i]);
  }

  /** The three totals add up to the interactions the summary and the
      insights count; an average is missing only when no mention carries the
      field, and is otherwise the total over the mentions that carry it; with
      no mentions every figure is 0. */
  lemma EngagementWidgetFacts(ms: seq<Mention>)
    ensures var e := EngagementOf(ms);
      e.totalLikes + e.totalShares + e.totalComments == TotalInteractions(ms)
      && (ms == [] ==> e == EngagementTotals(0, 0, 0, Some(0.0), Some(0.0), Some(0.0)))
      && (ms != [] ==> (e.avgLikes.None? <==> forall i :: 0 <= i < |ms| ==> LikesOf(ms[i]).None?))
      && (ms != [] ==> (e.avgShares.None? <==> forall i :: 0 <= i < |ms| ==> SharesOf(ms[i]).None?))
      && (ms != [] ==> (e.avgComments.None? <==> forall i :: 0 <= i < |ms| ==> CommentsOf(ms[i]).None?))
      && (ms != [] ==> e.totalLikes == SumOrZero(ms, LikesOf) && e.avgLikes == FieldAverage(Field(ms, LikesOf)))
      && (ms != [] ==> e.totalShares == SumOrZero(ms, SharesOf) && e.avgShares == FieldAverage(Field(ms, SharesOf)))
      && (ms != [] ==> e.totalComments == SumOrZero(ms, CommentsOf)
                       && e.avgComments == FieldAverage(Field(ms, CommentsOf)))
  {
    FieldAverageMissing(ms, LikesOf);
    FieldAverageMissing(ms, SharesOf);
    FieldAverageMissing(ms, CommentsOf);
    PresentSum(ms, LikesOf);
    PresentSum(ms, SharesOf);
    PresentSum(ms, CommentsOf);
    FieldsMakeInteractions(ms);
  }
}
