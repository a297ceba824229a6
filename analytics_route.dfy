/** The `/overview` and `/spike-alerts` handlers of backend/routes/analytics.js
    with their queries given as sequences and the clock as parameters. */
module AnalyticsRoute {
  import opened Wrappers
  import opened Seqs
  import opened Counting
  import opened Numbers
  import opened MentionSchema
  import opened AnalyticsModel
  import opened RealTime
  import opened TimeWindows

  // ---------------------------------------------------------------------------
  // Overview.

  /** The JSON object the overview answers with. */
  datatype OverviewReport = OverviewReport(
    totalMentions: int,
    totalGrowth: real,
    sentimentScore: real,
    engagementScore: real,
    positiveMentions: int,
    negativeMentions: int,
    neutralMentions: int,
    sourceBreakdown: seq<Entry<Source>>,
    trendingTopics: seq<TopicEntry>,
    peakHours: seq<HourSlot>,
    trendingKeywords: seq<Keyword>,
    competitorComparison: CompetitorComparison)

  /** The report built from stored snapshots: the newest one, its growth
      against the next newest, and its fields as stored. */
  function FromStored(latest: Snapshot, previous: Snapshot): OverviewReport {
    var m := latest.metrics;
    OverviewReport(m.totalMentions, CalculateGrowth(latest, Some(previous), TotalMentions),
      m.sentimentScore, m.engagementScore, m.positiveMentions, m.negativeMentions, m.neutralMentions,
      BreakdownEntries(latest.sourceBreakdown), Take(latest.topicDistribution, 5),
      latest.peakHours, latest.trendingKeywords, latest.competitorComparison)
  }

  /** The report built from the live result, which has no `calculateGrowth` and
      no `competitorComparison`, so both take their fallbacks. */
  function FromLive(live: LiveSnapshot, brand: string): OverviewReport {
    var m := live.metrics;
    OverviewReport(m.totalMentions, 0.0,
      m.sentimentScore, m.engagementScore, m.positiveMentions, m.negativeMentions, m.neutralMentions,
      live.sourceBreakdown, Take(live.topicDistribution, 5),
      live.peakHours, live.trendingKeywords, CompetitorComparison(Some(brand), []))
  }

  /** `!brand`: the query parameter is missing or empty. */
  predicate MissingBrand(brand: Option<string>) {
    brand.None? || brand.value == ""
  }

  /** `GET /overview?brand=&period=` over the snapshot and mention stores at time `now`. */
  function Overview(snapshots: seq<Snapshot>, mentions: seq<Mention>, brand: Option<string>,
                    period: Option<string>, now: int): (r: Result<OverviewReport, string>)
    ensures r.Err? <==> MissingBrand(brand)
    ensures r.Err? ==> r.error == "Brand name is required"
  {
    if MissingBrand(brand) then Err("Brand name is required")
    else
      var days := PeriodDays(PeriodOrDefault(period));
      var stored := LatestAnalytics(snapshots, brand.value, DaysAgo(now, days));
      if stored == [] then
        Ok(FromLive(LiveAnalytics(MentionsSince(mentions, brand.value, DaysAgo(now, days))), brand.value))
      else
        var previous := if |stored| > 1 then stored[1] else stored[0];
        Ok(FromStored(stored[0], previous))
  }

  /** With stored snapshots in the window, the report shows the newest of them
      (none in the window is newer) with its growth against the next newest. */
  lemma OverviewFromStored(snapshots: seq<Snapshot>, mentions: seq<Mention>, brand: string,
                           period: Option<string>, now: int)
    requires brand != ""
    requires LatestAnalytics(snapshots, brand, DaysAgo(now, PeriodDays(PeriodOrDefault(period)))) != []
    ensures var since := DaysAgo(now, PeriodDays(PeriodOrDefault(period)));
      var stored := LatestAnalytics(snapshots, brand, since);
      var r := Overview(snapshots, mentions, Some(brand), period, now).value;
      stored[0] in snapshots && stored[0].brandName == brand && stored[0].date >= since
      && (forall s :: s in snapshots && s.brandName == brand && s.date >= since ==> s.date <= stored[0].date)
      && r.totalMentions == stored[0].metrics.totalMentions
      && r.totalGrowth == CalculateGrowth(stored[0], Some(if |stored| > 1 then stored[1] else stored[0]), TotalMentions)
      && r.sentimentScore == stored[0].metrics.sentimentScore
      && r.engagementScore == stored[0].metrics.engagementScore
      && r.positiveMentions == stored[0].metrics.positiveMentions
      && r.negativeMentions == stored[0].metrics.negativeMentions
      && r.neutralMentions == stored[0].metrics.neutralMentions
      && r.sourceBreakdown == BreakdownEntries(stored[0].sourceBreakdown)
      && |r.trendingTopics| == (if |stored[0].topicDistribution| < 5 then |stored[0].topicDistribution| else 5)
      && r.trendingTopics == stored[0].topicDistribution[..|r.trendingTopics|]
      && r.peakHours == stored[0].peakHours
      && r.trendingKeywords == stored[0].trendingKeywords
      && r.competitorComparison == stored[0].competitorComparison
  {
    var since := DaysAgo(now, PeriodDays(PeriodOrDefault(period)));
    var stored := LatestAnalytics(snapshots, brand, since);
    LatestIsNewest(snapshots, brand, since);
    var previous := if |stored| > 1 then stored[1] else stored[0];
    assert Overview(snapshots, mentions, Some(brand), period, now) == Ok(FromStored(stored[0], previous));
    StoredReport(stored[0], previous);
  }

  /** The stored report passes the newest snapshot's fields through, its topic
      distribution cut to the first five. */
  lemma StoredReport(latest: Snapshot, previous: Snapshot)
    ensures var r := FromStored(latest, previous);
      r.sourceBreakdown == BreakdownEntries(latest.sourceBreakdown)
      && |r.trendingTopics| == (if |latest.topicDistribution| < 5 then |latest.topicDistribution| else 5)
      && r.trendingTopics == latest.topicDistribution[..|r.trendingTopics|]
  {
  }

  /** A lone stored snapshot in the window is compared with itself: growth 0. */
  lemma OverviewSingleSnapshotHasNoGrowth(snapshots: seq<Snapshot>, mentions: seq<Mention>, brand: string,
                                          period: Option<string>, now: int)
    requires brand != ""
    requires |LatestAnalytics(snapshots, brand, DaysAgo(now, PeriodDays(PeriodOrDefault(period))))| == 1
    ensures Overview(snapshots, mentions, Some(brand), period, now).value.totalGrowth == 0.0
  {
    var stored := LatestAnalytics(snapshots, brand, DaysAgo(now, PeriodDays(PeriodOrDefault(period))));
    GrowthAgainstItself(stored[0], TotalMentions);
  }

  /** Without stored snapshots in the window, the report is the live
      calculation: growth 0, the brand as main brand without competitors, the
      five leading live topics, and twenty-four hour slots. */
  lemma OverviewFromLive(snapshots: seq<Snapshot>, mentions: seq<Mention>, brand: string,
                         period: Option<string>, now: int)
    requires brand != ""
    requires LatestAnalytics(snapshots, brand, DaysAgo(now, PeriodDays(PeriodOrDefault(period)))) == []
    ensures var ms := MentionsSince(mentions, brand, DaysAgo(now, PeriodDays(PeriodOrDefault(period))));
      var r := Overview(snapshots, mentions, Some(brand), period, now).value;
      r.totalMentions == |ms|
      && r.positiveMentions + r.negativeMentions + r.neutralMentions == |ms|
      && r.totalGrowth == 0.0
      && r.competitorComparison == CompetitorComparison(Some(brand), [])
      && r.positiveMentions == Count(Sentiments(ms), Positive)
      && r.negativeMentions == Count(Sentiments(ms), Negative)
      && r.neutralMentions == Count(Sentiments(ms), Neutral)
      && r.sentimentScore == RealTime.SentimentScore(r.positiveMentions, r.negativeMentions, |ms|)
      && r.engagementScore == RealTime.EngagementScore(ms)
      && r.sourceBreakdown == Tally(Sources(ms))
      && |r.trendingTopics| == (if |TopicDistribution(ms)| < 5 then |TopicDistribution(ms)| else 5)
      && r.trendingTopics == TopicDistribution(ms)[..|r.trendingTopics|]
      && r.peakHours == PeakHours(ms) && |r.peakHours| == 24 && SlotTotal(r.peakHours) == |ms|
      && r.trendingKeywords == TrendingKeywords(TopicDistribution(ms))
  {
    var ms := MentionsSince(mentions, brand, DaysAgo(now, PeriodDays(PeriodOrDefault(period))));
    assert Overview(snapshots, mentions, Some(brand), period, now) == Ok(FromLive(LiveAnalytics(ms), brand));
    LiveReportMetrics(ms, brand);
    LiveReportTables(ms, brand);
    LiveReportTopics(ms, brand);
  }

  /** The live report's counts and scores are those of the live mentions. */
  lemma LiveReportMetrics(ms: seq<Mention>, brand: string)
    ensures var r := FromLive(LiveAnalytics(ms), brand);
      r.totalMentions == |ms|
      && r.positiveMentions == Count(Sentiments(ms), Positive)
      && r.negativeMentions == Count(Sentiments(ms), Negative)
      && r.neutralMentions == Count(Sentiments(ms), Neutral)
      && r.sentimentScore == RealTime.SentimentScore(r.positiveMentions, r.negativeMentions, |ms|)
      && r.engagementScore == RealTime.EngagementScore(ms)
  {
    var m := LiveMetrics(ms);
    assert FromLive(LiveAnalytics(ms), brand).positiveMentions == m.positiveMentions;
  }

  /** The live report carries the live breakdown, hours and keywords. */
  lemma LiveReportTables(ms: seq<Mention>, brand: string)
    ensures var r := FromLive(LiveAnalytics(ms), brand);
      r.sourceBreakdown == Tally(Sources(ms))
      && r.peakHours == PeakHours(ms) && |r.peakHours| == 24 && SlotTotal(r.peakHours) == |ms|
      && r.trendingKeywords == TrendingKeywords(TopicDistribution(ms))
  {
    PeakHoursShape(ms);
  }

  /** The live report's trending topics are the first five entries of the
      live topic distribution. */
  lemma LiveReportTopics(ms: seq<Mention>, brand: string)
    ensures var r := FromLive(LiveAnalytics(ms), brand);
      |r.trendingTopics| == (if |TopicDistribution(ms)| < 5 then |TopicDistribution(ms)| else 5)
      && r.trendingTopics == TopicDistribution(ms)[..|r.trendingTopics|]
  {
    var d := TopicDistribution(ms);
    assert FromLive(LiveAnalytics(ms), brand).trendingTopics == Take(d, 5);
  }

  // ---------------------------------------------------------------------------
  // Spike alerts.

  /** The mentions of `brand` with `from <= timestamp < to`, in store order:
      every stored copy of each, and nothing else. */
  function MentionsBetween(store: seq<Mention>, brand: string, from: int, to: int): (r: seq<Mention>)
    ensures forall m :: m in r <==> m in store && m.brandName == brand && from <= m.timestamp < to
    ensures forall m {:trigger Count(r, m)} ::
      Count(r, m) == if m.brandName == brand && from <= m.timestamp < to then Count(store, m) else 0
  {
    if store == [] then []
    else
      var h := if store[0].brandName == brand && from <= store[0].timestamp < to then [store[0]] else [];
      var rest := MentionsBetween(store[1..], brand, from, to);
      assert store == [store[0]] + store[1..];
      assert forall m {:trigger Count(h + rest, m)} :: (Count(h + rest, m)
          == if m.brandName == brand && from <= m.timestamp < to then Count(store, m) else 0) by {
        FilterStepCount(store[0], store[1..], rest, (m: Mention) => m.brandName == brand && from <= m.timestamp < to);
      }
      h + rest
  }

  /** `countDocuments` runs over the store record by record: on a
      concatenation it is the concatenation of its results, in order. */
  lemma {:induction false} MentionsBetweenAppend(a: seq<Mention>, b: seq<Mention>, brand: string, from: int, to: int)
    ensures MentionsBetween(a + b, brand, from, to) == MentionsBetween(a, brand, from, to) + MentionsBetween(b, brand, from, to)
  {
    if a == [] {
      assert a + b == b;
    } else {
      assert (a + b)[1..] == a[1..] + b;
      MentionsBetweenAppend(a[1..], b, brand, from, to);
    }
  }

  /** A single record is counted exactly when it matches. */
  lemma MentionsBetweenSingle(m: Mention, brand: string, from: int, to: int)
    ensures MentionsBetween([m], brand, from, to) == if m.brandName == brand && from <= m.timestamp < to then [m] else []
  {
    assert [m][1..] == [];
  }

  /** The mean size of `groups` groups holding `total` items in all, each at least one. */
  function GroupMean(total: nat, groups: nat): (r: real)
    requires 0 < groups <= total
    ensures r * (groups as real) == total as real
    ensures r >= 1.0
  {
    (total as real) / (groups as real)
  }

  /** `$group` by calendar day, then `$avg` of the group counts, `|| 0` when
      there is no group at all. */
  function WeeklyAverage(ms: seq<Mention>): (avg: real)
    ensures |ms| == 0 ==> avg == 0.0
    ensures |ms| > 0 ==> 0 < |Dedup(Days(ms))| <= |ms| && avg == GroupMean(|ms|, |Dedup(Days(ms))|)
    ensures |ms| > 0 ==> avg >= 1.0
  {
    var groups := Tally(Days(ms));
    DayGroups(ms);
    if groups == [] then 0.0
    else
      GroupMean(SumCounts(groups), |groups|)
  }

  /** One group per calendar day with mentions; the group sizes add up to the
      number of mentions. */
  lemma DayGroups(ms: seq<Mention>)
    ensures SumCounts(Tally(Days(ms))) == |ms|
    ensures |Tally(Days(ms))| == |Dedup(Days(ms))|
    ensures |Tally(Days(ms))| <= |ms|
    ensures |ms| > 0 <==> |Tally(Days(ms))| > 0
  {
    TallyCorrect(Days(ms));
    assert |Tally(Days(ms))| == |Keys(Tally(Days(ms)))|;
    if |ms| > 0 {
      assert Days(ms)[0] in Dedup(Days(ms));
    }
  }

  /** The spike-alert answer. */
  datatype SpikeAlert = SpikeAlert(todayCount: int, weeklyAverage: real, isSpike: bool, spikePercentage: real)

  /** `GET /spike-alerts?brand=`: `todayStart` is local midnight of `now`. Today
      runs up to, but not including, 23:59:59.999; the average is taken over
      the calendar days of the last seven days that have mentions. */
  function SpikeAlerts(store: seq<Mention>, brand: string, now: int, todayStart: int): (a: SpikeAlert)
    ensures a.todayCount == |MentionsBetween(store, brand, todayStart, todayStart + DayMs - 1)|
    ensures a.weeklyAverage == WeeklyAverage(MentionsSince(store, brand, DaysAgo(now, 7)))
    ensures a.isSpike <==> (a.todayCount as real) > a.weeklyAverage * 2.0
    ensures a.spikePercentage == SpikePercentage(a.todayCount, a.weeklyAverage, 2)
  {
    var today := |MentionsBetween(store, brand, todayStart, todayStart + DayMs - 1)|;
    var avg := WeeklyAverage(MentionsSince(store, brand, DaysAgo(now, 7)));
    SpikeAlert(today, avg, (today as real) > avg * 2.0, SpikePercentage(today, avg, 2))
  }

  /** A mention stamped at the last millisecond of today is not counted as today's. */
  lemma LastMillisecondIsNotToday(store: seq<Mention>, brand: string, todayStart: int, m: Mention)
    requires m.timestamp == todayStart + DayMs - 1
    ensures m !in MentionsBetween(store, brand, todayStart, todayStart + DayMs - 1)
  {
  }

  /** With no mentions in the last week nothing is a spike baseline: any mention
      today is a spike, and the percentage is reported as 0. */
  lemma QuietWeek(store: seq<Mention>, brand: string, now: int, todayStart: int)
    requires MentionsSince(store, brand, DaysAgo(now, 7)) == []
    ensures var a := SpikeAlerts(store, brand, now, todayStart);
      a.weeklyAverage == 0.0 && a.spikePercentage == 0.0 && (a.isSpike <==> a.todayCount > 0)
  {
  }

  /** Today's window lies inside the last week's once today started less than
      seven days ago, so it holds no more mentions. */
  lemma {:induction false} TodayWithinWeek(store: seq<Mention>, brand: string, since: int, from: int, to: int)
    requires since <= from
    ensures |MentionsBetween(store, brand, from, to)| <= |MentionsSince(store, brand, since)|
  {
    if store != [] {
      TodayWithinWeek(store[1..], brand, since, from, to);
    }
  }

  /** A spike needs mentions on at least three calendar days of the week:
      today's mentions are also the week's, so with one or two days the
      average is at least half of today's count. */
  lemma SpikeNeedsThreeDays(store: seq<Mention>, brand: string, now: int, todayStart: int)
    requires DaysAgo(now, 7) <= todayStart
    ensures var a := SpikeAlerts(store, brand, now, todayStart);
      a.isSpike ==> |Dedup(Days(MentionsSince(store, brand, DaysAgo(now, 7))))| >= 3
  {
    var a := SpikeAlerts(store, brand, now, todayStart);
    var w := MentionsSince(store, brand, DaysAgo(now, 7));
    TodayWithinWeek(store, brand, DaysAgo(now, 7), todayStart, todayStart + DayMs - 1);
    if |Dedup(Days(w))| <= 2 {
      FewDaysNoSpike(a.todayCount, w);
    }
  }

  /** Over one or two calendar days the weekly average is at least half of
      the week's mentions. */
  lemma FewDaysNoSpike(t: int, w: seq<Mention>)
    requires t <= |w| && |Dedup(Days(w))| <= 2
    ensures (t as real) <= WeeklyAverage(w) * 2.0
  {
    if |w| > 0 {
      AverageOfFewDays(t, |w|, |Dedup(Days(w))|, WeeklyAverage(w));
    }
  }

  /** Over one or two groups the mean is at least half of all items. */
  lemma AverageOfFewDays(t: int, n: nat, k: nat, avg: real)
    requires t <= n && 0 < k <= 2 && 0 < k <= n && avg == GroupMean(n, k)
    ensures (t as real) <= avg * 2.0
  {
    if k == 1 {
      assert avg == n as real;
    }
  }
}
