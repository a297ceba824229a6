/** The stored analytics snapshot of backend/models/Analytics.js: its shape and
    defaults, the growth calculation between two snapshots, and the
    latest-snapshots query. */
module AnalyticsModel {
  import opened Wrappers
  import opened Seqs
  import opened Sorting
  import opened Counting
  import opened Numbers
  import opened MentionSchema

  datatype Period = Daily | Weekly | Monthly

  datatype Metrics = Metrics(
    totalMentions: int,
    positiveMentions: int,
    negativeMentions: int,
    neutralMentions: int,
    sentimentScore: real,
    engagementScore: real,
    reach: int)

  const DefaultMetrics := Metrics(0, 0, 0, 0, 0.0, 0.0, 0)

  /** The stored source breakdown has the five source keys, each 0 unless set. */
  datatype SourceBreakdown = SourceBreakdown(twitter: int, facebook: int, news: int, blog: int, forum: int)

  const DefaultBreakdown := SourceBreakdown(0, 0, 0, 0, 0)

  function BreakdownOf(b: SourceBreakdown, s: Source): int {
    match s
    case Twitter => b.twitter
    case Facebook => b.facebook
    case News => b.news
    case Blog => b.blog
    case Forum => b.forum
  }

  /** `Object.entries(sourceBreakdown)` of a stored snapshot, in schema order. */
  function BreakdownEntries(b: SourceBreakdown): (r: seq<Entry<Source>>)
    ensures |r| == 5 && Keys(r) == [Twitter, Facebook, News, Blog, Forum]
    ensures forall i :: 0 <= i < 5 ==> r[i].count == BreakdownOf(b, r[i].key)
  {
    [Entry(Twitter, b.twitter), Entry(Facebook, b.facebook), Entry(News, b.news),
     Entry(Blog, b.blog), Entry(Forum, b.forum)]
  }

  datatype SentimentSplit = SentimentSplit(positive: int, negative: int, neutral: int)

  datatype TopicEntry = TopicEntry(topic: string, count: int, sentiment: SentimentSplit)

  datatype HourSlot = HourSlot(hour: int, count: int)

  datatype Keyword = Keyword(keyword: string, count: int, growth: real)

  datatype Competitor = Competitor(name: string, mentionCount: int, sentimentScore: real, marketShare: real)

  datatype CompetitorComparison = CompetitorComparison(mainBrand: Option<string>, competitors: seq<Competitor>)

  datatype Snapshot = Snapshot(
    brandName: string,
    date: int,
    period: Period,
    metrics: Metrics,
    sourceBreakdown: SourceBreakdown,
    topicDistribution: seq<TopicEntry>,
    peakHours: seq<HourSlot>,
    trendingKeywords: seq<Keyword>,
    competitorComparison: CompetitorComparison)

  /** A snapshot document created with only its brand and date: every other
      path takes its schema default. */
  function NewSnapshot(brand: string, date: int): (s: Snapshot)
    ensures s.period == Daily && s.metrics == DefaultMetrics
    ensures forall src :: BreakdownOf(s.sourceBreakdown, src) == 0
    ensures s.topicDistribution == [] && s.peakHours == [] && s.trendingKeywords == []
  {
    Snapshot(brand, date, Daily, DefaultMetrics, DefaultBreakdown, [], [], [],
             CompetitorComparison(None, []))
  }

  /** The metric names `calculateGrowth` can be asked about. */
  datatype Metric =
    | TotalMentions | PositiveMentions | NegativeMentions | NeutralMentions
    | SentimentScore | EngagementScore | Reach

  function MetricValue(m: Metrics, k: Metric): real {
    match k
    case TotalMentions => m.totalMentions as real
    case PositiveMentions => m.positiveMentions as real
    case NegativeMentions => m.negativeMentions as real
    case NeutralMentions => m.neutralMentions as real
    case SentimentScore => m.sentimentScore
    case EngagementScore => m.engagementScore
    case Reach => m.reach as real
  }

  /** Percentage change from `previous` to `current`, before rounding. */
  function RawGrowth(current: real, previous: real): real
    requires previous != 0.0
  {
    (current - previous) / previous * 100.0
  }

  /** `calculateGrowth(previousData, metric)` called on `self`: 0 without a
      previous snapshot or when its value is 0, otherwise the percentage
      change rounded to one decimal. */
  function CalculateGrowth(self: Snapshot, previousData: Option<Snapshot>, metric: Metric): (g: real)
    ensures previousData.None? ==> g == 0.0
    ensures previousData.Some? && MetricValue(previousData.value.metrics, metric) == 0.0 ==> g == 0.0
    ensures previousData.Some? && MetricValue(previousData.value.metrics, metric) != 0.0 ==>
      var c, p := MetricValue(self.metrics, metric), MetricValue(previousData.value.metrics, metric);
      (g - RawGrowth(c, p)) * 10.0 <= 0.5 && (RawGrowth(c, p) - g) * 10.0 <= 0.5
    ensures previousData.Some? && MetricValue(previousData.value.metrics, metric) != 0.0 ==>
      RoundedFrom(g, RawGrowth(MetricValue(self.metrics, metric), MetricValue(previousData.value.metrics, metric)), 1)
  {
    if previousData.None? || MetricValue(previousData.value.metrics, metric) == 0.0 then 0.0
    else RoundTo(RawGrowth(MetricValue(self.metrics, metric), MetricValue(previousData.value.metrics, metric)), 1)
  }

  /** Growth of a snapshot against itself is 0. */
  lemma GrowthAgainstItself(s: Snapshot, metric: Metric)
    ensures CalculateGrowth(s, Some(s), metric) == 0.0
  {
    var v := MetricValue(s.metrics, metric);
    if v != 0.0 {
      assert RawGrowth(v, v) == 0.0;
    }
  }

  /** Before rounding, for a positive previous value the growth has the sign
      of the change. */
  lemma RawGrowthSign(current: real, previous: real)
    requires previous > 0.0
    ensures RawGrowth(current, previous) > 0.0 <==> current > previous
    ensures RawGrowth(current, previous) < 0.0 <==> current < previous
  {
    var q := (current - previous) / previous;
    assert q * previous == current - previous;
  }

  /** After rounding the sign still never contradicts the change, but a
      small change can round to 0. */
  lemma GrowthSign(self: Snapshot, previous: Snapshot, metric: Metric)
    requires MetricValue(previous.metrics, metric) > 0.0
    ensures var g, c, p := CalculateGrowth(self, Some(previous), metric),
                          MetricValue(self.metrics, metric), MetricValue(previous.metrics, metric);
      (g > 0.0 ==> c > p) && (g < 0.0 ==> c < p) && (c == p ==> g == 0.0)
  {
    RawGrowthSign(MetricValue(self.metrics, metric), MetricValue(previous.metrics, metric));
  }

  /** A change of 1 on a previous value of 10000 is reported as growth 0. */
  lemma GrowthRoundsSmallChangeToZero(self: Snapshot, previous: Snapshot)
    requires self.metrics.totalMentions == 10001 && previous.metrics.totalMentions == 10000
    ensures CalculateGrowth(self, Some(previous), TotalMentions) == 0.0
  {
    assert RawGrowth(10001.0, 10000.0) == 0.01;
    assert (0.01 * 10.0 + 0.5).Floor == 0;
  }

  /** With a negative previous value (a sentiment score, say) an increase is
      reported as negative growth. */
  lemma NegativeBaselineInvertsSign(current: real, previous: real)
    requires previous < 0.0 && current > previous
    ensures RawGrowth(current, previous) < 0.0
  {
    var q := (current - previous) / previous;
    assert q * previous == current - previous;
  }

  function DateKey(s: Snapshot): int {
    s.date
  }

  /** The snapshots of `brand` whose date is at least `since` (when given),
      in store order: every stored copy of each, and nothing else. */
  function Select(store: seq<Snapshot>, brand: string, since: Option<int>): (r: seq<Snapshot>)
    ensures forall i :: 0 <= i < |r| ==> r[i] in store && r[i].brandName == brand
    ensures since.Some? ==> forall i :: 0 <= i < |r| ==> r[i].date >= since.value
    ensures forall i :: 0 <= i < |store| && store[i].brandName == brand ==>
      (since.Some? ==> store[i].date >= since.value) ==> store[i] in r
    ensures forall s {:trigger Count(r, s)} :: Count(r, s) == if Selected(s, brand, since) then Count(store, s) else 0
  {
    if store == [] then []
    else
      var h := if Selected(store[0], brand, since) then [store[0]] else [];
      var rest := Select(store[1..], brand, since);
      assert store == [store[0]] + store[1..];
      assert forall s {:trigger Count(h + rest, s)} :: (Count(h + rest, s)
          == if Selected(s, brand, since) then Count(store, s) else 0) by {
        FilterStepCount(store[0], store[1..], rest, (s: Snapshot) => Selected(s, brand, since));
      }
      SelectStep(store, brand, since, h, rest);
      h + rest
  }

  /** One step of `Select`: what `rest` keeps of `store[1..]`, `h + rest`
      keeps of `store`. */
  lemma SelectStep(store: seq<Snapshot>, brand: string, since: Option<int>, h: seq<Snapshot>, rest: seq<Snapshot>)
    requires store != [] && h == if Selected(store[0], brand, since) then [store[0]] else []
    requires forall i :: 0 <= i < |rest| ==> rest[i] in store[1..] && Selected(rest[i], brand, since)
    requires forall i :: 1 <= i < |store| && Selected(store[i], brand, since) ==> store[i] in rest
    ensures forall i :: 0 <= i < |h + rest| ==> (h + rest)[i] in store && (h + rest)[i].brandName == brand
    ensures since.Some? ==> forall i :: 0 <= i < |h + rest| ==> (h + rest)[i].date >= since.value
    ensures forall i :: 0 <= i < |store| && store[i].brandName == brand ==>
      (since.Some? ==> store[i].date >= since.value) ==> store[i] in h + rest
  {
    forall i | 0 <= i < |h + rest| ensures (h + rest)[i] in store && Selected((h + rest)[i], brand, since) {
      if i >= |h| {
        assert (h + rest)[i] == rest[i - |h|];
      }
    }
  }

  /** The `brandName` / `date` filter of `getLatestAnalytics`. */
  predicate Selected(s: Snapshot, brand: string, since: Option<int>) {
    s.brandName == brand && (since.Some? ==> s.date >= since.value)
  }

  /** The query runs over the store record by record: on a concatenation it
      is the concatenation of its results, in order. */
  lemma {:induction false} SelectAppend(a: seq<Snapshot>, b: seq<Snapshot>, brand: string, since: Option<int>)
    ensures Select(a + b, brand, since) == Select(a, brand, since) + Select(b, brand, since)
  {
    if a == [] {
      assert a + b == b;
    } else {
      assert (a + b)[1..] == a[1..] + b;
      SelectAppend(a[1..], b, brand, since);
    }
  }

  /** A single snapshot is selected exactly when it matches. */
  lemma SelectSingle(s: Snapshot, brand: string, since: Option<int>)
    ensures Select([s], brand, since) == if Selected(s, brand, since) then [s] else []
  {
    assert [s][1..] == [];
  }

  /** `getLatestAnalytics(brand, days)` with its start date given: the
      snapshots of the brand from `since` on, newest first. */
  function LatestAnalytics(store: seq<Snapshot>, brand: string, since: int): (r: seq<Snapshot>)
    ensures multiset(r) == multiset(Select(store, brand, Some(since)))
    ensures forall i :: 0 <= i < |r| ==> r[i].brandName == brand && r[i].date >= since
    ensures SortedDesc(r, DateKey)
  {
    var sel := Select(store, brand, Some(since));
    var r := SortDesc(sel, DateKey);
    SortDescSorted(sel, DateKey);
    PermutationMembers(r, sel);
    r
  }

  /** The first of the latest snapshots is one of the brand's from `since`
      on, and none of those is newer. */
  lemma LatestIsNewest(store: seq<Snapshot>, brand: string, since: int)
    requires LatestAnalytics(store, brand, since) != []
    ensures var r := LatestAnalytics(store, brand, since);
      r[0] in store && r[0].brandName == brand && r[0].date >= since
      && forall s :: s in store && s.brandName == brand && s.date >= since ==> s.date <= r[0].date
  {
    var sel := Select(store, brand, Some(since));
    var r := LatestAnalytics(store, brand, since);
    assert r[0] in multiset(sel);
    forall s | s in store && s.brandName == brand && s.date >= since ensures s.date <= r[0].date {
      var i :| 0 <= i < |store| && store[i] == s;
      assert s in multiset(r);
      var j :| 0 <= j < |r| && r[j] == s;
    }
  }

  /** `Analytics.findOne({ brandName }).sort({ date: -1 })`. */
  function NewestFor(store: seq<Snapshot>, brand: string): (r: Option<Snapshot>)
    ensures r.None? <==> forall i :: 0 <= i < |store| ==> store[i].brandName != brand
    ensures r.Some? ==> r.value in store && r.value.brandName == brand
    ensures r.Some? ==> forall i :: 0 <= i < |store| && store[i].brandName == brand ==>
      store[i].date <= r.value.date
  {
    var sel := Select(store, brand, None);
    var sorted := SortDesc(sel, DateKey);
    SortDescSorted(sel, DateKey);
    if sorted == [] then
      assert forall i :: 0 <= i < |store| ==> store[i].brandName == brand ==> store[i] in multiset(sel);
      None
    else
      assert sorted[0] in multiset(sel);
      assert forall x :: x in sel ==> DateKey(x) <= DateKey(sorted[0]) by {
        forall x | x in sel ensures DateKey(x) <= DateKey(sorted[0]) {
          assert x in multiset(sorted);
          SortedHeadIsMax(sorted, DateKey, x);
        }
      }
      Some(sorted[0])
  }
}
