/** The dashboard record of backend/models/Dashboard.js: its widget layout,
    preferences and quick statistics, the get-or-create of a brand's record
    with the default layout, and the quick-statistics update from the
    brand's newest analytics snapshot. */
module DashboardModel {
  import opened Wrappers
  import opened Seqs
  import opened Counting
  import opened Numbers
  import opened MentionSchema
  import opened AnalyticsModel
  import DashboardRoute

  /** The widget-type enum of the schema. */
  datatype WidgetType = SentimentWidget | SourcesWidget | TimelineWidget | MetricsWidget
                      | TopicsWidget | EngagementWidget | AlertsWidget

  function WidgetTypeName(t: WidgetType): string {
    match t
    case SentimentWidget => "sentiment"
    case SourcesWidget => "sources"
    case TimelineWidget => "timeline"
    case MetricsWidget => "metrics"
    case TopicsWidget => "topics"
    case EngagementWidget => "engagement"
    case AlertsWidget => "alerts"
  }

  /** A cell rectangle of the grid: column `x`, row `y`, `w` columns wide, `h` rows high. */
  datatype Position = Position(x: int, y: int, w: int, h: int)

  /** A value of the free-form widget configuration. */
  datatype ConfigValue = Flag(b: bool) | Number(n: int) | Text(s: string)

  datatype Widget = Widget(kind: WidgetType, position: Position, config: seq<(string, ConfigValue)>, isVisible: bool)

  datatype Preferences = Preferences(refreshRate: int, timeRange: string, theme: string, compactMode: bool)

  /** The preference defaults: refresh every 300 seconds, a 7-day range, the
      dark theme, not compact. */
  const DefaultPreferences := Preferences(300, "7d", "dark", false)

  /** The quick statistics; the rates are JavaScript quotients. */
  datatype QuickStats = QuickStats(
    totalMentions: int,
    positiveRate: Rate,
    negativeRate: Rate,
    avgEngagement: real,
    topSource: string,
    trendingTopic: string)

  const DefaultQuickStats := QuickStats(0, Finite(0.0), Finite(0.0), 0.0, "", "")

  /** A widget as the default layout lists it: visible unless said otherwise. */
  function Placed(kind: WidgetType, x: int, y: int, w: int, h: int, config: seq<(string, ConfigValue)>): Widget {
    Widget(kind, Position(x, y, w, h), config, true)
  }

  /** The layout a new dashboard gets. */
  function DefaultLayout(): seq<Widget> {
    [Placed(MetricsWidget, 0, 0, 6, 2, [("showTrends", Flag(true)), ("compact", Flag(false))]),
     Placed(SentimentWidget, 6, 0, 3, 2, [("showPercentages", Flag(true))]),
     Placed(SourcesWidget, 9, 0, 3, 2, [("showCounts", Flag(true))]),
     Placed(TimelineWidget, 0, 2, 8, 3, [("showTrendLine", Flag(true)), ("timeRange", Text("7d"))]),
     Placed(TopicsWidget, 8, 2, 4, 3, [("maxTopics", Number(5)), ("showSentiment", Flag(true))]),
     Placed(AlertsWidget, 0, 5, 12, 2, [("showOnlyCritical", Flag(false))])]
  }

  /** Two rectangles share a cell. */
  predicate Overlap(a: Position, b: Position) {
    a.x < b.x + b.w && b.x < a.x + a.w && a.y < b.y + b.h && b.y < a.y + a.h
  }

  /** The default layout: six visible widgets of the listed types, each
      inside the twelve columns of the grid, no two sharing a cell. */
  lemma DefaultLayoutFits()
    ensures var l := DefaultLayout();
      |l| == 6
      && [l[0].kind, l[1].kind, l[2].kind, l[3].kind, l[4].kind, l[5].kind]
         == [MetricsWidget, SentimentWidget, SourcesWidget, TimelineWidget, TopicsWidget, AlertsWidget]
      && (forall i :: 0 <= i < |l| ==> l[i].isVisible)
      && (forall i :: 0 <= i < |l| ==>
            var p := l[i].position;
            0 <= p.x && 0 < p.w && p.x + p.w <= 12 && 0 <= p.y && 0 < p.h)
      && forall i, j :: 0 <= i < j < |l| ==> !Overlap(l[i].position, l[j].position)
  {
  }

  /** The widget route serves every widget type of the schema but the
      metrics and alerts ones, which the default layout places all the same. */
  lemma WidgetTypeServed(k: WidgetType, store: seq<Mention>, brand: string, config: DashboardRoute.WidgetConfig,
                         now: int)
    ensures var r := DashboardRoute.Widget(store, brand, WidgetTypeName(k), config, now);
      (r.Err? && r.error == DashboardRoute.UnknownWidgetType) <==> k == MetricsWidget || k == AlertsWidget
  {
    assert WidgetTypeName(k) in DashboardRoute.KnownWidgets <==> k != MetricsWidget && k != AlertsWidget;
  }

  // ---------------------------------------------------------------------------
  // Quick statistics.

  /** `Object.entries(sourceBreakdown).reduce((a, b) => a[1] > b[1] ? a : b)[0]`. */
  function TopBreakdownSource(b: SourceBreakdown): Source {
    var entries := BreakdownEntries(b);
    entries[LastMaxIndex(Counts(entries))].key
  }

  /** The position of a source among the breakdown's keys. */
  function SchemaIndex(s: Source): nat {
    match s
    case Twitter => 0
    case Facebook => 1
    case News => 2
    case Blog => 3
    case Forum => 4
  }

  /** The top source has a largest count; of sources with that count, the
      one listed last in the schema wins. */
  lemma TopBreakdownSourceIsMax(b: SourceBreakdown)
    ensures forall s :: BreakdownOf(b, s) <= BreakdownOf(b, TopBreakdownSource(b))
    ensures forall s :: BreakdownOf(b, s) == BreakdownOf(b, TopBreakdownSource(b)) ==>
      SchemaIndex(s) <= SchemaIndex(TopBreakdownSource(b))
  {
    var entries := BreakdownEntries(b);
    var k := LastMaxIndex(Counts(entries));
    assert entries[k].key == TopBreakdownSource(b);
    forall s ensures BreakdownOf(b, s) <= BreakdownOf(b, entries[k].key)
    ensures BreakdownOf(b, s) == BreakdownOf(b, entries[k].key) ==> SchemaIndex(s) <= SchemaIndex(entries[k].key)
    {
      var j := SchemaIndex(s);
      assert entries[j].key == s && entries[k].key == Keys(entries)[k];
      assert SchemaIndex(entries[k].key) == k;
      assert Counts(entries)[j] == BreakdownOf(b, s);
      assert Counts(entries)[k] == BreakdownOf(b, entries[k].key);
    }
  }

  /** `topicDistribution.length > 0 ? topicDistribution[0].topic : 'No topics'`. */
  function TrendingTopicOf(t: seq<TopicEntry>): (r: string)
    ensures t == [] ==> r == "No topics"
    ensures t != [] ==> r == t[0].topic
  {
    if |t| > 0 then t[0].topic else "No topics"
  }

  /** The quick statistics projected from a snapshot. */
  function StatsOf(s: Snapshot): (q: QuickStats)
    ensures q.totalMentions == s.metrics.totalMentions && q.avgEngagement == s.metrics.engagementScore
    ensures s.metrics.totalMentions != 0 ==>
      q.positiveRate.Finite? && q.negativeRate.Finite?
      && q.positiveRate.value * (s.metrics.totalMentions as real) == (s.metrics.positiveMentions as real) * 100.0
      && q.negativeRate.value * (s.metrics.totalMentions as real) == (s.metrics.negativeMentions as real) * 100.0
    ensures s.metrics.totalMentions == 0 ==> q.positiveRate == NotFinite && q.negativeRate == NotFinite
    ensures q.topSource == SourceName(TopBreakdownSource(s.sourceBreakdown))
    ensures q.trendingTopic == TrendingTopicOf(s.topicDistribution)
  {
    var m := s.metrics;
    QuickStats(m.totalMentions, PercentOf(m.positiveMentions, m.totalMentions),
      PercentOf(m.negativeMentions, m.totalMentions), m.engagementScore,
      SourceName(TopBreakdownSource(s.sourceBreakdown)), TrendingTopicOf(s.topicDistribution))
  }

  /** With counts that add up, the rates lie between 0 and 100 and add up to at most 100. */
  lemma StatsRatesBounded(s: Snapshot)
    requires s.metrics.totalMentions > 0
    requires 0 <= s.metrics.positiveMentions && 0 <= s.metrics.negativeMentions
    requires s.metrics.positiveMentions + s.metrics.negativeMentions <= s.metrics.totalMentions
    ensures var q := StatsOf(s);
      0.0 <= q.positiveRate.value && 0.0 <= q.negativeRate.value
      && q.positiveRate.value + q.negativeRate.value <= 100.0
  {
    var q := StatsOf(s);
    var t := s.metrics.totalMentions as real;
    var p, n := q.positiveRate.value, q.negativeRate.value;
    assert (p + n) * t == (s.metrics.positiveMentions + s.metrics.negativeMentions) as real * 100.0;
    ScaleBack(p + n, 100.0, t);
    ScaleBack(0.0, p, t);
    ScaleBack(0.0, n, t);
  }

  lemma ScaleBack(a: real, b: real, t: real)
    requires t > 0.0 && a * t <= b * t
    ensures a <= b
  {
  }

  /** A brand's dashboard record. */
  class Dashboard {
    const brandName: string
    var widgets: seq<Widget>
    var preferences: Preferences
    var quickStats: QuickStats
    var lastUpdated: int

    /** `new Dashboard({ brandName, widgets: <default layout> })` at time `now`. */
    constructor (brand: string, now: int)
      ensures brandName == brand && widgets == DefaultLayout()
      ensures preferences == DefaultPreferences && quickStats == DefaultQuickStats
      ensures lastUpdated == now
    {
      brandName := brand;
      widgets := DefaultLayout();
      preferences := DefaultPreferences;
      quickStats := DefaultQuickStats;
      lastUpdated := now;
    }

    /** `updateQuickStats()` against the analytics collection at time `now`:
        nothing changes when the brand has no snapshot; otherwise the quick
        statistics become those of the newest snapshot and the record is
        stamped with `now`. */
    method UpdateQuickStats(analytics: seq<Snapshot>, now: int)
      modifies this
      ensures widgets == old(widgets) && preferences == old(preferences)
      ensures NewestFor(analytics, brandName).None? ==>
        quickStats == old(quickStats) && lastUpdated == old(lastUpdated)
      ensures NewestFor(analytics, brandName).Some? ==>
        quickStats == StatsOf(NewestFor(analytics, brandName).value) && lastUpdated == now
    {
      var recent := NewestFor(analytics, brandName);
      if recent.Some? {
        quickStats := StatsOf(recent.value);
        lastUpdated := now;
      }
    }
  }

  /** The dashboards collection, keyed by brand (`brandName` is unique). */
  class DashboardStore {
    var dashboards: map<string, Dashboard>

    constructor ()
      ensures dashboards == map[]
    {
      dashboards := map[];
    }

    /** Every record is filed under its own brand. */
    predicate Valid()
      reads this
    {
      forall b :: b in dashboards ==> dashboards[b].brandName == b
    }

    /** `Dashboard.getOrCreate(brandName)`: the stored record when there is
        one, otherwise a new record with the default layout, which is stored. */
    method GetOrCreate(brand: string, now: int) returns (d: Dashboard)
      requires Valid()
      modifies this
      ensures Valid()
      ensures brand in dashboards && dashboards[brand] == d && d.brandName == brand
      ensures brand in old(dashboards) ==> d == old(dashboards[brand]) && dashboards == old(dashboards)
      ensures brand !in old(dashboards) ==>
        fresh(d) && dashboards == old(dashboards)[brand := d]
        && d.widgets == DefaultLayout() && d.preferences == DefaultPreferences
        && d.quickStats == DefaultQuickStats && d.lastUpdated == now
    {
      if brand in dashboards {
        d := dashboards[brand];
      } else {
        d := new Dashboard(brand, now);
        dashboards := dashboards[brand := d];
      }
    }
  }

  /** A second get-or-create for a brand returns the record the first one
      returned, and stores nothing more. */
  method GetOrCreateTwice(store: DashboardStore, brand: string, now: int, later: int)
      returns (first: Dashboard, second: Dashboard)
    requires store.Valid()
    modifies store
    ensures first == second && store.Valid()
    ensures brand !in old(store.dashboards) ==> store.dashboards == old(store.dashboards)[brand := first]
    ensures brand in old(store.dashboards) ==> store.dashboards == old(store.dashboards)
  {
    first := store.GetOrCreate(brand, now);
    second := store.GetOrCreate(brand, later);
  }
}
