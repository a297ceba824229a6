/** `generateInsights` of backend/routes/dashboard.js: a small rule engine that
    pushes at most one sentiment insight, possibly an engagement insight, and
    always the top platform, or only a "no data" notice. */
module InsightGenerator {
  import opened Seqs
  import opened Counting
  import opened Numbers
  import opened MentionSchema

  datatype InsightKind = Info | PositiveNews | Warning

  /** The message templates, with the numbers they interpolate (already
      passed through `toFixed(1)`). */
  datatype InsightMessage =
    | StartMonitoring
    | PositiveShare(percent: real)
    | NegativeShare(percent: real)
    | HighEngagementAverage(average: real)
    | MostMentionsFrom(source: Source)

  /** The five insight titles. */
  datatype Title = NoDataAvailable | ExcellentSentiment | NegativeSentimentAlert | HighEngagement | TopPlatformTitle

  function TitleText(t: Title): string {
    match t
    case NoDataAvailable => "No Data Available"
    case ExcellentSentiment => "Excellent Sentiment"
    case NegativeSentimentAlert => "Negative Sentiment Alert"
    case HighEngagement => "High Engagement"
    case TopPlatformTitle => "Top Platform"
  }

  datatype Insight = Insight(kind: InsightKind, title: Title, message: InsightMessage)

  const NoDataInsight := Insight(Info, NoDataAvailable, StartMonitoring)

  /** `count / total`. */
  function Share(count: int, total: int): real
    requires total > 0
  {
    (count as real) / (total as real)
  }

  /** The mean of likes + shares + comments per mention. */
  function AverageEngagement(ms: seq<Mention>): real
    requires |ms| > 0
  {
    (TotalInteractions(ms) as real) / (|ms| as real)
  }

  /** `Object.entries(sourceCounts).reduce((a, b) => a[1] > b[1] ? a : b)[0]`. */
  function TopPlatform(ms: seq<Mention>): Source
    requires |ms| > 0
  {
    MostCounted(Sources(ms))
  }

  /** The sentiment rule: positive above 70%, otherwise negative above 30%. */
  function SentimentInsight(ms: seq<Mention>): (r: seq<Insight>)
    requires |ms| > 0
  {
    var pos := Share(Count(Sentiments(ms), Positive), |ms|);
    var neg := Share(Count(Sentiments(ms), Negative), |ms|);
    if pos > 0.7 then [Insight(PositiveNews, ExcellentSentiment, PositiveShare(RoundTo(pos * 100.0, 1)))]
    else if neg > 0.3 then [Insight(Warning, NegativeSentimentAlert, NegativeShare(RoundTo(neg * 100.0, 1)))]
    else []
  }

  /** The engagement rule: more than 50 interactions per mention on average. */
  function EngagementInsight(ms: seq<Mention>): (r: seq<Insight>)
    requires |ms| > 0
  {
    var avg := AverageEngagement(ms);
    if avg > 50.0 then [Insight(PositiveNews, HighEngagement, HighEngagementAverage(RoundTo(avg, 1)))] else []
  }

  function TopPlatformInsight(ms: seq<Mention>): Insight
    requires |ms| > 0
  {
    Insight(Info, TopPlatformTitle, MostMentionsFrom(TopPlatform(ms)))
  }

  predicate Has(r: seq<Insight>, title: Title) {
    exists i :: 0 <= i < |r| && r[i].title == title
  }

  /** The insights for a list of mentions. */
  function Insights(ms: seq<Mention>): seq<Insight> {
    if |ms| == 0 then [NoDataInsight]
    else SentimentInsight(ms) + EngagementInsight(ms) + [TopPlatformInsight(ms)]
  }

  /** Without mentions only the notice; otherwise one to three insights ending
      with the top platform, where the positive insight fires exactly above 70%
      positive, the warning exactly when it does not and more than 30% are
      negative, and the engagement insight exactly above 50 interactions per
      mention. */
  lemma InsightRules(ms: seq<Mention>)
    ensures |ms| == 0 ==> Insights(ms) == [NoDataInsight]
    ensures |ms| > 0 ==> 1 <= |Insights(ms)| <= 3
    ensures |ms| > 0 ==> Insights(ms)[|Insights(ms)| - 1] == Insight(Info, TopPlatformTitle, MostMentionsFrom(TopPlatform(ms)))
    ensures |ms| > 0 ==>
      (Has(Insights(ms), ExcellentSentiment) <==> Share(Count(Sentiments(ms), Positive), |ms|) > 0.7)
    ensures |ms| > 0 ==>
      (Has(Insights(ms), NegativeSentimentAlert) <==>
        !(Share(Count(Sentiments(ms), Positive), |ms|) > 0.7) && Share(Count(Sentiments(ms), Negative), |ms|) > 0.3)
    ensures |ms| > 0 ==> (Has(Insights(ms), HighEngagement) <==> AverageEngagement(ms) > 50.0)
    ensures !(Has(Insights(ms), ExcellentSentiment) && Has(Insights(ms), NegativeSentimentAlert))
    ensures |ms| > 0 ==> !Has(Insights(ms), NoDataAvailable)
  {
    if |ms| > 0 {
      var s, e, t := SentimentInsight(ms), EngagementInsight(ms), [TopPlatformInsight(ms)];
      SentimentInsightTitles(ms);
      EngagementInsightTitles(ms);
      assert Insights(ms) == (s + e) + t;
      forall title ensures Has(Insights(ms), title) <==> Has(s, title) || Has(e, title) || title == TopPlatformTitle {
        HasConcat(s + e, t, title);
        HasConcat(s, e, title);
        HasSingle(TopPlatformInsight(ms), title);
      }
    }
  }

  /** Each insight carries the kind and the figure of its rule: the positive
      news gives the positive share in percent, the warning the negative
      share, the engagement insight the mean interactions, each to one
      decimal, and the top platform its source. */
  lemma InsightContents(ms: seq<Mention>)
    ensures |ms| > 0 ==> forall i :: 0 <= i < |Insights(ms)| ==> PushedBy(ms, Insights(ms)[i])
  {
    if |ms| > 0 {
      var s, e, t := SentimentInsight(ms), EngagementInsight(ms), [TopPlatformInsight(ms)];
      var r := Insights(ms);
      assert r == (s + e) + t;
      forall i | 0 <= i < |r| ensures PushedBy(ms, r[i]) {
        if i < |s| {
          assert r[i] == s[i];
        } else if i < |s| + |e| {
          assert r[i] == e[i - |s|];
        }
        PushedByRule(ms, r[i]);
      }
    }
  }

  /** The insight `x` is the one its title's rule pushes for `ms`. */
  predicate PushedBy(ms: seq<Mention>, x: Insight)
    requires |ms| > 0
  {
    var pos, neg := Share(Count(Sentiments(ms), Positive), |ms|), Share(Count(Sentiments(ms), Negative), |ms|);
    (x.title == ExcellentSentiment ==> x == Insight(PositiveNews, ExcellentSentiment, PositiveShare(RoundTo(pos * 100.0, 1))))
    && (x.title == NegativeSentimentAlert ==> x == Insight(Warning, NegativeSentimentAlert, NegativeShare(RoundTo(neg * 100.0, 1))))
    && (x.title == HighEngagement ==>
          x == Insight(PositiveNews, HighEngagement, HighEngagementAverage(RoundTo(AverageEngagement(ms), 1))))
    && (x.title == TopPlatformTitle ==> x == Insight(Info, TopPlatformTitle, MostMentionsFrom(TopPlatform(ms))))
    && x.title != NoDataAvailable
  }

  /** What the three rules push satisfies `PushedBy`. */
  lemma PushedByRule(ms: seq<Mention>, x: Insight)
    requires |ms| > 0
    requires x in SentimentInsight(ms) || x in EngagementInsight(ms) || x == TopPlatformInsight(ms)
    ensures PushedBy(ms, x)
  {
  }

  /** Where each kind of insight is pushed: the sentiment rule first, then
      the engagement rule, then the top platform. */
  function TitleRank(t: Title): nat {
    match t
    case NoDataAvailable => 0
    case ExcellentSentiment => 1
    case NegativeSentimentAlert => 1
    case HighEngagement => 2
    case TopPlatformTitle => 3
  }

  /** The insights come in the order the rules push them: a sentiment insight
      before the engagement insight, both before the top platform, and no
      kind twice. */
  lemma InsightOrder(ms: seq<Mention>)
    ensures var r := Insights(ms);
      forall i, j :: 0 <= i < j < |r| ==> TitleRank(r[i].title) < TitleRank(r[j].title)
  {
    if |ms| > 0 {
      var s, e := SentimentInsight(ms), EngagementInsight(ms);
      var r := Insights(ms);
      assert r == s + e + [TopPlatformInsight(ms)];
      assert forall i :: 0 <= i < |s| ==> TitleRank(r[i].title) == 1;
      assert forall i :: |s| <= i < |s| + |e| ==> TitleRank(r[i].title) == 2;
      assert TitleRank(r[|r| - 1].title) == 3;
    }
  }

  lemma HasSingle(x: Insight, title: Title)
    ensures Has([x], title) <==> x.title == title
  {
    if x.title == title {
      assert [x][0].title == title;
    }
  }

  lemma HasConcat(a: seq<Insight>, b: seq<Insight>, title: Title)
    ensures Has(a + b, title) <==> Has(a, title) || Has(b, title)
  {
    if Has(a + b, title) {
      var i :| 0 <= i < |a + b| && (a + b)[i].title == title;
      if i >= |a| {
        assert b[i - |a|].title == title;
      }
    }
    if Has(b, title) {
      var i :| 0 <= i < |b| && b[i].title == title;
      assert (a + b)[|a| + i].title == title;
    }
    if Has(a, title) {
      var i :| 0 <= i < |a| && a[i].title == title;
      assert (a + b)[i].title == title;
    }
  }

  lemma SentimentInsightTitles(ms: seq<Mention>)
    requires |ms| > 0
    ensures |SentimentInsight(ms)| <= 1
    ensures Has(SentimentInsight(ms), ExcellentSentiment) <==> Share(Count(Sentiments(ms), Positive), |ms|) > 0.7
    ensures Has(SentimentInsight(ms), NegativeSentimentAlert) <==>
      !(Share(Count(Sentiments(ms), Positive), |ms|) > 0.7) && Share(Count(Sentiments(ms), Negative), |ms|) > 0.3
    ensures !Has(SentimentInsight(ms), HighEngagement) && !Has(SentimentInsight(ms), NoDataAvailable)
  {
    var r := SentimentInsight(ms);
    if |r| == 1 {
      assert forall t :: Has(r, t) <==> r[0].title == t;
    }
  }

  lemma EngagementInsightTitles(ms: seq<Mention>)
    requires |ms| > 0
    ensures |EngagementInsight(ms)| <= 1
    ensures Has(EngagementInsight(ms), HighEngagement) <==> AverageEngagement(ms) > 50.0
    ensures !Has(EngagementInsight(ms), ExcellentSentiment) && !Has(EngagementInsight(ms), NegativeSentimentAlert)
    ensures !Has(EngagementInsight(ms), NoDataAvailable)
  {
    var r := EngagementInsight(ms);
    if |r| == 1 {
      assert forall t :: Has(r, t) <==> r[0].title == t;
    }
  }

  /** The imperative rule engine: successive pushes and an early return. The
      source counts come from the counter reduce. */
  method GenerateInsights(ms: seq<Mention>) returns (insights: seq<Insight>)
    ensures insights == Insights(ms)
  {
    insights := [];
    if |ms| == 0 {
      insights := insights + [NoDataInsight];
      return;
    }
    var positiveCount := Count(Sentiments(ms), Positive);
    var negativeCount := Count(Sentiments(ms), Negative);
    var total := |ms|;
    if Share(positiveCount, total) > 0.7 {
      insights := insights + [Insight(PositiveNews, ExcellentSentiment,
        PositiveShare(RoundTo(Share(positiveCount, total) * 100.0, 1)))];
    } else if Share(negativeCount, total) > 0.3 {
      insights := insights + [Insight(Warning, NegativeSentimentAlert,
        NegativeShare(RoundTo(Share(negativeCount, total) * 100.0, 1)))];
    }
    assert insights == SentimentInsight(ms);
    var avgEngagement := (TotalInteractions(ms) as real) / (total as real);
    if avgEngagement > 50.0 {
      insights := insights + [Insight(PositiveNews, HighEngagement, HighEngagementAverage(RoundTo(avgEngagement, 1)))];
    }
    assert insights == SentimentInsight(ms) + EngagementInsight(ms);
    var sourceCounts := CountKeys(Sources(ms));
    var first := TallyHas(Sources(ms), Sources(ms)[0]);
    var topSource := sourceCounts[LastMaxIndex(Counts(sourceCounts))].key;
    insights := insights + [Insight(Info, TopPlatformTitle, MostMentionsFrom(topSource))];
  }

  /** The top platform occurs among the mentions and no source occurs more often. */
  lemma TopPlatformIsMostFrequent(ms: seq<Mention>)
    requires |ms| > 0
    ensures TopPlatform(ms) in Sources(ms)
    ensures forall s :: Count(Sources(ms), s) <= Count(Sources(ms), TopPlatform(ms))
  {
    forall s ensures Count(Sources(ms), s) <= Count(Sources(ms), TopPlatform(ms)) {
      MostCountedIsMax(Sources(ms), s);
    }
  }

  /** Of sources mentioned equally often, the one first seen last is reported. */
  lemma TopPlatformTieGoesToLater(ms: seq<Mention>, s: Source)
    requires |ms| > 0 && s in Sources(ms)
    requires Count(Sources(ms), s) == Count(Sources(ms), TopPlatform(ms))
    ensures TopPlatform(ms) in Sources(ms)
    ensures IndexOf(Sources(ms), s) <= IndexOf(Sources(ms), TopPlatform(ms))
  {
    MostCountedTie(Sources(ms), s);
  }

  /** Eight positive mentions out of ten give the positive insight and no warning. */
  lemma EightOfTenPositive(ms: seq<Mention>)
    requires |ms| == 10 && Count(Sentiments(ms), Positive) == 8
    ensures Has(Insights(ms), ExcellentSentiment)
    ensures !Has(Insights(ms), NegativeSentimentAlert)
  {
    InsightRules(ms);
    assert Share(8, 10) == 0.8;
  }
}
