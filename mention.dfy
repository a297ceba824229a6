/** The mention record of backend/models/Mention.js and the projections of a
    list of mentions that the aggregation code reads. */
module MentionSchema {
  import opened Wrappers
  import opened Seqs

  /** The closed source enum of the schema. */
  datatype Source = Twitter | Facebook | News | Blog | Forum

  /** The sentiment enum; a mention saved without one is neutral. */
  datatype Sentiment = Positive | Negative | Neutral

  const DefaultSentiment: Sentiment := Neutral

  /** The stored source string, always a lower-case word. */
  function SourceName(s: Source): (n: string)
    ensures |n| > 0 && 'a' <= n[0] <= 'z'
  {
    match s
    case Twitter => "twitter"
    case Facebook => "facebook"
    case News => "news"
    case Blog => "blog"
    case Forum => "forum"
  }

  /** Distinct sources have distinct names, so grouping records by their
      stored source name groups them by source. */
  lemma SourceNameInjective(a: Source, b: Source)
    ensures SourceName(a) == SourceName(b) ==> a == b
  {
  }

  function SentimentName(s: Sentiment): string {
    match s
    case Positive => "positive"
    case Negative => "negative"
    case Neutral => "neutral"
  }

  /** Engagement counters; None is a field the record does not carry. */
  datatype Engagement = Engagement(likes: Option<int>, shares: Option<int>, comments: Option<int>)

  /** What the schema stores when the counters are not given. */
  const DefaultEngagement := Engagement(Some(0), Some(0), Some(0))

  /** Local hour of the timestamp, as `getHours()` reports it. */
  type Hour = h: int | 0 <= h < 24

  /** A mention. `timestamp` is in milliseconds; `hour` is its local hour of
      day and `day` its UTC calendar day (the `%Y-%m-%d` key), both supplied
      with the record instead of being derived from a time zone. */
  datatype Mention = Mention(
    brandName: string,
    source: Source,
    content: string,
    sentiment: Sentiment,
    sentimentScore: real,
    topics: seq<string>,
    engagement: Engagement,
    timestamp: int,
    hour: Hour,
    day: int)

  /** The sort key of `.sort({ timestamp: -1 })`, newest first. */
  function TimestampKey(m: Mention): int {
    m.timestamp
  }

  /** `x || 0`. */
  function OrZero(v: Option<int>): int {
    match v
    case Some(n) => n
    case None => 0
  }

  /** `(m.engagement?.likes || 0) + (m.engagement?.shares || 0) + (m.engagement?.comments || 0)`. */
  function Interactions(m: Mention): int {
    OrZero(m.engagement.likes) + OrZero(m.engagement.shares) + OrZero(m.engagement.comments)
  }

  predicate NonNegativeEngagement(m: Mention) {
    OrZero(m.engagement.likes) >= 0 && OrZero(m.engagement.shares) >= 0 && OrZero(m.engagement.comments) >= 0
  }

  /** Sum of Interactions over the list, the reduce of the source. */
  function TotalInteractions(ms: seq<Mention>): int {
    if ms == [] then 0 else TotalInteractions(ms[..|ms| - 1]) + Interactions(ms[|ms| - 1])
  }

  function Sentiments(ms: seq<Mention>): (r: seq<Sentiment>)
    ensures |r| == |ms| && forall i :: 0 <= i < |ms| ==> r[i] == ms[i].sentiment
  {
    if ms == [] then [] else Sentiments(ms[..|ms| - 1]) + [ms[|ms| - 1].sentiment]
  }

  function Sources(ms: seq<Mention>): (r: seq<Source>)
    ensures |r| == |ms| && forall i :: 0 <= i < |ms| ==> r[i] == ms[i].source
  {
    if ms == [] then [] else Sources(ms[..|ms| - 1]) + [ms[|ms| - 1].source]
  }

  function Hours(ms: seq<Mention>): (r: seq<int>)
    ensures |r| == |ms| && forall i :: 0 <= i < |ms| ==> r[i] == ms[i].hour
  {
    if ms == [] then [] else Hours(ms[..|ms| - 1]) + [ms[|ms| - 1].hour]
  }

  function Days(ms: seq<Mention>): (r: seq<int>)
    ensures |r| == |ms| && forall i :: 0 <= i < |ms| ==> r[i] == ms[i].day
  {
    if ms == [] then [] else Days(ms[..|ms| - 1]) + [ms[|ms| - 1].day]
  }

  /** Each topic of `ts` paired with the sentiment of the mention carrying it. */
  function Tag(ts: seq<string>, s: Sentiment): seq<(string, Sentiment)> {
    if ts == [] then [] else Tag(ts[..|ts| - 1], s) + [(ts[|ts| - 1], s)]
  }

  /** Every (topic, sentiment) occurrence, mention by mention and topic by topic:
      the iteration order of `mentions.reduce(... mention.topics?.forEach(...))`. */
  function TopicMentions(ms: seq<Mention>): seq<(string, Sentiment)> {
    if ms == [] then [] else TopicMentions(ms[..|ms| - 1]) + Tag(ms[|ms| - 1].topics, ms[|ms| - 1].sentiment)
  }

  function Firsts(occ: seq<(string, Sentiment)>): (r: seq<string>)
    ensures |r| == |occ| && forall i :: 0 <= i < |occ| ==> r[i] == occ[i].0
  {
    if occ == [] then [] else Firsts(occ[..|occ| - 1]) + [occ[|occ| - 1].0]
  }

  /** The topics of all mentions, one per occurrence (`$unwind: '$topics'`). */
  function TopicTags(ms: seq<Mention>): seq<string> {
    Firsts(TopicMentions(ms))
  }

  /** Every mention has exactly one of the three sentiments. */
  lemma {:induction false} SentimentsPartition(ss: seq<Sentiment>)
    ensures Count(ss, Positive) + Count(ss, Negative) + Count(ss, Neutral) == |ss|
  {
    if ss != [] {
      var p, x := ss[..|ss| - 1], ss[|ss| - 1];
      SentimentsPartition(p);
      assert Count(ss, Positive) == Count(p, Positive) + (if x == Positive then 1 else 0);
      assert Count(ss, Negative) == Count(p, Negative) + (if x == Negative then 1 else 0);
      assert Count(ss, Neutral) == Count(p, Neutral) + (if x == Neutral then 1 else 0);
    }
  }

  lemma {:induction false} TotalInteractionsNonNegative(ms: seq<Mention>)
    requires forall i :: 0 <= i < |ms| ==> NonNegativeEngagement(ms[i])
    ensures TotalInteractions(ms) >= 0
  {
    if ms != [] {
      TotalInteractionsNonNegative(ms[..|ms| - 1]);
    }
  }
}
