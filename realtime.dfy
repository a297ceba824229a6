/** The live aggregation of backend/routes/analytics.js (`calculateRealTimeAnalytics`):
    what the overview reports for a brand when no stored snapshot exists. */
module RealTime {
  import opened Wrappers
  import opened Seqs
  import opened Counting
  import opened Sorting
  import opened MentionSchema
  import opened AnalyticsModel
  import opened TimeWindows

  /** `(sum of likes, shares and comments) / totalMentions`, or 0 without mentions. */
  function EngagementScore(ms: seq<Mention>): (r: real)
    ensures |ms| == 0 ==> r == 0.0
    ensures |ms| > 0 ==> r * (|ms| as real) == TotalInteractions(ms) as real
    ensures (forall i :: 0 <= i < |ms| ==> NonNegativeEngagement(ms[i])) ==> r >= 0.0
  {
    if |ms| > 0 then
      assert (forall i :: 0 <= i < |ms| ==> NonNegativeEngagement(ms[i])) ==> TotalInteractions(ms) >= 0 by {
        if forall i :: 0 <= i < |ms| ==> NonNegativeEngagement(ms[i]) {
          TotalInteractionsNonNegative(ms);
        }
      }
      (TotalInteractions(ms) as real) / (|ms| as real)
    else 0.0
  }

  /** `totalMentions > 0 ? (positiveMentions - negativeMentions) / totalMentions : 0`. */
  function SentimentScore(pos: nat, neg: nat, total: nat): (r: real)
    requires pos + neg <= total
    ensures total == 0 ==> r == 0.0
    ensures total > 0 ==> r * (total as real) == (pos - neg) as real
    ensures -1.0 <= r <= 1.0
  {
    if total > 0 then ((pos - neg) as real) / (total as real)
    else 0.0
  }

  /** The metrics block of the live result. */
  function LiveMetrics(ms: seq<Mention>): (m: Metrics)
    ensures m.totalMentions == |ms|
    ensures m.positiveMentions == Count(Sentiments(ms), Positive)
    ensures m.negativeMentions == Count(Sentiments(ms), Negative)
    ensures m.neutralMentions == Count(Sentiments(ms), Neutral)
    ensures m.positiveMentions + m.negativeMentions + m.neutralMentions == m.totalMentions
    ensures m.sentimentScore == SentimentScore(m.positiveMentions, m.negativeMentions, |ms|)
    ensures -1.0 <= m.sentimentScore <= 1.0
    ensures m.engagementScore == EngagementScore(ms)
    ensures m.reach == 100 * |ms|
  {
    var total := |ms|;
    var pos := Count(Sentiments(ms), Positive);
    var neg := Count(Sentiments(ms), Negative);
    var neu := Count(Sentiments(ms), Neutral);
    assert pos + neg + neu == total by { SentimentsPartition(Sentiments(ms)); }
    Metrics(total, pos, neg, neu, SentimentScore(pos, neg, total), EngagementScore(ms), total * 100)
  }

  // ---------------------------------------------------------------------------
  // The topic table: `acc.find(t => t.topic === topic)`, then increment or push.

  /** `existing.sentiment[mention.sentiment]++`. */
  function CreditSplit(split: SentimentSplit, s: Sentiment): SentimentSplit {
    match s
    case Positive => split.(positive := split.positive + 1)
    case Negative => split.(negative := split.negative + 1)
    case Neutral => split.(neutral := split.neutral + 1)
  }

  function Credit(e: TopicEntry, s: Sentiment): TopicEntry {
    e.(count := e.count + 1, sentiment := CreditSplit(e.sentiment, s))
  }

  /** The object pushed for a topic not seen before. */
  function FirstSeen(topic: string, s: Sentiment): TopicEntry {
    TopicEntry(topic, 1, SentimentSplit(
      if s == Positive then 1 else 0,
      if s == Negative then 1 else 0,
      if s == Neutral then 1 else 0))
  }

  /** One `forEach` step: the first entry for the topic is credited, or a new one is pushed. */
  function Upsert(t: seq<TopicEntry>, o: (string, Sentiment)): seq<TopicEntry> {
    if t == [] then [FirstSeen(o.0, o.1)]
    else if t[0].topic == o.0 then [Credit(t[0], o.1)] + t[1..]
    else [t[0]] + Upsert(t[1..], o)
  }

  /** The accumulated array after every (topic, sentiment) occurrence, before sorting. */
  function TopicTable(occ: seq<(string, Sentiment)>): seq<TopicEntry> {
    if occ == [] then [] else Upsert(TopicTable(occ[..|occ| - 1]), occ[|occ| - 1])
  }

  /** `acc.find(t => t.topic === x)`. */
  function Find(t: seq<TopicEntry>, x: string): Option<TopicEntry> {
    if t == [] then None else if t[0].topic == x then Some(t[0]) else Find(t[1..], x)
  }

  /** The (topic, count) view of the table, as the generic counter sees it. */
  function AsTally(t: seq<TopicEntry>): (r: seq<Entry<string>>)
    ensures |r| == |t|
    ensures forall i :: 0 <= i < |t| ==> r[i] == Entry(t[i].topic, t[i].count)
  {
    if t == [] then [] else [Entry(t[0].topic, t[0].count)] + AsTally(t[1..])
  }

  function TopicsOf(t: seq<TopicEntry>): (r: seq<string>)
    ensures |r| == |t| && forall i :: 0 <= i < |t| ==> r[i] == t[i].topic
  {
    Keys(AsTally(t))
  }

  predicate DistinctTopics(t: seq<TopicEntry>) {
    Distinct(TopicsOf(t))
  }

  /** What the entry for topic `x` holds after the occurrences `occ`: one count
      per occurrence and one per occurrence with each sentiment. */
  function Expected(occ: seq<(string, Sentiment)>, x: string): TopicEntry {
    TopicEntry(x, Count(Firsts(occ), x),
      SentimentSplit(Count(occ, (x, Positive)), Count(occ, (x, Negative)), Count(occ, (x, Neutral))))
  }

  lemma {:induction false} UpsertAsTally(t: seq<TopicEntry>, o: (string, Sentiment))
    ensures AsTally(Upsert(t, o)) == Bump(AsTally(t), o.0)
  {
    if t != [] && t[0].topic != o.0 {
      UpsertAsTally(t[1..], o);
      assert AsTally(t)[1..] == AsTally(t[1..]);
    } else if t != [] {
      assert AsTally(t)[1..] == AsTally(t[1..]);
      assert Upsert(t, o)[1..] == t[1..];
    }
  }

  /** Projected onto (topic, count), the topic table is the counter of the topic tags. */
  lemma {:induction false} TopicTableAsTally(occ: seq<(string, Sentiment)>)
    ensures AsTally(TopicTable(occ)) == Tally(Firsts(occ))
  {
    if occ != [] {
      var p := occ[..|occ| - 1];
      TopicTableAsTally(p);
      UpsertAsTally(TopicTable(p), occ[|occ| - 1]);
      assert Firsts(occ)[..|occ| - 1] == Firsts(p);
    }
  }

  lemma {:induction false} UpsertFind(t: seq<TopicEntry>, o: (string, Sentiment), x: string)
    ensures Find(Upsert(t, o), x) ==
      if x != o.0 then Find(t, x)
      else if Find(t, x).None? then Some(FirstSeen(o.0, o.1))
      else Some(Credit(Find(t, x).value, o.1))
  {
    if t != [] && t[0].topic != o.0 {
      UpsertFind(t[1..], o, x);
    }
  }

  /** The occurrences of a topic are split among the three sentiments. */
  lemma {:induction false} SplitAddsUp(occ: seq<(string, Sentiment)>, x: string)
    ensures Count(Firsts(occ), x) == Count(occ, (x, Positive)) + Count(occ, (x, Negative)) + Count(occ, (x, Neutral))
  {
    if occ != [] {
      var p := occ[..|occ| - 1];
      var o := occ[|occ| - 1];
      SplitAddsUp(p, x);
      assert Firsts(occ)[..|occ| - 1] == Firsts(p);
      assert Count(Firsts(occ), x) == Count(Firsts(p), x) + (if o.0 == x then 1 else 0);
      assert Count(occ, (x, Positive)) == Count(p, (x, Positive)) + (if o == (x, Positive) then 1 else 0);
      assert Count(occ, (x, Negative)) == Count(p, (x, Negative)) + (if o == (x, Negative) then 1 else 0);
      assert Count(occ, (x, Neutral)) == Count(p, (x, Neutral)) + (if o == (x, Neutral) then 1 else 0);
      match o.1 {
        case Positive => assert o == (o.0, Positive);
        case Negative => assert o == (o.0, Negative);
        case Neutral => assert o == (o.0, Neutral);
      }
    }
  }

  /** The entry for each topic, after all occurrences: absent for a topic never
      seen, and otherwise its occurrence count and per-sentiment counts. */
  lemma {:induction false} TopicTableFind(occ: seq<(string, Sentiment)>, x: string)
    ensures Find(TopicTable(occ), x) == if x in Firsts(occ) then Some(Expected(occ, x)) else None
  {
    if occ != [] {
      var p, o := occ[..|occ| - 1], occ[|occ| - 1];
      TopicTableFind(p, x);
      UpsertFind(TopicTable(p), o, x);
      assert occ == p + [o];
      assert Firsts(occ) == Firsts(p) + [o.0];
      ExpectedStep(p, o, x);
      if x == o.0 && x !in Firsts(p) {
        CountPositive(Firsts(p), x);
        SplitAddsUp(p, x);
        assert Expected(p, x).sentiment == SentimentSplit(0, 0, 0);
      }
    }
  }

  /** One more occurrence credits the expected entry of its own topic only. */
  lemma ExpectedStep(p: seq<(string, Sentiment)>, o: (string, Sentiment), x: string)
    ensures Expected(p + [o], x) == if x != o.0 then Expected(p, x) else Credit(Expected(p, x), o.1)
  {
    var occ := p + [o];
    assert occ[..|occ| - 1] == p;
    assert Firsts(occ)[..|occ| - 1] == Firsts(p);
    CountAppend(Firsts(p), [o.0], x);
    CountAppend(p, [o], (x, Positive));
    CountAppend(p, [o], (x, Negative));
    CountAppend(p, [o], (x, Neutral));
    match o.1 {
      case Positive => assert o == (o.0, Positive);
      case Negative => assert o == (o.0, Negative);
      case Neutral => assert o == (o.0, Neutral);
    }
  }

  lemma DistinctTopicsFind(t: seq<TopicEntry>, i: nat)
    requires DistinctTopics(t) && i < |t|
    ensures Find(t, t[i].topic) == Some(t[i])
  {
    if i > 0 {
      assert TopicsOf(t)[0] != TopicsOf(t)[i];
      assert TopicsOf(t[1..]) == TopicsOf(t)[1..];
      DistinctTopicsFind(t[1..], i - 1);
    }
  }

  /** The facts about the unsorted table the rest of the module builds on. */
  lemma TopicTableFacts(occ: seq<(string, Sentiment)>)
    ensures TopicsOf(TopicTable(occ)) == Dedup(Firsts(occ))
    ensures DistinctTopics(TopicTable(occ))
    ensures forall i :: 0 <= i < |TopicTable(occ)| ==>
      TopicTable(occ)[i].topic in Firsts(occ) && TopicTable(occ)[i] == Expected(occ, TopicTable(occ)[i].topic)
  {
    var t := TopicTable(occ);
    TopicTableAsTally(occ);
    TallyCorrect(Firsts(occ));
    forall i | 0 <= i < |t| ensures t[i].topic in Firsts(occ) && t[i] == Expected(occ, t[i].topic) {
      assert TopicsOf(t)[i] == Dedup(Firsts(occ))[i];
      DistinctTopicsFind(t, i);
      TopicTableFind(occ, t[i].topic);
    }
  }

  /** Entries with distinct topics are distinct entries. */
  lemma DistinctTopicsAreDistinct(t: seq<TopicEntry>)
    requires DistinctTopics(t)
    ensures Distinct(t)
  {
    forall i, j | 0 <= i < j < |t| ensures t[i] != t[j] {
      assert TopicsOf(t)[i] != TopicsOf(t)[j];
    }
  }

  /** The imperative reduce: for each mention and each of its topics, a linear
      search of the array, then an increment in place or a push. */
  method BuildTopicTable(ms: seq<Mention>) returns (table: seq<TopicEntry>)
    ensures table == TopicTable(TopicMentions(ms))
  {
    table := [];
    var i := 0;
    while i < |ms|
      invariant 0 <= i <= |ms|
      invariant table == TopicTable(TopicMentions(ms[..i]))
    {
      var m := ms[i];
      var j := 0;
      assert m.topics[..0] == [];
      assert TopicMentions(ms[..i]) + Tag(m.topics[..0], m.sentiment) == TopicMentions(ms[..i]);
      while j < |m.topics|
        invariant 0 <= j <= |m.topics|
        invariant table == TopicTable(TopicMentions(ms[..i]) + Tag(m.topics[..j], m.sentiment))
      {
        var topic := m.topics[j];
        ghost var before := TopicMentions(ms[..i]) + Tag(m.topics[..j], m.sentiment);
        table := Record(table, topic, m.sentiment);
        assert m.topics[..j + 1][..j] == m.topics[..j];
        assert before + [(topic, m.sentiment)]
            == TopicMentions(ms[..i]) + Tag(m.topics[..j + 1], m.sentiment);
        assert (before + [(topic, m.sentiment)])[..|before|] == before;
        j := j + 1;
      }
      assert m.topics[..|m.topics|] == m.topics;
      assert ms[..i + 1][..i] == ms[..i];
      i := i + 1;
    }
    assert ms[..|ms|] == ms;
  }

  /** One topic occurrence: a linear search of the table, then an increment
      of the entry found or a push of a new one. */
  method Record(table: seq<TopicEntry>, topic: string, s: Sentiment) returns (r: seq<TopicEntry>)
    ensures r == Upsert(table, (topic, s))
  {
    var k := 0;
    while k < |table| && table[k].topic != topic
      invariant 0 <= k <= |table|
      invariant forall q :: 0 <= q < k ==> table[q].topic != topic
    {
      k := k + 1;
    }
    UpsertAt(table, (topic, s), k);
    if k < |table| {
      r := table[k := Credit(table[k], s)];
    } else {
      r := table + [FirstSeen(topic, s)];
    }
  }

  /** Where the search of the imperative loop stops, Upsert credits or pushes. */
  lemma {:induction false} UpsertAt(t: seq<TopicEntry>, o: (string, Sentiment), k: nat)
    requires k <= |t|
    requires forall q :: 0 <= q < k ==> t[q].topic != o.0
    requires k < |t| ==> t[k].topic == o.0
    ensures k < |t| ==> Upsert(t, o) == t[k := Credit(t[k], o.1)]
    ensures k == |t| ==> Upsert(t, o) == t + [FirstSeen(o.0, o.1)]
  {
    if t != [] && k > 0 {
      UpsertAt(t[1..], o, k - 1);
      if k < |t| {
        assert t[k := Credit(t[k], o.1)] == [t[0]] + t[1..][k - 1 := Credit(t[k], o.1)];
      } else {
        assert t + [FirstSeen(o.0, o.1)] == [t[0]] + (t[1..] + [FirstSeen(o.0, o.1)]);
      }
    }
  }

  // ---------------------------------------------------------------------------
  // Sorting and truncation.

  function EntryCount(e: TopicEntry): int {
    e.count
  }

  /** `.sort((a, b) => b.count - a.count).slice(0, 10)` over the topic table. */
  function TopicDistribution(ms: seq<Mention>): seq<TopicEntry> {
    Take(SortDesc(TopicTable(TopicMentions(ms)), EntryCount), 10)
  }

  /** Reordering a table whose topics are distinct keeps them distinct. */
  lemma PermutedTopicsDistinct(s: seq<TopicEntry>, t: seq<TopicEntry>)
    requires multiset(s) == multiset(t) && DistinctTopics(t)
    ensures Distinct(s) && DistinctTopics(s)
  {
    DistinctTopicsAreDistinct(t);
    DistinctPermutation(s, t);
    forall i, j | 0 <= i < j < |s| ensures TopicsOf(s)[i] != TopicsOf(s)[j] {
      assert s[i] in multiset(t) && s[j] in multiset(t);
      var p :| 0 <= p < |t| && t[p] == s[i];
      var q :| 0 <= q < |t| && t[q] == s[j];
      assert TopicsOf(t)[p] == s[i].topic && TopicsOf(t)[q] == s[j].topic;
    }
  }

  /** An entry that is not among the first `n` of the sorted table has no larger
      count than any of those. */
  lemma LeftOutNotLarger(t: seq<TopicEntry>, s: seq<TopicEntry>, n: nat, p: nat)
    requires multiset(s) == multiset(t) && SortedDesc(s, EntryCount)
    requires n <= |s| && p < |t| && t[p].topic !in TopicsOf(s[..n])
    ensures forall i :: 0 <= i < n ==> t[p].count <= s[i].count
  {
    assert t[p] in multiset(s);
    var q :| 0 <= q < |s| && s[q] == t[p];
  }

  /** Among entries of the sorted table with equal counts, the one earlier in
      the sorted table is earlier in the unsorted one. */
  lemma TiesInTableOrder(t: seq<TopicEntry>, i: nat, j: nat)
    requires DistinctTopics(t)
    requires i < j < |t|
    requires SortDesc(t, EntryCount)[i].count == SortDesc(t, EntryCount)[j].count
    ensures SortDesc(t, EntryCount)[i] in t && SortDesc(t, EntryCount)[j] in t
    ensures IndexOf(t, SortDesc(t, EntryCount)[i]) < IndexOf(t, SortDesc(t, EntryCount)[j])
  {
    var s := SortDesc(t, EntryCount);
    var c := s[i].count;
    DistinctTopicsAreDistinct(t);
    PermutedTopicsDistinct(s, t);
    IndexOfDistinct(s, i);
    IndexOfDistinct(s, j);
    WithKeyMembers(s, EntryCount, c, s[i]);
    WithKeyMembers(s, EntryCount, c, s[j]);
    WithKeyOrder(s, EntryCount, c, s[i], s[j]);
    SortDescStable(t, EntryCount, c);
    WithKeyOrder(t, EntryCount, c, s[i], s[j]);
  }

  /** The distribution is a prefix of the sorted table. */
  lemma DistributionIsPrefix(ms: seq<Mention>)
    ensures var s := SortDesc(TopicTable(TopicMentions(ms)), EntryCount);
      |TopicDistribution(ms)| <= |s| && TopicDistribution(ms) == s[..|TopicDistribution(ms)|]
  {
    var s := SortDesc(TopicTable(TopicMentions(ms)), EntryCount);
    assert s[..|s|] == s;
  }

  /** At most ten entries, one per distinct topic while there are fewer than
      ten, in decreasing order of count, with no topic twice. */
  lemma TopicDistributionShape(ms: seq<Mention>)
    ensures var n := |Dedup(TopicTags(ms))|;
      |TopicDistribution(ms)| == if n < 10 then n else 10
    ensures SortedDesc(TopicDistribution(ms), EntryCount)
    ensures DistinctTopics(TopicDistribution(ms))
  {
    var occ := TopicMentions(ms);
    var t := TopicTable(occ);
    var s := SortDesc(t, EntryCount);
    TopicTableFacts(occ);
    assert |t| == |Dedup(TopicTags(ms))|;
    SortDescSorted(t, EntryCount);
    PermutedTopicsDistinct(s, t);
    TakeSorted(s, EntryCount, 10);
    TakeDistinctTopics(s, 10);
  }

  lemma TakeDistinctTopics(s: seq<TopicEntry>, n: nat)
    requires DistinctTopics(s)
    ensures DistinctTopics(Take(s, n))
  {
    var d := Take(s, n);
    forall i, j | 0 <= i < j < |d| ensures TopicsOf(d)[i] != TopicsOf(d)[j] {
      assert d[i] == s[i] && d[j] == s[j];
      assert TopicsOf(s)[i] != TopicsOf(s)[j];
    }
  }

  /** Each entry counts every occurrence of its topic, over all mentions and
      within one mention's topic list alike, split by the sentiment of the
      mention carrying it. */
  lemma TopicDistributionEntries(ms: seq<Mention>)
    ensures forall i :: 0 <= i < |TopicDistribution(ms)| ==>
      var e := TopicDistribution(ms)[i];
      e.topic in TopicTags(ms) && e == Expected(TopicMentions(ms), e.topic)
      && e.count == e.sentiment.positive + e.sentiment.negative + e.sentiment.neutral
  {
    var occ := TopicMentions(ms);
    var t := TopicTable(occ);
    var s := SortDesc(t, EntryCount);
    var d := TopicDistribution(ms);
    TopicTableFacts(occ);
    DistributionIsPrefix(ms);
    forall i | 0 <= i < |d|
      ensures d[i].topic in TopicTags(ms) && d[i] == Expected(occ, d[i].topic)
      ensures d[i].count == d[i].sentiment.positive + d[i].sentiment.negative + d[i].sentiment.neutral
    {
      assert d[i] == s[i] && s[i] in multiset(t);
      var p :| 0 <= p < |t| && t[p] == d[i];
      SplitAddsUp(occ, d[i].topic);
    }
  }

  /** The table entry of a topic that occurs. */
  lemma TableEntryFor(occ: seq<(string, Sentiment)>, x: string) returns (p: nat)
    requires x in Firsts(occ)
    ensures p < |TopicTable(occ)| && TopicTable(occ)[p].topic == x
    ensures TopicTable(occ)[p].count == Count(Firsts(occ), x)
  {
    var t := TopicTable(occ);
    TopicTableFacts(occ);
    var k :| 0 <= k < |Firsts(occ)| && Firsts(occ)[k] == x;
    assert Firsts(occ)[k] in Dedup(Firsts(occ));
    p :| 0 <= p < |t| && TopicsOf(t)[p] == x;
  }

  /** No topic left out of the distribution occurs more often than one kept. */
  lemma TopicDistributionKeepsTheMostMentioned(ms: seq<Mention>, x: string)
    requires x in TopicTags(ms) && x !in TopicsOf(TopicDistribution(ms))
    ensures forall i :: 0 <= i < |TopicDistribution(ms)| ==>
      Count(TopicTags(ms), x) <= TopicDistribution(ms)[i].count
  {
    var occ := TopicMentions(ms);
    var t := TopicTable(occ);
    var s := SortDesc(t, EntryCount);
    SortDescSorted(t, EntryCount);
    DistributionIsPrefix(ms);
    var p := TableEntryFor(occ, x);
    LeftOutNotLarger(t, s, |TopicDistribution(ms)|, p);
  }

  /** Topics with the same count keep the order in which they were first seen:
      the table is built in first-seen order and the sort is stable. */
  lemma TopicTiesKeepFirstSeenOrder(ms: seq<Mention>, i: nat, j: nat)
    requires i < j < |TopicDistribution(ms)|
    requires TopicDistribution(ms)[i].count == TopicDistribution(ms)[j].count
    ensures TopicDistribution(ms)[i].topic in TopicTags(ms)
    ensures TopicDistribution(ms)[j].topic in TopicTags(ms)
    ensures IndexOf(TopicTags(ms), TopicDistribution(ms)[i].topic)
          < IndexOf(TopicTags(ms), TopicDistribution(ms)[j].topic)
  {
    var occ := TopicMentions(ms);
    var tags := TopicTags(ms);
    var t := TopicTable(occ);
    var s := SortDesc(t, EntryCount);
    var d := TopicDistribution(ms);
    TopicTableFacts(occ);
    DistributionIsPrefix(ms);
    assert d[i] == s[i] && d[j] == s[j];
    TiesInTableOrder(t, i, j);
    var p, q := IndexOf(t, s[i]), IndexOf(t, s[j]);
    assert TopicsOf(t)[p] == d[i].topic && TopicsOf(t)[q] == d[j].topic;
    DedupFirstSeenOrder(tags);
  }

  // ---------------------------------------------------------------------------
  // Peak hours and trending keywords.

  /** Twenty-four slots, one per local hour, each counting the mentions of that hour. */
  function PeakHours(ms: seq<Mention>): seq<HourSlot> {
    seq(24, h requires 0 <= h < 24 => HourSlot(h, Count(Hours(ms), h)))
  }

  /** `Array.from({ length: 24 }, (_, i) => ({ hour: i, count: 0 }))`. */
  const ZeroHours: seq<HourSlot> := seq(24, h requires 0 <= h < 24 => HourSlot(h, 0))

  function SlotTotal(slots: seq<HourSlot>): int {
    if slots == [] then 0 else SlotTotal(slots[..|slots| - 1]) + slots[|slots| - 1].count
  }

  /** The occurrences in `hs` of the hours below `n`. */
  function CountBelow(hs: seq<int>, n: nat): int {
    if n == 0 then 0 else CountBelow(hs, n - 1) + Count(hs, n - 1)
  }

  lemma {:induction false} CountBelowSnoc(hs: seq<int>, x: int, n: nat)
    ensures CountBelow(hs + [x], n) == CountBelow(hs, n) + (if 0 <= x < n then 1 else 0)
  {
    if n > 0 {
      CountBelowSnoc(hs, x, n - 1);
      assert (hs + [x])[..|hs|] == hs;
    }
  }

  lemma {:induction false} CountBelowAll(hs: seq<int>, n: nat)
    requires forall i :: 0 <= i < |hs| ==> 0 <= hs[i] < n
    ensures CountBelow(hs, n) == |hs|
  {
    if hs == [] {
      CountBelowEmpty(n);
    } else {
      var p := hs[..|hs| - 1];
      CountBelowAll(p, n);
      assert hs == p + [hs[|hs| - 1]];
      CountBelowSnoc(p, hs[|hs| - 1], n);
    }
  }

  lemma {:induction false} CountBelowEmpty(n: nat)
    ensures CountBelow([], n) == 0
  {
    if n > 0 {
      CountBelowEmpty(n - 1);
    }
  }

  lemma {:induction false} SlotTotalPrefix(ms: seq<Mention>, k: nat)
    requires k <= 24
    ensures SlotTotal(PeakHours(ms)[..k]) == CountBelow(Hours(ms), k)
  {
    if k > 0 {
      SlotTotalPrefix(ms, k - 1);
      assert PeakHours(ms)[..k][..k - 1] == PeakHours(ms)[..k - 1];
    }
  }

  /** Slot `h` is hour `h` and counts the mentions of that hour; since every
      mention has exactly one hour, the counts add up to the number of mentions. */
  lemma PeakHoursShape(ms: seq<Mention>)
    ensures |PeakHours(ms)| == 24
    ensures forall h :: 0 <= h < 24 ==> PeakHours(ms)[h].hour == h
    ensures forall h :: 0 <= h < 24 ==> PeakHours(ms)[h].count == |MentionsAtHour(ms, h)|
    ensures SlotTotal(PeakHours(ms)) == |ms|
  {
    SlotTotalPrefix(ms, 24);
    assert PeakHours(ms)[..24] == PeakHours(ms);
    CountBelowAll(Hours(ms), 24);
    forall h | 0 <= h < 24 ensures Count(Hours(ms), h) == |MentionsAtHour(ms, h)| {
      HoursCount(ms, h);
    }
  }

  /** `mentions.filter(m => new Date(m.timestamp).getHours() === hour)`. */
  function MentionsAtHour(ms: seq<Mention>, h: int): (r: seq<Mention>)
    ensures forall m :: m in r <==> m in ms && m.hour == h
  {
    if ms == [] then []
    else
      assert ms == ms[..|ms| - 1] + [ms[|ms| - 1]];
      MentionsAtHour(ms[..|ms| - 1], h) + (if ms[|ms| - 1].hour == h then [ms[|ms| - 1]] else [])
  }

  lemma {:induction false} HoursCount(ms: seq<Mention>, h: int)
    ensures Count(Hours(ms), h) == |MentionsAtHour(ms, h)|
  {
    if ms != [] {
      HoursCount(ms[..|ms| - 1], h);
      assert Hours(ms)[..|ms| - 1] == Hours(ms[..|ms| - 1]);
    }
  }

  /** Without mentions the live slots coincide with the overview's fallback. */
  lemma PeakHoursWithoutMentions()
    ensures PeakHours([]) == ZeroHours
  {
    forall h | 0 <= h < 24 ensures PeakHours([])[h] == ZeroHours[h] {
      assert Count(Hours([]), h) == 0;
    }
  }

  /** `topicDistribution.slice(0, 5).map(t => ({ keyword: t.topic, count: t.count, growth: 0 }))`. */
  function TrendingKeywords(dist: seq<TopicEntry>): (r: seq<Keyword>)
    ensures |r| == (if |dist| < 5 then |dist| else 5)
    ensures forall i :: 0 <= i < |r| ==> r[i] == Keyword(dist[i].topic, dist[i].count, 0.0)
  {
    var top := Take(dist, 5);
    seq(|top|, i requires 0 <= i < |top| => Keyword(top[i].topic, top[i].count, 0.0))
  }

  // ---------------------------------------------------------------------------
  // The whole live result.

  /** The plain object `calculateRealTimeAnalytics` returns. It has no
      `calculateGrowth` and no `competitorComparison`. */
  datatype LiveSnapshot = LiveSnapshot(
    metrics: Metrics,
    sourceBreakdown: seq<Entry<Source>>,
    topicDistribution: seq<TopicEntry>,
    peakHours: seq<HourSlot>,
    trendingKeywords: seq<Keyword>)

  function LiveAnalytics(ms: seq<Mention>): LiveSnapshot {
    var dist := TopicDistribution(ms);
    LiveSnapshot(LiveMetrics(ms), Tally(Sources(ms)), dist, PeakHours(ms), TrendingKeywords(dist))
  }

  /** The source breakdown has one key per source that occurs, in order of first
      occurrence, mapped to its number of mentions, and nothing for a source
      without mentions. */
  lemma SourceBreakdownCounts(ms: seq<Mention>)
    ensures Keys(LiveAnalytics(ms).sourceBreakdown) == Dedup(Sources(ms))
    ensures forall s :: Lookup(LiveAnalytics(ms).sourceBreakdown, s) == Count(Sources(ms), s)
    ensures SumCounts(LiveAnalytics(ms).sourceBreakdown) == |ms|
  {
    TallyCorrect(Sources(ms));
  }

  /** The live keywords are the first five topics of the live distribution, each
      with growth 0. */
  lemma KeywordsFollowTopics(ms: seq<Mention>)
    ensures var a := LiveAnalytics(ms);
      |a.trendingKeywords| <= 5 && |a.trendingKeywords| <= |a.topicDistribution|
      && forall i :: 0 <= i < |a.trendingKeywords| ==>
           a.trendingKeywords[i].keyword == a.topicDistribution[i].topic
           && a.trendingKeywords[i].count == a.topicDistribution[i].count
           && a.trendingKeywords[i].growth == 0.0
  {
  }

  /** `calculateRealTimeAnalytics(brand, days)` over a mention store and a clock
      reading `now`; the two reduces run as loops. */
  method CalculateRealTimeAnalytics(store: seq<Mention>, brand: string, days: int, now: int)
    returns (snap: LiveSnapshot)
    ensures snap == LiveAnalytics(MentionsSince(store, brand, DaysAgo(now, days)))
  {
    var mentions := MentionsSince(store, brand, DaysAgo(now, days));
    var breakdown := CountKeys(Sources(mentions));
    var table := BuildTopicTable(mentions);
    var dist := Take(SortDesc(table, EntryCount), 10);
    snap := LiveSnapshot(LiveMetrics(mentions), breakdown, dist, PeakHours(mentions), TrendingKeywords(dist));
  }
}
