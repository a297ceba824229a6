/** The reporting windows shared by the routes: the `period` / `timeRange`
    mapping to a number of days and the "mentions of a brand since" query. */
module TimeWindows {
  import opened Wrappers
  import opened MentionSchema
  import opened Seqs

  const DayMs := 86400000

  /** The `period = '7d'` / `timeRange = '7d'` default of a missing parameter. */
  function PeriodOrDefault(period: Option<string>): string {
    match period
    case Some(p) => p
    case None => "7d"
  }

  /** `period === '7d' ? 7 : period === '30d' ? 30 : 90`. */
  function PeriodDays(period: string): (days: int)
    ensures days == 7 <==> period == "7d"
    ensures days == 30 <==> period == "30d"
    ensures days == 90 <==> period != "7d" && period != "30d"
  {
    if period == "7d" then 7 else if period == "30d" then 30 else 90
  }

  /** A missing period means a week and an unknown one (even "") means 90 days. */
  lemma PeriodDefaults()
    ensures PeriodDays(PeriodOrDefault(None)) == 7
    ensures PeriodDays("") == 90 && PeriodDays("1y") == 90
  {
  }

  /** Either way the source writes it, `setDate(getDate() - days)` or
      `Date.now() - days * 24 * 60 * 60 * 1000`, on a clock without
      daylight-saving changes. */
  function DaysAgo(now: int, days: int): (t: int)
    ensures days >= 0 ==> t <= now
  {
    now - days * DayMs
  }

  /** `Mention.find({ brandName: brand, timestamp: { $gte: since } })`, in store order:
      every stored copy of a matching mention, and nothing else. */
  function MentionsSince(store: seq<Mention>, brand: string, since: int): (r: seq<Mention>)
    ensures |r| <= |store|
    ensures forall m :: m in r <==> m in store && m.brandName == brand && m.timestamp >= since
    ensures forall m {:trigger Count(r, m)} ::
      Count(r, m) == if m.brandName == brand && m.timestamp >= since then Count(store, m) else 0
  {
    if store == [] then []
    else
      var h := if store[0].brandName == brand && store[0].timestamp >= since then [store[0]] else [];
      var rest := MentionsSince(store[1..], brand, since);
      assert store == [store[0]] + store[1..];
      assert forall m {:trigger Count(h + rest, m)} :: (Count(h + rest, m)
          == if m.brandName == brand && m.timestamp >= since then Count(store, m) else 0) by {
        FilterStepCount(store[0], store[1..], rest, (m: Mention) => m.brandName == brand && m.timestamp >= since);
      }
      h + rest
  }

  /** The query runs over a store record by record: on a concatenation it is
      the concatenation of its results, in the same order. */
  lemma {:induction false} MentionsSinceAppend(a: seq<Mention>, b: seq<Mention>, brand: string, since: int)
    ensures MentionsSince(a + b, brand, since) == MentionsSince(a, brand, since) + MentionsSince(b, brand, since)
  {
    if a == [] {
      assert a + b == b;
    } else {
      assert (a + b)[1..] == a[1..] + b;
      MentionsSinceAppend(a[1..], b, brand, since);
    }
  }

  /** A single record is kept exactly when it matches. */
  lemma MentionsSinceSingle(m: Mention, brand: string, since: int)
    ensures MentionsSince([m], brand, since) == if m.brandName == brand && m.timestamp >= since then [m] else []
  {
    assert [m][1..] == [];
  }
}
