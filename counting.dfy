/** The counter-object idiom of the source,
    `reduce((acc, x) => { acc[k(x)] = (acc[k(x)] || 0) + 1; return acc; }, {})`,
    as a list of entries in insertion order (the order `Object.entries` reports). */
module Counting {
  import opened Seqs

  datatype Entry<K> = Entry(key: K, count: int)

  function Keys<K>(t: seq<Entry<K>>): (r: seq<K>)
    ensures |r| == |t|
    ensures forall i :: 0 <= i < |t| ==> r[i] == t[i].key
  {
    if t == [] then [] else [t[0].key] + Keys(t[1..])
  }

  function Counts<K>(t: seq<Entry<K>>): (r: seq<int>)
    ensures |r| == |t|
    ensures forall i :: 0 <= i < |t| ==> r[i] == t[i].count
  {
    if t == [] then [] else [t[0].count] + Counts(t[1..])
  }

  /** `acc[k] = (acc[k] || 0) + 1`: the first entry for `k` goes up by one, or
      a new entry with count 1 is appended. */
  function Bump<K(==)>(t: seq<Entry<K>>, k: K): seq<Entry<K>> {
    if t == [] then [Entry(k, 1)]
    else if t[0].key == k then [t[0].(count := t[0].count + 1)] + t[1..]
    else [t[0]] + Bump(t[1..], k)
  }

  /** The counter object after the reduce has seen every key of `ks`. */
  function Tally<K(==)>(ks: seq<K>): seq<Entry<K>> {
    if ks == [] then [] else Bump(Tally(ks[..|ks| - 1]), ks[|ks| - 1])
  }

  /** `acc[k] || 0`. */
  function Lookup<K(==)>(t: seq<Entry<K>>, k: K): int {
    if t == [] then 0 else if t[0].key == k then t[0].count else Lookup(t[1..], k)
  }

  /** The sort key of `$sort: { count: -1 }`. */
  function CountKey<K>(e: Entry<K>): int {
    e.count
  }

  function SumCounts<K>(t: seq<Entry<K>>): int {
    if t == [] then 0 else t[0].count + SumCounts(t[1..])
  }

  lemma {:induction false} BumpKeys<K>(t: seq<Entry<K>>, k: K)
    ensures Keys(Bump(t, k)) == if k in Keys(t) then Keys(t) else Keys(t) + [k]
  {
    if t != [] {
      assert Keys(t) == [t[0].key] + Keys(t[1..]);
      if t[0].key != k {
        BumpKeys(t[1..], k);
        assert Keys(Bump(t, k)) == [t[0].key] + Keys(Bump(t[1..], k));
      } else {
        assert Keys(Bump(t, k)) == [t[0].key] + Keys(t[1..]);
      }
    }
  }

  lemma {:induction false} BumpLookup<K>(t: seq<Entry<K>>, k: K, j: K)
    ensures Lookup(Bump(t, k), j) == Lookup(t, j) + (if j == k then 1 else 0)
  {
    if t != [] && t[0].key != k {
      BumpLookup(t[1..], k, j);
    }
  }

  lemma {:induction false} BumpSum<K>(t: seq<Entry<K>>, k: K)
    ensures SumCounts(Bump(t, k)) == SumCounts(t) + 1
  {
    if t != [] && t[0].key != k {
      BumpSum(t[1..], k);
    }
  }

  /** Where the search of the imperative loop stops, Bump increments or appends. */
  lemma {:induction false} BumpAt<K>(t: seq<Entry<K>>, k: K, j: nat)
    requires j <= |t|
    requires forall q :: 0 <= q < j ==> t[q].key != k
    requires j < |t| ==> t[j].key == k
    ensures j < |t| ==> Bump(t, k) == t[j := t[j].(count := t[j].count + 1)]
    ensures j == |t| ==> Bump(t, k) == t + [Entry(k, 1)]
  {
    if t != [] && j > 0 {
      BumpAt(t[1..], k, j - 1);
      if j < |t| {
        assert t[j := t[j].(count := t[j].count + 1)]
          == [t[0]] + t[1..][j - 1 := t[j].(count := t[j].count + 1)];
      } else {
        assert t + [Entry(k, 1)] == [t[0]] + (t[1..] + [Entry(k, 1)]);
      }
    }
  }

  lemma LookupAbsent<K>(t: seq<Entry<K>>, k: K)
    requires k !in Keys(t)
    ensures Lookup(t, k) == 0
  {
    if t != [] {
      assert Keys(t) == [t[0].key] + Keys(t[1..]);
      LookupAbsent(t[1..], k);
    }
  }

  lemma {:induction false} LookupAt<K>(t: seq<Entry<K>>, i: nat)
    requires i < |t| && Distinct(Keys(t))
    ensures Lookup(t, t[i].key) == t[i].count
  {
    if i > 0 {
      assert Keys(t)[0] != Keys(t)[i];
      assert Keys(t[1..]) == Keys(t)[1..];
      LookupAt(t[1..], i - 1);
    }
  }

  /** The tally has one entry per distinct key, in order of first occurrence,
      holding that key's number of occurrences, and the counts add up to |ks|. */
  lemma {:induction false} TallyCorrect<K>(ks: seq<K>)
    ensures Keys(Tally(ks)) == Dedup(ks)
    ensures forall k :: Lookup(Tally(ks), k) == Count(ks, k)
    ensures SumCounts(Tally(ks)) == |ks|
  {
    if ks != [] {
      var p, x := ks[..|ks| - 1], ks[|ks| - 1];
      TallyCorrect(p);
      BumpKeys(Tally(p), x);
      BumpSum(Tally(p), x);
      forall k ensures Lookup(Tally(ks), k) == Count(ks, k) {
        BumpLookup(Tally(p), x, k);
      }
    }
  }

  /** Entry-wise reading of TallyCorrect. */
  lemma TallyEntries<K>(ks: seq<K>)
    ensures Distinct(Keys(Tally(ks)))
    ensures forall i :: 0 <= i < |Tally(ks)| ==>
      Tally(ks)[i].key in ks && Tally(ks)[i].count == Count(ks, Tally(ks)[i].key) > 0
    ensures forall i :: 0 <= i < |ks| ==> ks[i] in Keys(Tally(ks))
    ensures |Tally(ks)| == |Dedup(ks)|
  {
    var t := Tally(ks);
    TallyCorrect(ks);
    forall i | 0 <= i < |t|
      ensures t[i].key in ks && t[i].count == Count(ks, t[i].key) > 0
    {
      assert Keys(t)[i] == t[i].key;
      LookupAt(t, i);
      CountPositive(ks, t[i].key);
    }
  }

  /** The count in an entry of the tally is the number of occurrences of its key. */
  lemma TallyAt<K>(ks: seq<K>, j: nat)
    requires j < |Tally(ks)|
    ensures Tally(ks)[j].key in ks
    ensures Tally(ks)[j].count == Count(ks, Tally(ks)[j].key)
  {
    TallyCorrect(ks);
    assert Keys(Tally(ks))[j] == Tally(ks)[j].key;
    LookupAt(Tally(ks), j);
  }

  /** Every key that occurs has an entry. */
  lemma TallyHas<K>(ks: seq<K>, x: K) returns (j: nat)
    requires x in ks
    ensures j < |Tally(ks)| && Tally(ks)[j].key == x
  {
    TallyCorrect(ks);
    var i :| 0 <= i < |ks| && ks[i] == x;
    assert ks[i] in Dedup(ks);
    j := IndexOf(Keys(Tally(ks)), x);
  }

  /** The key with the largest tally; among equal tallies, the last entry wins
      (a strict `>` comparison over the entries in order). */
  function MostCounted<K(==)>(ks: seq<K>): (r: K)
    requires |ks| > 0
    ensures r in ks
  {
    var t := Tally(ks);
    assert |t| > 0 by {
      var first := TallyHas(ks, ks[0]);
    }
    var k := LastMaxIndex(Counts(t));
    TallyAt(ks, k);
    t[k].key
  }

  /** The entry `MostCounted` picks: no entry has a larger count, no later one an equal count. */
  lemma MostCountedAt<K>(ks: seq<K>) returns (k: nat)
    requires |ks| > 0
    ensures k < |Tally(ks)| && Tally(ks)[k].key == MostCounted(ks)
    ensures forall j :: 0 <= j < |Tally(ks)| ==> Tally(ks)[j].count <= Tally(ks)[k].count
    ensures forall j :: k < j < |Tally(ks)| ==> Tally(ks)[j].count < Tally(ks)[k].count
  {
    var t := Tally(ks);
    var first := TallyHas(ks, ks[0]);
    k := LastMaxIndex(Counts(t));
  }

  /** No key occurs more often than the most counted one. */
  lemma MostCountedIsMax<K>(ks: seq<K>, x: K)
    requires |ks| > 0
    ensures Count(ks, x) <= Count(ks, MostCounted(ks))
  {
    var k := MostCountedAt(ks);
    TallyAt(ks, k);
    if x in ks {
      var j := TallyHas(ks, x);
      TallyAt(ks, j);
    } else {
      CountPositive(ks, x);
    }
  }

  /** Of keys counted equally often, the one first seen last is the most counted. */
  lemma MostCountedTie<K>(ks: seq<K>, x: K)
    requires x in ks && Count(ks, x) == Count(ks, MostCounted(ks))
    ensures IndexOf(ks, x) <= IndexOf(ks, MostCounted(ks))
  {
    var k := MostCountedAt(ks);
    TallyAt(ks, k);
    var j := TallyHas(ks, x);
    TallyAt(ks, j);
    assert Tally(ks)[j].count == Tally(ks)[k].count;
    assert j <= k;
    if j < k {
      TallyKeyOrder(ks, j, k);
    }
  }

  /** Entries come in order of the first occurrence of their keys. */
  lemma TallyKeyOrder<K>(ks: seq<K>, j: nat, k: nat)
    requires j < k < |Tally(ks)|
    ensures Tally(ks)[j].key in ks && Tally(ks)[k].key in ks
    ensures IndexOf(ks, Tally(ks)[j].key) < IndexOf(ks, Tally(ks)[k].key)
  {
    TallyCorrect(ks);
    DedupFirstSeenOrder(ks);
    assert Tally(ks)[j].key == Dedup(ks)[j] && Tally(ks)[k].key == Dedup(ks)[k];
  }

  lemma ReorderedTally<K>(ks: seq<K>, s: seq<Entry<K>>)
    requires multiset(s) == multiset(Tally(ks))
    ensures |s| == |Dedup(ks)|
    ensures forall i :: 0 <= i < |s| ==> s[i].key in ks && s[i].count == Count(ks, s[i].key) > 0
  {
    var t := Tally(ks);
    TallyCorrect(ks);
    assert |s| == |multiset(s)| == |t| == |Keys(t)|;
    forall i | 0 <= i < |s| ensures s[i].key in ks && s[i].count == Count(ks, s[i].key) > 0 {
      assert s[i] in multiset(t);
      var j :| 0 <= j < |t| && t[j] == s[i];
      TallyAt(ks, j);
      CountPositive(ks, s[i].key);
    }
  }

  /** Every occurring key has its entry in any reordering of the tally. */
  lemma ReorderedTallyHas<K>(ks: seq<K>, s: seq<Entry<K>>, x: K) returns (i: nat)
    requires multiset(s) == multiset(Tally(ks)) && x in ks
    ensures i < |s| && s[i] == Entry(x, Count(ks, x))
  {
    var j := TallyHas(ks, x);
    TallyAt(ks, j);
    assert Tally(ks)[j] in multiset(s);
    i :| 0 <= i < |s| && s[i] == Tally(ks)[j];
  }

  /** The reduce over `ks`, with the property lookup `acc[k]` spelled out as a
      search of the entry list. */
  method CountKeys<K(==)>(ks: seq<K>) returns (acc: seq<Entry<K>>)
    ensures acc == Tally(ks)
  {
    acc := [];
    var i := 0;
    while i < |ks|
      invariant 0 <= i <= |ks|
      invariant acc == Tally(ks[..i])
    {
      var k := ks[i];
      var j := 0;
      while j < |acc| && acc[j].key != k
        invariant 0 <= j <= |acc|
        invariant forall q :: 0 <= q < j ==> acc[q].key != k
      {
        j := j + 1;
      }
      BumpAt(acc, k, j);
      if j < |acc| {
        acc := acc[j := acc[j].(count := acc[j].count + 1)];
      } else {
        acc := acc + [Entry(k, 1)];
      }
      assert ks[..i + 1][..i] == ks[..i];
      i := i + 1;
    }
    assert ks[..|ks|] == ks;
  }
}
