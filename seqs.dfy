/** Sequence utilities shared by the aggregation code: counting as a
    `filter(...).length` does, sums and maxima as `Array.prototype.reduce`
    computes them, and the first-occurrence de-duplication of `new Set(...)`. */
module Seqs {
  import opened Wrappers

  predicate Distinct<T(==)>(s: seq<T>) {
    forall i, j :: 0 <= i < j < |s| ==> s[i] != s[j]
  }

  /** `s.slice(0, n)`. */
  function Take<T>(s: seq<T>, n: nat): seq<T> {
    if n < |s| then s[..n] else s
  }

  /** `s.slice(n)`, as a MongoDB `skip(n)` applies it. */
  function Drop<T>(s: seq<T>, n: nat): seq<T> {
    if n < |s| then s[n..] else []
  }

  /** Number of occurrences of `x` in `s`, counted left to right. */
  function Count<T(==)>(s: seq<T>, x: T): (n: nat)
    ensures n <= |s|
  {
    if s == [] then 0 else Count(s[..|s| - 1], x) + (if s[|s| - 1] == x then 1 else 0)
  }

  /** `s.reduce((sum, v) => sum + v, 0)`. */
  function Sum(s: seq<int>): int {
    if s == [] then 0 else Sum(s[..|s| - 1]) + s[|s| - 1]
  }

  /** Position of the first occurrence of `x` in `s`. */
  function IndexOf<T(==)>(s: seq<T>, x: T): (i: nat)
    requires x in s
    ensures i < |s| && s[i] == x
    ensures forall j :: 0 <= j < i ==> s[j] != x
  {
    if s[0] == x then 0 else 1 + IndexOf(s[1..], x)
  }

  /** `[...new Set(s)]`: the distinct elements of `s` in order of first occurrence. */
  function Dedup<T(==)>(s: seq<T>): (r: seq<T>)
    ensures |r| <= |s|
    ensures forall i :: 0 <= i < |r| ==> r[i] in s
    ensures forall i :: 0 <= i < |s| ==> s[i] in r
    ensures Distinct(r)
  {
    if s == [] then []
    else
      var d := Dedup(s[..|s| - 1]);
      assert s == s[..|s| - 1] + [s[|s| - 1]];
      if s[|s| - 1] in d then d else d + [s[|s| - 1]]
  }

  /** `reduce((a, b) => a > b ? a : b)` without an initial value, over counts:
      the index of a maximum, the later one when several are equal. */
  function LastMaxIndex(s: seq<int>): (k: nat)
    requires |s| > 0
    ensures k < |s|
    ensures forall j :: 0 <= j < |s| ==> s[j] <= s[k]
    ensures forall j :: k < j < |s| ==> s[j] < s[k]
  {
    if |s| == 1 then 0
    else
      var k := LastMaxIndex(s[..|s| - 1]);
      if s[k] > s[|s| - 1] then k else |s| - 1
  }

  /** `reduce((max, d) => d > max ? d : max, 0)` over counts, reporting which
      element won: None when the initial 0 was never beaten, otherwise the
      first position holding the maximum. */
  function PeakIndex(s: seq<int>): (k: Option<nat>)
    ensures k.None? <==> forall j :: 0 <= j < |s| ==> s[j] <= 0
    ensures k.Some? ==> k.value < |s| && s[k.value] > 0
    ensures k.Some? ==> forall j :: 0 <= j < |s| ==> s[j] <= s[k.value]
    ensures k.Some? ==> forall j :: 0 <= j < k.value ==> s[j] < s[k.value]
  {
    if s == [] then None
    else
      var p := PeakIndex(s[..|s| - 1]);
      var best := if p.None? then 0 else s[p.value];
      if s[|s| - 1] > best then Some(|s| - 1) else p
  }

  lemma {:induction false} CountAppend<T>(s: seq<T>, t: seq<T>, x: T)
    ensures Count(s + t, x) == Count(s, x) + Count(t, x)
  {
    if t == [] {
      assert s + t == s;
    } else {
      assert (s + t)[..|s + t| - 1] == s + t[..|t| - 1];
      CountAppend(s, t[..|t| - 1], x);
    }
  }

  /** `CountAppend` for every element at once. */
  lemma CountAppendAll<T>(s: seq<T>, t: seq<T>)
    ensures forall x :: Count(s + t, x) == Count(s, x) + Count(t, x)
  {
    forall x ensures Count(s + t, x) == Count(s, x) + Count(t, x) {
      CountAppend(s, t, x);
    }
  }

  lemma CountSingle<T>(y: T, x: T)
    ensures Count([y], x) == if y == x then 1 else 0
  {
    assert [y][..0] == [];
  }

  /** One step of a filter that runs front to back: if `rest` keeps the
      copies of `tail` that satisfy `p`, then putting `x` in front when it
      satisfies `p` keeps the copies of `[x] + tail` that satisfy `p`. */
  lemma FilterStepCount<T>(x: T, tail: seq<T>, rest: seq<T>, p: T -> bool)
    requires forall m {:trigger Count(rest, m)} :: Count(rest, m) == if p(m) then Count(tail, m) else 0
    ensures var h := if p(x) then [x] else [];
      forall m {:trigger Count(h + rest, m)} :: Count(h + rest, m) == if p(m) then Count([x] + tail, m) else 0
  {
    var h := if p(x) then [x] else [];
    forall m ensures Count(h + rest, m) == if p(m) then Count([x] + tail, m) else 0 {
      CountAppend(h, rest, m);
      CountAppend([x], tail, m);
      CountSingle(x, m);
      assert h == [] ==> Count(h, m) == 0;
    }
  }

  /** The same step for a filter that runs back to front. */
  lemma FilterSnocCount<T>(x: T, init: seq<T>, rest: seq<T>, p: T -> bool)
    requires forall m {:trigger Count(rest, m)} :: Count(rest, m) == if p(m) then Count(init, m) else 0
    ensures var h := if p(x) then [x] else [];
      forall m {:trigger Count(rest + h, m)} :: Count(rest + h, m) == if p(m) then Count(init + [x], m) else 0
  {
    var h := if p(x) then [x] else [];
    forall m ensures Count(rest + h, m) == if p(m) then Count(init + [x], m) else 0 {
      CountAppend(rest, h, m);
      CountAppend(init, [x], m);
      CountSingle(x, m);
      assert h == [] ==> Count(h, m) == 0;
    }
  }

  lemma {:induction false} CountPositive<T>(s: seq<T>, x: T)
    ensures Count(s, x) > 0 <==> x in s
  {
    if s != [] {
      CountPositive(s[..|s| - 1], x);
      assert s == s[..|s| - 1] + [s[|s| - 1]];
    }
  }

  lemma IndexOfSnoc<T>(s: seq<T>, x: T, y: T)
    requires y in s
    ensures IndexOf(s + [x], y) == IndexOf(s, y)
  {
    var i, k := IndexOf(s + [x], y), IndexOf(s, y);
    assert (s + [x])[k] == y;
    assert i <= k;
    assert s[i] == (s + [x])[i];
  }

  lemma IndexOfNew<T>(s: seq<T>, x: T)
    requires x !in s
    ensures IndexOf(s + [x], x) == |s|
  {
    var i := IndexOf(s + [x], x);
    assert (s + [x])[|s|] == x;
  }

  lemma IndexOfAfter<T>(h: seq<T>, r: seq<T>, x: T)
    requires x !in h && x in r
    ensures IndexOf(h + r, x) == |h| + IndexOf(r, x)
  {
    var i, k := IndexOf(h + r, x), IndexOf(r, x);
    assert (h + r)[|h| + k] == x;
    assert r[i - |h|] == x;
  }

  /** The de-duplicated sequence lists its elements in order of first occurrence. */
  lemma {:induction false} DedupFirstSeenOrder<T>(s: seq<T>)
    ensures forall i, j :: 0 <= i < j < |Dedup(s)| ==> IndexOf(s, Dedup(s)[i]) < IndexOf(s, Dedup(s)[j])
  {
    if s != [] {
      var p, x := s[..|s| - 1], s[|s| - 1];
      assert s == p + [x];
      DedupFirstSeenOrder(p);
      var d, r := Dedup(p), Dedup(s);
      forall y | y in p
        ensures IndexOf(s, y) == IndexOf(p, y)
      {
        IndexOfSnoc(p, x, y);
      }
      if x !in p {
        IndexOfNew(p, x);
        assert r == d + [x];
        forall i, j | 0 <= i < j < |r|
          ensures IndexOf(s, r[i]) < IndexOf(s, r[j])
        {
          assert r[i] == d[i] && r[i] in p;
          if j < |d| {
            assert r[j] == d[j] && r[j] in p;
          } else {
            assert r[j] == x;
          }
        }
      } else {
        assert r == d;
      }
    }
  }

  /** In a sequence without repetitions every element occurs once. */
  lemma {:induction false} DistinctOnce<T>(s: seq<T>, x: T)
    requires Distinct(s)
    ensures multiset(s)[x] <= 1
  {
    if s != [] {
      var p := s[..|s| - 1];
      assert s == p + [s[|s| - 1]];
      DistinctOnce(p, x);
      if x == s[|s| - 1] {
        assert x !in p;
      }
    }
  }

  lemma RepeatedTwice<T>(s: seq<T>, i: nat, j: nat)
    requires i < j < |s| && s[i] == s[j]
    ensures multiset(s)[s[i]] >= 2
  {
    assert s == s[..i] + [s[i]] + s[i + 1..j] + [s[j]] + s[j + 1..];
  }

  /** Reordering keeps a sequence free of repetitions. */
  lemma DistinctPermutation<T>(a: seq<T>, b: seq<T>)
    requires multiset(a) == multiset(b) && Distinct(b)
    ensures Distinct(a)
  {
    forall i, j | 0 <= i < j < |a| ensures a[i] != a[j] {
      if a[i] == a[j] {
        RepeatedTwice(a, i, j);
        DistinctOnce(b, a[i]);
      }
    }
  }

  /** A permutation of `b` holds only elements of `b`. */
  lemma PermutationMembers<T>(a: seq<T>, b: seq<T>)
    requires multiset(a) == multiset(b)
    ensures forall i :: 0 <= i < |a| ==> a[i] in b
  {
    forall i | 0 <= i < |a| ensures a[i] in b {
      assert a[i] in multiset(a);
    }
  }

  /** In a sequence without repetitions the first occurrence is the only one. */
  lemma IndexOfDistinct<T>(s: seq<T>, i: nat)
    requires Distinct(s) && i < |s|
    ensures IndexOf(s, s[i]) == i
  {
  }
}
