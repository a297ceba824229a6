/** A stable sort by an integer key, largest key first: the result of
    `Array.prototype.sort((a, b) => key(b) - key(a))` (a stable sort in current
    JavaScript engines) and the order this model gives a `$sort: {field: -1}`. */
module Sorting {
  import opened Seqs

  predicate SortedDesc<T>(s: seq<T>, key: T -> int) {
    forall i, j :: 0 <= i < j < |s| ==> key(s[i]) >= key(s[j])
  }

  /** The elements of `s` whose key is `c`, in their order in `s`. */
  function WithKey<T>(s: seq<T>, key: T -> int, c: int): seq<T> {
    if s == [] then [] else (if key(s[0]) == c then [s[0]] else []) + WithKey(s[1..], key, c)
  }

  /** Puts `x` in front of the first element whose key is not larger. */
  function Insert<T(==)>(x: T, s: seq<T>, key: T -> int): (r: seq<T>)
    ensures |r| == |s| + 1
    ensures multiset(r) == multiset(s) + multiset{x}
  {
    if s == [] then [x]
    else if key(x) >= key(s[0]) then [x] + s
    else
      assert s == [s[0]] + s[1..];
      [s[0]] + Insert(x, s[1..], key)
  }

  function SortDesc<T(==)>(s: seq<T>, key: T -> int): (r: seq<T>)
    ensures |r| == |s|
    ensures multiset(r) == multiset(s)
  {
    if s == [] then []
    else
      assert s == [s[0]] + s[1..];
      Insert(s[0], SortDesc(s[1..], key), key)
  }

  lemma {:induction false} InsertSorted<T>(x: T, s: seq<T>, key: T -> int)
    requires SortedDesc(s, key)
    ensures SortedDesc(Insert(x, s, key), key)
  {
    if s != [] && key(x) < key(s[0]) {
      var rest := Insert(x, s[1..], key);
      InsertSorted(x, s[1..], key);
      forall j | 0 <= j < |rest| ensures key(s[0]) >= key(rest[j]) {
        assert rest[j] in multiset(rest);
        assert rest[j] == x || rest[j] in multiset(s[1..]);
        if rest[j] != x {
          var q :| 0 <= q < |s[1..]| && s[1..][q] == rest[j];
          assert s[q + 1] == rest[j];
        }
      }
      assert Insert(x, s, key) == [s[0]] + rest;
    }
  }

  /** The result is sorted, largest key first. */
  lemma {:induction false} SortDescSorted<T>(s: seq<T>, key: T -> int)
    ensures SortedDesc(SortDesc(s, key), key)
  {
    if s != [] {
      SortDescSorted(s[1..], key);
      InsertSorted(s[0], SortDesc(s[1..], key), key);
    }
  }

  lemma {:induction false} WithKeyAppend<T>(a: seq<T>, b: seq<T>, key: T -> int, c: int)
    ensures WithKey(a + b, key, c) == WithKey(a, key, c) + WithKey(b, key, c)
  {
    if a != [] {
      assert (a + b)[1..] == a[1..] + b;
      WithKeyAppend(a[1..], b, key, c);
    } else {
      assert a + b == b;
    }
  }

  lemma {:induction false} InsertWithKey<T>(x: T, s: seq<T>, key: T -> int, c: int)
    ensures WithKey(Insert(x, s, key), key, c)
         == (if key(x) == c then [x] else []) + WithKey(s, key, c)
  {
    if s == [] {
      WithKeyCons(x, [], key, c);
    } else if key(x) >= key(s[0]) {
      WithKeyCons(x, s, key, c);
    } else {
      InsertWithKey(x, s[1..], key, c);
      assert Insert(x, s, key) == [s[0]] + Insert(x, s[1..], key);
      WithKeyBehind(s[0], Insert(x, s[1..], key), s[1..], if key(x) == c then [x] else [], key, c);
      assert [s[0]] + s[1..] == s;
    }
  }

  /** Elements with key `c` in front of `y` may pass it only when `y` does not carry `c`. */
  lemma WithKeyBehind<T>(y: T, r: seq<T>, t: seq<T>, h: seq<T>, key: T -> int, c: int)
    requires key(y) == c ==> h == []
    requires WithKey(r, key, c) == h + WithKey(t, key, c)
    ensures WithKey([y] + r, key, c) == h + WithKey([y] + t, key, c)
  {
    WithKeyCons(y, r, key, c);
    WithKeyCons(y, t, key, c);
    if key(y) == c {
      assert h + WithKey([y] + t, key, c) == WithKey([y] + t, key, c);
      assert WithKey(r, key, c) == WithKey(t, key, c);
    } else {
      assert WithKey([y] + r, key, c) == WithKey(r, key, c);
    }
  }

  lemma WithKeyCons<T>(y: T, t: seq<T>, key: T -> int, c: int)
    ensures WithKey([y] + t, key, c) == (if key(y) == c then [y] else []) + WithKey(t, key, c)
  {
    assert ([y] + t)[1..] == t;
  }

  /** Stability: for every key value, the elements carrying it keep their
      relative order. */
  lemma {:induction false} SortDescStable<T>(s: seq<T>, key: T -> int, c: int)
    ensures WithKey(SortDesc(s, key), key, c) == WithKey(s, key, c)
  {
    if s != [] {
      SortDescStable(s[1..], key, c);
      InsertWithKey(s[0], SortDesc(s[1..], key), key, c);
    }
  }

  lemma SortedHeadIsMax<T>(s: seq<T>, key: T -> int, x: T)
    requires SortedDesc(s, key) && x in s
    ensures key(s[0]) >= key(x)
  {
    var j :| 0 <= j < |s| && s[j] == x;
  }

  /** An element a prefix of a sorted sequence leaves out is not larger than
      anything the prefix keeps. */
  lemma LeftOutOfPrefix<T>(s: seq<T>, key: T -> int, n: nat, x: T)
    requires SortedDesc(s, key) && n <= |s| && x in s && x !in s[..n]
    ensures forall i :: 0 <= i < n ==> key(x) <= key(s[i])
  {
    var q :| 0 <= q < |s| && s[q] == x;
    assert forall j :: 0 <= j < n ==> s[..n][j] == s[j];
  }

  /** Keys that differ pairwise still differ pairwise after reordering. */
  lemma DistinctKeysPermutation<T>(a: seq<T>, b: seq<T>, key: T -> int)
    requires multiset(a) == multiset(b)
    requires forall i, j :: 0 <= i < j < |b| ==> key(b[i]) != key(b[j])
    ensures forall i, j :: 0 <= i < j < |a| ==> key(a[i]) != key(a[j])
  {
    assert Distinct(b);
    DistinctPermutation(a, b);
    forall i, j | 0 <= i < j < |a| ensures key(a[i]) != key(a[j]) {
      assert a[i] in multiset(b) && a[j] in multiset(b);
      var p :| 0 <= p < |b| && b[p] == a[i];
      var q :| 0 <= q < |b| && b[q] == a[j];
      assert p != q;
    }
  }

  /** Sorted with pairwise different keys: the keys strictly decrease. */
  lemma SortedDistinctKeys<T>(s: seq<T>, key: T -> int)
    requires SortedDesc(s, key)
    requires forall i, j :: 0 <= i < j < |s| ==> key(s[i]) != key(s[j])
    ensures forall i, j :: 0 <= i < j < |s| ==> key(s[i]) > key(s[j])
  {
  }

  /** Sorting elements whose keys all differ puts the keys in strictly
      decreasing order. */
  lemma SortDescStrict<T>(s: seq<T>, key: T -> int)
    requires forall i, j :: 0 <= i < j < |s| ==> key(s[i]) != key(s[j])
    ensures var r := SortDesc(s, key);
      forall i, j :: 0 <= i < j < |r| ==> key(r[i]) > key(r[j])
  {
    var r := SortDesc(s, key);
    DistinctKeysPermutation(r, s, key);
    SortDescSorted(s, key);
    SortedDistinctKeys(r, key);
  }

  /** The first `n` elements of a sorted sequence are sorted. */
  lemma TakeSorted<T>(s: seq<T>, key: T -> int, n: nat)
    requires SortedDesc(s, key)
    ensures SortedDesc(Take(s, n), key)
    ensures |Take(s, n)| == if n < |s| then n else |s|
    ensures forall i :: 0 <= i < |Take(s, n)| ==> Take(s, n)[i] == s[i]
  {
  }

  lemma {:induction false} WithKeyMembers<T>(s: seq<T>, key: T -> int, c: int, x: T)
    ensures x in WithKey(s, key, c) <==> x in s && key(x) == c
  {
    if s != [] {
      WithKeyMembers(s[1..], key, c, x);
      assert s == [s[0]] + s[1..];
    }
  }

  /** For elements carrying key `c`, order among them is their order in `s`. */
  lemma {:induction false} WithKeyOrder<T>(s: seq<T>, key: T -> int, c: int, x: T, y: T)
    requires Distinct(s)
    requires x in WithKey(s, key, c) && y in WithKey(s, key, c)
    ensures x in s && y in s
    ensures IndexOf(WithKey(s, key, c), x) < IndexOf(WithKey(s, key, c), y) <==> IndexOf(s, x) < IndexOf(s, y)
  {
    WithKeyMembers(s, key, c, x);
    WithKeyMembers(s, key, c, y);
    var w := WithKey(s, key, c);
    if s[0] != x && s[0] != y {
      var t := s[1..];
      var wt := WithKey(t, key, c);
      assert x in t && y in t;
      WithKeyMembers(t, key, c, x);
      WithKeyMembers(t, key, c, y);
      assert Distinct(t);
      WithKeyOrder(t, key, c, x, y);
      assert IndexOf(s, x) == 1 + IndexOf(t, x);
      assert IndexOf(s, y) == 1 + IndexOf(t, y);
      if key(s[0]) == c {
        assert w == [s[0]] + wt;
        assert w[1..] == wt;
        assert IndexOf(w, x) == 1 + IndexOf(wt, x);
        assert IndexOf(w, y) == 1 + IndexOf(wt, y);
      } else {
        assert w == wt;
      }
    } else if s[0] == x {
      assert w[0] == x;
    } else {
      assert w[0] == y;
    }
  }
}
