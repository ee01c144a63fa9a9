/** Array operations the core uses over and over: `filter`, `findIndex`,
    `reduce` sums, de-duplication through a `Set`, and the two sorts
    (a stable descending sort by a numeric key, and an ascending sort of
    numbers). */
module Seqs {
  import opened Wrappers

  // ---------------------------------------------------------------------
  // filter
  // ---------------------------------------------------------------------

  /** `s.filter(p)`: the elements satisfying `p`, in their original order. */
  function Filter<T>(s: seq<T>, p: T -> bool): (r: seq<T>)
    ensures |r| <= |s|
  {
    if s == [] then [] else (if p(s[0]) then [s[0]] else []) + Filter(s[1..], p)
  }

  /** What `Filter` keeps: exactly the elements satisfying `p`. */
  lemma {:induction false} FilterMembers<T>(s: seq<T>, p: T -> bool)
    ensures forall i :: 0 <= i < |Filter(s, p)| ==> Filter(s, p)[i] in s && p(Filter(s, p)[i])
    ensures forall i :: 0 <= i < |s| && p(s[i]) ==> s[i] in Filter(s, p)
    decreases |s|
  {
    if s != [] {
      FilterMembers(s[1..], p);
      assert s == [s[0]] + s[1..];
    }
  }

  /** Filtering distributes over concatenation. */
  lemma {:induction false} FilterConcat<T>(a: seq<T>, b: seq<T>, p: T -> bool)
    ensures Filter(a + b, p) == Filter(a, p) + Filter(b, p)
    decreases |a|
  {
    if a == [] {
      assert a + b == b;
    } else {
      var h := if p(a[0]) then [a[0]] else [];
      assert (a + b)[0] == a[0];
      assert (a + b)[1..] == a[1..] + b;
      assert Filter(a + b, p) == h + Filter(a[1..] + b, p);
      FilterConcat(a[1..], b, p);
      assert h + (Filter(a[1..], p) + Filter(b, p)) == (h + Filter(a[1..], p)) + Filter(b, p);
    }
  }

  /** A filter that keeps everything changes nothing. */
  lemma {:induction false} FilterAll<T>(s: seq<T>, p: T -> bool)
    requires forall i :: 0 <= i < |s| ==> p(s[i])
    ensures Filter(s, p) == s
    decreases |s|
  {
    if s != [] {
      FilterAll(s[1..], p);
      assert s == [s[0]] + s[1..];
    }
  }

  /** The number of elements satisfying `p`. */
  function Count<T>(s: seq<T>, p: T -> bool): (n: nat)
    ensures n <= |s|
    ensures n == 0 <==> forall i :: 0 <= i < |s| ==> !p(s[i])
  {
    if s == [] then 0
    else
      assert forall i :: 1 <= i < |s| ==> s[i] == s[1..][i - 1];
      (if p(s[0]) then 1 else 0) + Count(s[1..], p)
  }

  /** Counting is the length of the filter. */
  lemma {:induction false} CountIsFilterLength<T>(s: seq<T>, p: T -> bool)
    ensures Count(s, p) == |Filter(s, p)|
    decreases |s|
  {
    if s != [] {
      CountIsFilterLength(s[1..], p);
    }
  }

  /** `a` is `b` with some elements left out, the rest in order. */
  predicate Subsequence<T(==)>(a: seq<T>, b: seq<T>)
    decreases |b|
  {
    a == [] || (b != [] && ((a[0] == b[0] && Subsequence(a[1..], b[1..])) || Subsequence(a, b[1..])))
  }

  /** The first `n` kept elements are what filtering some prefix of the
      sequence keeps. */
  lemma {:induction false} FilterPrefixCut<T>(s: seq<T>, p: T -> bool, n: nat)
    requires n <= |Filter(s, p)|
    ensures exists k :: 0 <= k <= |s| && Filter(s[..k], p) == Filter(s, p)[..n]
    decreases |s|
  {
    if n == 0 {
      assert Filter(s[..0], p) == [];
    } else {
      var t := s[1..];
      FilterPrefixCut(t, p, if p(s[0]) then n - 1 else n);
      var k :| 0 <= k <= |t| && Filter(t[..k], p) == Filter(t, p)[..if p(s[0]) then n - 1 else n];
      var u := s[..k + 1];
      assert u[0] == s[0] && u[1..] == t[..k];
      if p(s[0]) {
        assert Filter(s, p)[..n] == [s[0]] + Filter(t, p)[..n - 1];
      }
      assert Filter(u, p) == Filter(s, p)[..n];
    }
  }

  /** Filtering keeps the order of what it keeps. */
  lemma {:induction false} FilterSubsequence<T>(s: seq<T>, p: T -> bool)
    ensures Subsequence(Filter(s, p), s)
    decreases |s|
  {
    if s != [] {
      FilterSubsequence(s[1..], p);
      var r := Filter(s, p);
      if p(s[0]) {
        assert r[0] == s[0] && r[1..] == Filter(s[1..], p);
      } else {
        assert r == Filter(s[1..], p);
      }
    }
  }

  /** Counting splits over concatenation. */
  lemma {:induction false} CountConcat<T>(a: seq<T>, b: seq<T>, p: T -> bool)
    ensures Count(a + b, p) == Count(a, p) + Count(b, p)
    decreases |a|
  {
    if a != [] {
      CountConcat(a[1..], b, p);
      assert (a + b)[1..] == a[1..] + b;
    } else {
      assert a + b == b;
    }
  }

  /** A weaker condition counts at least as many elements. */
  lemma {:induction false} CountMono<T>(s: seq<T>, p: T -> bool, q: T -> bool)
    requires forall i :: 0 <= i < |s| && p(s[i]) ==> q(s[i])
    ensures Count(s, p) <= Count(s, q)
    decreases |s|
  {
    if s != [] {
      CountMono(s[1..], p, q);
    }
  }

  // ---------------------------------------------------------------------
  // Sums
  // ---------------------------------------------------------------------

  /** `s.reduce((acc, x) => acc + f(x), 0)`. */
  function SumBy<T>(s: seq<T>, f: T -> int): int
  {
    if s == [] then 0 else f(s[0]) + SumBy(s[1..], f)
  }

  /** The same sum over reals. */
  function SumByReal<T>(s: seq<T>, f: T -> real): real
  {
    if s == [] then 0.0 else f(s[0]) + SumByReal(s[1..], f)
  }

  lemma {:induction false} SumByConcat<T>(a: seq<T>, b: seq<T>, f: T -> int)
    ensures SumBy(a + b, f) == SumBy(a, f) + SumBy(b, f)
    decreases |a|
  {
    if a == [] {
      assert a + b == b;
    } else {
      assert (a + b)[1..] == a[1..] + b;
      SumByConcat(a[1..], b, f);
    }
  }

  lemma {:induction false} SumByRealConcat<T>(a: seq<T>, b: seq<T>, f: T -> real)
    ensures SumByReal(a + b, f) == SumByReal(a, f) + SumByReal(b, f)
    decreases |a|
  {
    if a == [] {
      assert a + b == b;
    } else {
      assert (a + b)[1..] == a[1..] + b;
      SumByRealConcat(a[1..], b, f);
    }
  }

  /** A sum of terms each between `lo` and `hi`. */
  lemma {:induction false} SumByBounds<T>(s: seq<T>, f: T -> int, lo: int, hi: int)
    requires forall i :: 0 <= i < |s| ==> lo <= f(s[i]) <= hi
    ensures |s| * lo <= SumBy(s, f) <= |s| * hi
    decreases |s|
  {
    if s != [] {
      SumByBounds(s[1..], f, lo, hi);
    }
  }

  /** A sum of real terms each at least `lo`... */
  lemma {:induction false} SumByRealAtLeast<T>(s: seq<T>, f: T -> real, lo: real)
    requires forall i :: 0 <= i < |s| ==> lo <= f(s[i])
    ensures |s| as real * lo <= SumByReal(s, f)
    decreases |s|
  {
    if s != [] {
      SumByRealAtLeast(s[1..], f, lo);
    }
  }

  /** ... or each at most `hi`. */
  lemma {:induction false} SumByRealAtMost<T>(s: seq<T>, f: T -> real, hi: real)
    requires forall i :: 0 <= i < |s| ==> f(s[i]) <= hi
    ensures SumByReal(s, f) <= |s| as real * hi
    decreases |s|
  {
    if s != [] {
      SumByRealAtMost(s[1..], f, hi);
    }
  }

  // ---------------------------------------------------------------------
  // findIndex and friends
  // ---------------------------------------------------------------------

  /** `s.findIndex(p)`: the first index satisfying `p`; `None` is `-1`. */
  function FindIndex<T>(s: seq<T>, p: T -> bool): (r: Option<nat>)
    ensures r.None? <==> forall i :: 0 <= i < |s| ==> !p(s[i])
    ensures r.Some? ==> r.value < |s| && p(s[r.value])
                        && forall i :: 0 <= i < r.value ==> !p(s[i])
  {
    if s == [] then None
    else if p(s[0]) then Some(0)
    else match FindIndex(s[1..], p)
      case None => None
      case Some(k) => Some(k + 1)
  }

  /** Replace the first element satisfying `p` by `v`; no match, no change
      (the reducers' `if (index !== -1) list[index] = v`). */
  function ReplaceFirst<T>(s: seq<T>, p: T -> bool, v: T): (r: seq<T>)
    ensures |r| == |s|
    ensures FindIndex(s, p).None? ==> r == s
    ensures FindIndex(s, p).Some? ==> r == s[FindIndex(s, p).value := v]
  {
    match FindIndex(s, p)
    case None => s
    case Some(i) => s[i := v]
  }

  /** After a replacement every other position is unchanged, and the value
      sits at the first match. */
  lemma ReplaceFirstFrame<T>(s: seq<T>, p: T -> bool, v: T, j: nat)
    requires j < |s|
    ensures var r := ReplaceFirst(s, p, v);
            r[j] == (if FindIndex(s, p) == Some(j) then v else s[j])
  {
  }

  /** The index of the first occurrence of `x` in `s`. */
  function FirstIndex<T(==)>(s: seq<T>, x: T): (r: nat)
    requires x in s
    ensures r < |s| && s[r] == x && x !in s[..r]
  {
    if s[0] == x then 0
    else
      var k := FirstIndex(s[1..], x);
      assert s[..k + 1] == [s[0]] + s[1..][..k];
      k + 1
  }

  /** No element occurs twice. */
  predicate NoDuplicates<T(==)>(s: seq<T>) {
    forall i, j :: 0 <= i < j < |s| ==> s[i] != s[j]
  }

  /** `[...new Set(s)]`: each distinct element once, in the order of its
      first occurrence. */
  function Dedup<T(==)>(s: seq<T>): (r: seq<T>)
    ensures forall i :: 0 <= i < |r| ==> r[i] in s
    ensures forall i :: 0 <= i < |s| ==> s[i] in r
    ensures NoDuplicates(r)
    decreases |s|
  {
    if s == [] then []
    else
      var init := s[..|s| - 1];
      var r := Dedup(init);
      assert s == init + [s[|s| - 1]];
      if s[|s| - 1] in r then r else r + [s[|s| - 1]]
  }

  lemma FirstIndexPrefix<T>(s: seq<T>, n: nat, x: T)
    requires n <= |s| && x in s[..n]
    ensures FirstIndex(s[..n], x) == FirstIndex(s, x)
  {
    var a := FirstIndex(s[..n], x);
    assert s[..n][a] == s[a];
    assert s[..n][..a] == s[..a];
    FirstIndexUnique(s, x, a);
  }

  /** The first index is the one position holding `x` with no `x` before it. */
  lemma FirstIndexUnique<T>(s: seq<T>, x: T, i: nat)
    requires i < |s| && s[i] == x && x !in s[..i]
    ensures FirstIndex(s, x) == i
  {
    var b := FirstIndex(s, x);
    forall j | 0 <= j < i ensures s[j] != x {
      assert s[..i][j] == s[j];
    }
    forall j | 0 <= j < b ensures s[j] != x {
      assert s[..b][j] == s[j];
    }
  }

  /** One step of `Dedup`: the last element is appended when new. */
  lemma DedupLast<T>(s: seq<T>)
    requires s != []
    ensures var n := |s| - 1;
            Dedup(s) == if s[n] in Dedup(s[..n]) then Dedup(s[..n]) else Dedup(s[..n]) + [s[n]]
  {
  }

  lemma FirstIndexOfNewLast<T>(s: seq<T>)
    requires s != [] && s[|s| - 1] !in s[..|s| - 1]
    ensures FirstIndex(s, s[|s| - 1]) == |s| - 1
  {
  }

  /** The elements of `[...new Set(s)]` come in first-occurrence order. */
  lemma {:induction false} DedupOrder<T>(s: seq<T>)
    ensures forall i, j :: 0 <= i < j < |Dedup(s)| ==> FirstIndex(s, Dedup(s)[i]) < FirstIndex(s, Dedup(s)[j])
    decreases |s|
  {
    if s != [] {
      var n := |s| - 1;
      var init := s[..n];
      var r0 := Dedup(init);
      var r := Dedup(s);
      DedupOrder(init);
      DedupLast(s);
      forall i, j | 0 <= i < j < |r|
        ensures FirstIndex(s, r[i]) < FirstIndex(s, r[j])
      {
        assert r[i] == r0[i];
        FirstIndexPrefix(s, n, r0[i]);
        if j < |r0| {
          assert r[j] == r0[j];
          FirstIndexPrefix(s, n, r0[j]);
        } else {
          assert r[j] == s[n] && s[n] !in init;
          FirstIndexOfNewLast(s);
        }
      }
    }
  }

  /** De-duplicating a list without duplicates changes nothing. */
  lemma {:induction false} DedupNoDuplicates<T>(s: seq<T>)
    requires NoDuplicates(s)
    ensures Dedup(s) == s
    decreases |s|
  {
    if s != [] {
      var n := |s| - 1;
      var init := s[..n];
      assert NoDuplicates(init) by {
        forall i, j | 0 <= i < j < |init| ensures init[i] != init[j] {
          assert init[i] == s[i] && init[j] == s[j];
        }
      }
      DedupNoDuplicates(init);
      assert s[n] !in init by {
        forall i | 0 <= i < n ensures init[i] != s[n] {
          assert init[i] == s[i];
        }
      }
      DedupLast(s);
      assert s == init + [s[n]];
    }
  }

  // ---------------------------------------------------------------------
  // Stable descending sort by key
  // ---------------------------------------------------------------------

  /** Keys never increase along the sequence. */
  predicate SortedDescBy<T>(s: seq<T>, key: T -> real) {
    forall i, j :: 0 <= i < j < |s| ==> key(s[i]) >= key(s[j])
  }

  /** The elements whose key is `k`, in order: what a stable sort keeps. */
  function WithKey<T>(s: seq<T>, key: T -> real, k: real): (r: seq<T>)
    ensures forall i :: 0 <= i < |r| ==> key(r[i]) == k
  {
    if s == [] then []
    else (if key(s[0]) == k then [s[0]] else []) + WithKey(s[1..], key, k)
  }

  /** Put `x` before the first element whose key is not above its own. */
  function InsertDesc<T>(x: T, t: seq<T>, key: T -> real): seq<T>
  {
    if t == [] || key(t[0]) <= key(x) then [x] + t
    else [t[0]] + InsertDesc(x, t[1..], key)
  }

  /** `s.sort((a, b) => key(b) - key(a))`, stable as ECMAScript 2019
      requires: an insertion sort from the back. */
  function SortDescBy<T>(s: seq<T>, key: T -> real): seq<T>
  {
    if s == [] then [] else InsertDesc(s[0], SortDescBy(s[1..], key), key)
  }

  lemma {:induction false} InsertDescPerm<T>(x: T, t: seq<T>, key: T -> real, f: T -> int, g: T -> real)
    ensures var r := InsertDesc(x, t, key);
            && |r| == |t| + 1
            && multiset(r) == multiset(t) + multiset{x}
            && SumBy(r, f) == f(x) + SumBy(t, f)
            && SumByReal(r, g) == g(x) + SumByReal(t, g)
    decreases |t|
  {
    var r := InsertDesc(x, t, key);
    if t == [] || key(t[0]) <= key(x) {
      assert r[1..] == t;
    } else {
      InsertDescPerm(x, t[1..], key, f, g);
      assert r[1..] == InsertDesc(x, t[1..], key);
      assert t == [t[0]] + t[1..];
    }
  }

  /** Inserting keeps every key under a bound that `x` and `t` respect. */
  lemma {:induction false} InsertDescBound<T>(x: T, t: seq<T>, key: T -> real, b: real)
    requires key(x) <= b
    requires forall i :: 0 <= i < |t| ==> key(t[i]) <= b
    ensures forall i :: 0 <= i < |InsertDesc(x, t, key)| ==> key(InsertDesc(x, t, key)[i]) <= b
    decreases |t|
  {
    if t != [] && key(t[0]) > key(x) {
      InsertDescBound(x, t[1..], key, b);
      var r := InsertDesc(x, t, key);
      assert r[1..] == InsertDesc(x, t[1..], key);
    }
  }

  lemma {:induction false} InsertDescSorted<T>(x: T, t: seq<T>, key: T -> real)
    requires SortedDescBy(t, key)
    ensures SortedDescBy(InsertDesc(x, t, key), key)
    decreases |t|
  {
    var r := InsertDesc(x, t, key);
    if t == [] || key(t[0]) <= key(x) {
      assert r[1..] == t;
    } else {
      var r1 := InsertDesc(x, t[1..], key);
      InsertDescSorted(x, t[1..], key);
      assert forall i :: 0 <= i < |t[1..]| ==> key(t[1..][i]) <= key(t[0]) by {
        forall i | 0 <= i < |t[1..]| ensures key(t[1..][i]) <= key(t[0]) {
          assert t[1..][i] == t[i + 1];
        }
      }
      InsertDescBound(x, t[1..], key, key(t[0]));
      assert r == [t[0]] + r1;
      forall i, j | 0 <= i < j < |r| ensures key(r[i]) >= key(r[j]) {
        assert r[j] == r1[j - 1];
        if i > 0 {
          assert r[i] == r1[i - 1];
        } else {
          assert r[i] == t[0];
          assert key(r1[j - 1]) <= key(t[0]);
        }
      }
    }
  }

  lemma {:induction false} InsertDescWithKey<T>(x: T, t: seq<T>, key: T -> real, k: real)
    ensures WithKey(InsertDesc(x, t, key), key, k) == (if key(x) == k then [x] else []) + WithKey(t, key, k)
    decreases |t|
  {
    var r := InsertDesc(x, t, key);
    if t == [] || key(t[0]) <= key(x) {
      assert r[1..] == t;
    } else {
      var r1 := InsertDesc(x, t[1..], key);
      InsertDescWithKey(x, t[1..], key, k);
      assert r[1..] == r1;
      assert WithKey(r, key, k) == (if key(t[0]) == k then [t[0]] else []) + WithKey(r1, key, k);
    }
  }

  lemma {:induction false} SortDescByPerm<T>(s: seq<T>, key: T -> real, f: T -> int, g: T -> real)
    ensures var r := SortDescBy(s, key);
            && |r| == |s| && multiset(r) == multiset(s)
            && SumBy(r, f) == SumBy(s, f) && SumByReal(r, g) == SumByReal(s, g)
    decreases |s|
  {
    if s != [] {
      SortDescByPerm(s[1..], key, f, g);
      InsertDescPerm(s[0], SortDescBy(s[1..], key), key, f, g);
      assert s == [s[0]] + s[1..];
    }
  }

  lemma {:induction false} SortDescBySorted<T>(s: seq<T>, key: T -> real)
    ensures SortedDescBy(SortDescBy(s, key), key)
    decreases |s|
  {
    if s != [] {
      SortDescBySorted(s[1..], key);
      InsertDescSorted(s[0], SortDescBy(s[1..], key), key);
    }
  }

  lemma {:induction false} SortDescByStable<T>(s: seq<T>, key: T -> real, k: real)
    ensures WithKey(SortDescBy(s, key), key, k) == WithKey(s, key, k)
    decreases |s|
  {
    if s != [] {
      SortDescByStable(s[1..], key, k);
      InsertDescWithKey(s[0], SortDescBy(s[1..], key), key, k);
    }
  }

  /** The sort's result is ordered by key, is a permutation of the input,
      keeps the same total under any measure, and keeps elements with equal
      keys in their input order. */
  lemma SortDescByFacts<T>(s: seq<T>, key: T -> real, f: T -> int, g: T -> real)
    ensures var r := SortDescBy(s, key);
            && |r| == |s|
            && SortedDescBy(r, key)
            && multiset(r) == multiset(s)
            && SumBy(r, f) == SumBy(s, f)
            && SumByReal(r, g) == SumByReal(s, g)
            && (forall k :: WithKey(r, key, k) == WithKey(s, key, k))
  {
    SortDescByPerm(s, key, f, g);
    SortDescBySorted(s, key);
    forall k ensures WithKey(SortDescBy(s, key), key, k) == WithKey(s, key, k) {
      SortDescByStable(s, key, k);
    }
  }

  /** The first element of the sorted list has the greatest key. */
  lemma SortDescByHead<T>(s: seq<T>, key: T -> real)
    requires |s| > 0
    ensures var r := SortDescBy(s, key);
            |r| == |s| && forall i :: 0 <= i < |s| ==> key(r[0]) >= key(s[i])
  {
    var r := SortDescBy(s, key);
    SortDescByPerm(s, key, _ => 0, key);
    SortDescBySorted(s, key);
    forall i | 0 <= i < |s| ensures key(r[0]) >= key(s[i]) {
      assert s[i] in multiset(r);
      var j :| 0 <= j < |r| && r[j] == s[i];
    }
  }

  // ---------------------------------------------------------------------
  // Ascending numeric sort
  // ---------------------------------------------------------------------

  predicate SortedAsc(s: seq<int>) {
    forall i, j :: 0 <= i < j < |s| ==> s[i] <= s[j]
  }

  predicate StrictlyAsc(s: seq<int>) {
    forall i, j :: 0 <= i < j < |s| ==> s[i] < s[j]
  }

  function InsertAsc(x: int, t: seq<int>): seq<int>
  {
    if t == [] || x <= t[0] then [x] + t else [t[0]] + InsertAsc(x, t[1..])
  }

  /** `s.sort((a, b) => a - b)`. */
  function SortAsc(s: seq<int>): seq<int>
  {
    if s == [] then [] else InsertAsc(s[0], SortAsc(s[1..]))
  }

  lemma {:induction false} InsertAscPerm(x: int, t: seq<int>)
    ensures multiset(InsertAsc(x, t)) == multiset(t) + multiset{x}
    decreases |t|
  {
    if t != [] && x > t[0] {
      InsertAscPerm(x, t[1..]);
      assert t == [t[0]] + t[1..];
    }
  }

  /** Inserting keeps every element above a bound that `x` and `t` respect. */
  lemma {:induction false} InsertAscBound(x: int, t: seq<int>, b: int)
    requires b <= x
    requires forall i :: 0 <= i < |t| ==> b <= t[i]
    ensures forall i :: 0 <= i < |InsertAsc(x, t)| ==> b <= InsertAsc(x, t)[i]
    decreases |t|
  {
    if t != [] && x > t[0] {
      InsertAscBound(x, t[1..], b);
      var r := InsertAsc(x, t);
      assert r[1..] == InsertAsc(x, t[1..]);
    }
  }

  lemma {:induction false} InsertAscFacts(x: int, t: seq<int>)
    requires SortedAsc(t)
    ensures var r := InsertAsc(x, t);
            SortedAsc(r) && multiset(r) == multiset(t) + multiset{x}
    decreases |t|
  {
    InsertAscPerm(x, t);
    if t != [] && x > t[0] {
      var r1 := InsertAsc(x, t[1..]);
      InsertAscFacts(x, t[1..]);
      InsertAscBound(x, t[1..], t[0]);
      var r := InsertAsc(x, t);
      assert r[1..] == r1;
    }
  }

  /** `sort` orders the numbers and keeps them all. */
  lemma {:induction false} SortAscFacts(s: seq<int>)
    ensures SortedAsc(SortAsc(s)) && multiset(SortAsc(s)) == multiset(s)
    decreases |s|
  {
    if s != [] {
      SortAscFacts(s[1..]);
      InsertAscFacts(s[0], SortAsc(s[1..]));
      assert s == [s[0]] + s[1..];
    }
  }

  /** In a strictly increasing list each value occurs at most once. */
  lemma {:induction false} StrictlyAscCounts(s: seq<int>, x: int)
    requires StrictlyAsc(s)
    ensures multiset(s)[x] == if x in s then 1 else 0
    decreases |s|
  {
    if s != [] {
      StrictlyAscCounts(s[1..], x);
      assert s == [s[0]] + s[1..];
      if s[0] == x {
        assert x !in s[1..];
      }
    }
  }

  /** Two equal entries make their value counted at least twice. */
  lemma EqualEntriesCount(s: seq<int>, i: nat, j: nat)
    requires i < j < |s|
    ensures s[i] == s[j] ==> multiset(s)[s[i]] >= 2
  {
    var x := s[i];
    assert s == s[..i] + [x] + s[i + 1..j] + [s[j]] + s[j + 1..];
    assert multiset(s) == multiset(s[..i]) + multiset{x} + multiset(s[i + 1..j]) + multiset{s[j]} + multiset(s[j + 1..]);
  }

  /** A sorted list in which no value is counted twice is strictly
      increasing. */
  lemma SortedSingleCountsStrict(s: seq<int>)
    requires SortedAsc(s)
    requires forall x :: multiset(s)[x] <= 1
    ensures StrictlyAsc(s)
  {
    forall i, j | 0 <= i < j < |s| ensures s[i] < s[j] {
      EqualEntriesCount(s, i, j);
    }
  }

  /** Sorting a strictly increasing list with one new value added gives a
      strictly increasing list holding exactly the old values and the new
      one. */
  lemma SortAscAddFresh(s: seq<int>, m: int)
    requires StrictlyAsc(s) && m !in s
    ensures var r := SortAsc(s + [m]);
            StrictlyAsc(r) && multiset(r) == multiset(s) + multiset{m}
            && forall x :: x in r <==> x in s || x == m
  {
    var r := SortAsc(s + [m]);
    SortAscFacts(s + [m]);
    assert multiset(s + [m]) == multiset(s) + multiset{m};
    forall x ensures multiset(r)[x] <= 1 {
      StrictlyAscCounts(s, x);
    }
    SortedSingleCountsStrict(r);
    forall x ensures x in r <==> x in s || x == m {
      assert x in r <==> x in multiset(r);
      assert x in s <==> x in multiset(s);
    }
  }

  /** Filtering keeps a strictly increasing list strictly increasing. */
  lemma {:induction false} FilterStrictlyAsc(s: seq<int>, p: int -> bool)
    requires StrictlyAsc(s)
    ensures StrictlyAsc(Filter(s, p))
    decreases |s|
  {
    if s != [] {
      var t := Filter(s[1..], p);
      assert StrictlyAsc(s[1..]);
      FilterStrictlyAsc(s[1..], p);
      FilterMembers(s[1..], p);
      assert forall i :: 0 <= i < |t| ==> s[0] < t[i] by {
        forall i | 0 <= i < |t| ensures s[0] < t[i] {
          var j :| 0 <= j < |s[1..]| && s[1..][j] == t[i];
          assert s[j + 1] == t[i];
        }
      }
    }
  }

  /** A strictly increasing list is fixed by the values it holds. */
  lemma {:induction false} StrictlyAscUnique(a: seq<int>, b: seq<int>)
    requires StrictlyAsc(a) && StrictlyAsc(b)
    requires forall x :: x in a <==> x in b
    ensures a == b
    decreases |a|
  {
    if a != [] {
      assert a[0] in a;
    }
    if b != [] {
      assert b[0] in b;
    }
    if a != [] && b != [] {
      assert a[0] == b[0] by {
        assert a[0] in b && b[0] in a;
        var i :| 0 <= i < |b| && b[i] == a[0];
        var j :| 0 <= j < |a| && a[j] == b[0];
      }
      forall x ensures x in a[1..] <==> x in b[1..] {
        StrictlyAscTail(a, x);
        StrictlyAscTail(b, x);
      }
      StrictlyAscUnique(a[1..], b[1..]);
      assert a == [a[0]] + a[1..] && b == [b[0]] + b[1..];
    }
  }

  /** The tail of a strictly increasing list holds exactly its values other
      than the head. */
  lemma StrictlyAscTail(a: seq<int>, x: int)
    requires StrictlyAsc(a) && a != []
    ensures x in a[1..] <==> x in a && x != a[0]
  {
    if x in a[1..] {
      var i :| 0 <= i < |a[1..]| && a[1..][i] == x;
      assert a[i + 1] == x && a[0] < x;
    }
    if x in a && x != a[0] {
      var j :| 0 <= j < |a| && a[j] == x;
      assert a[1..][j - 1] == x;
    }
  }
}
