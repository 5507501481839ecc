/** The median, as the rolling speed baseline takes it (ai/surgeguard_ai/analysis/grid_crowd_analyzer.py). */
module Medians {
  import opened Common
  import opened Reals

  function Insert(s: seq<real>, x: real): seq<real> {
    if s == [] then [x]
    else
      var n := |s| - 1;
      if s[n] <= x then s + [x] else Insert(s[..n], x) + [s[n]]
  }

  function Sort(s: seq<real>): seq<real> {
    if s == [] then [] else Insert(Sort(s[..|s| - 1]), s[|s| - 1])
  }

  function Middle(t: seq<real>): real
    requires t != []
  {
    var k := |t| / 2;
    if |t| == 2 * k then (t[k - 1] + t[k]) / 2.0 else t[k]
  }

  /** The middle value, or the mean of the two middle ones. */
  function Median(s: seq<real>): real
    requires s != []
  {
    SortKeeps(s, AtMost(0.0));
    Middle(Sort(s))
  }

  ghost predicate Ascending(s: seq<real>) {
    forall i, j :: 0 <= i < j < |s| ==> s[i] <= s[j]
  }

  lemma {:induction false} InsertMembers(s: seq<real>, x: real)
    ensures forall y :: y in Insert(s, x) <==> y in s || y == x
  {
    if s != [] {
      var n := |s| - 1;
      assert s == s[..n] + [s[n]];
      InsertMembers(s[..n], x);
    }
  }

  lemma {:induction false} InsertCount(s: seq<real>, x: real, p: real -> bool)
    ensures |Insert(s, x)| == |s| + 1
    ensures Count(Insert(s, x), p) == Count(s, p) + (if p(x) then 1 else 0)
  {
    CountAppend(s, x, p);
    if s == [] {
      assert s + [x] == [x];
    } else {
      var n := |s| - 1;
      InsertCount(s[..n], x, p);
      CountAppend(Insert(s[..n], x), s[n], p);
    }
  }

  lemma {:induction false} InsertAscending(s: seq<real>, x: real)
    requires Ascending(s)
    ensures Ascending(Insert(s, x))
  {
    if s != [] && s[|s| - 1] > x {
      var n := |s| - 1;
      InsertAscending(s[..n], x);
      InsertMembers(s[..n], x);
      var t := Insert(s[..n], x);
      forall i | 0 <= i < |t| ensures t[i] <= s[n] {
        assert t[i] in t;
      }
    }
  }

  lemma {:induction false} SortKeeps(s: seq<real>, p: real -> bool)
    ensures Ascending(Sort(s)) && |Sort(s)| == |s| && Count(Sort(s), p) == Count(s, p)
  {
    if s != [] {
      var n := |s| - 1;
      SortKeeps(s[..n], p);
      InsertAscending(Sort(s[..n]), s[n]);
      InsertCount(Sort(s[..n]), s[n], p);
    }
  }

  function AtMost(m: real): real -> bool { (x: real) => x <= m }
  function AtLeast(m: real): real -> bool { (x: real) => x >= m }
  function Within(lo: real, hi: real): real -> bool { (x: real) => lo <= x <= hi }

  lemma {:induction false} CountStretch(s: seq<real>, p: real -> bool, from: nat, to: nat)
    requires from <= to <= |s| && forall i :: from <= i < to ==> p(s[i])
    ensures Count(s, p) >= to - from
  {
    if from < to {
      var n := |s| - 1;
      if to == |s| {
        CountStretch(s[..n], p, from, n);
      } else {
        CountStretch(s[..n], p, from, to);
      }
    }
  }

  lemma {:induction false} MiddleSplits(t: seq<real>)
    requires t != [] && Ascending(t)
    ensures forall i :: 0 <= i < |t| - |t| / 2 ==> t[i] <= Middle(t)
    ensures forall i :: |t| / 2 <= i < |t| ==> t[i] >= Middle(t)
  {
    var k := |t| / 2;
    if |t| == 2 * k {
      assert t[k - 1] <= t[k];
      assert t[k - 1] <= Middle(t) <= t[k];
    }
  }

  /** At least half of the samples are at or below the median and at least half at or above it. */
  lemma {:induction false} MedianSplits(s: seq<real>)
    requires s != []
    ensures 2 * Count(s, AtMost(Median(s))) >= |s| && 2 * Count(s, AtLeast(Median(s))) >= |s|
  {
    var t, m := Sort(s), Median(s);
    SortKeeps(s, AtMost(m));
    SortKeeps(s, AtLeast(m));
    MiddleSplits(t);
    CountStretch(t, AtMost(m), 0, |t| - |t| / 2);
    CountStretch(t, AtLeast(m), |t| / 2, |t|);
  }

  lemma {:induction false} CountDisjoint(s: seq<real>, p: real -> bool, q: real -> bool)
    requires forall x :: !(p(x) && q(x))
    ensures Count(s, p) + Count(s, q) <= |s|
  {
    if s != [] {
      CountDisjoint(s[..|s| - 1], p, q);
    }
  }

  /** A minority of stray samples cannot carry the baseline away: while more than half of the samples lie in a range,
      so does the median. */
  lemma {:induction false} MedianRobust(s: seq<real>, lo: real, hi: real)
    requires s != [] && 2 * Count(s, Within(lo, hi)) > |s|
    ensures lo <= Median(s) <= hi
  {
    var m := Median(s);
    MedianSplits(s);
    if m < lo {
      CountDisjoint(s, Within(lo, hi), AtMost(m));
    }
    if m > hi {
      CountDisjoint(s, Within(lo, hi), AtLeast(m));
    }
  }

  // -- Larger samples, larger median ------------------------------------------------------------------------

  function Above(y: real): real -> bool { (x: real) => x > y }

  /** The i-th smallest sample is at most `y` exactly when more than i samples are. */
  lemma {:induction false} OrderStatistic(s: seq<real>, i: nat, y: real)
    requires i < |s|
    ensures |Sort(s)| == |s| && (Sort(s)[i] <= y <==> Count(s, AtMost(y)) > i)
  {
    var t := Sort(s);
    SortKeeps(s, AtMost(y));
    if t[i] <= y {
      CountStretch(t, AtMost(y), 0, i + 1);
    } else {
      CountStretch(t, Above(y), i, |t|);
      CountDisjoint(t, AtMost(y), Above(y));
    }
  }

  /** Each sample of the one is at most `k` times that of the other. */
  ghost predicate AtMostScaled(s: seq<real>, s': seq<real>, k: real) {
    |s| == |s'| && forall i :: 0 <= i < |s| ==> ScaledBound(s[i], s'[i], k)
  }

  predicate ScaledBound(x: real, x': real, k: real) { x' <= k * x }

  lemma ScaleBound(x: real, x': real, y: real, k: real)
    requires ScaledBound(x, x', k) && k >= 0.0 && x <= y
    ensures x' <= k * y
  {
    ProductNonNegative(k, y - x);
    Distribute(k, y, -x);
  }

  lemma {:induction false} ScaledCount(s: seq<real>, s': seq<real>, k: real, y: real, z: real)
    requires AtMostScaled(s, s', k) && k >= 0.0 && z == k * y
    ensures Count(s, AtMost(y)) <= Count(s', AtMost(z))
  {
    if s != [] {
      var n := |s| - 1;
      forall i | 0 <= i < n ensures ScaledBound(s[..n][i], s'[..n][i], k) {
        assert ScaledBound(s[i], s'[i], k);
      }
      ScaledCount(s[..n], s'[..n], k, y, z);
      assert ScaledBound(s[n], s'[n], k);
      if s[n] <= y {
        ScaleBound(s[n], s'[n], y, k);
      }
    }
  }

  lemma {:induction false} ScaledOrderAt(s: seq<real>, s': seq<real>, k: real, i: nat, y: real, z: real)
    requires AtMostScaled(s, s', k) && k >= 0.0 && i < |s| && z == k * y
    ensures |Sort(s)| == |s| == |Sort(s')| && (Sort(s)[i] <= y ==> Sort(s')[i] <= z)
  {
    ScaledCount(s, s', k, y, z);
    OrderStatistic(s, i, y);
    OrderStatistic(s', i, z);
  }

  lemma {:induction false} ScaledOrder(s: seq<real>, s': seq<real>, k: real, i: nat)
    requires AtMostScaled(s, s', k) && k >= 0.0 && i < |s|
    ensures |Sort(s)| == |s| == |Sort(s')| && ScaledBound(Sort(s)[i], Sort(s')[i], k)
  {
    SortKeeps(s, AtMost(0.0));
    var y := Sort(s)[i];
    var z := k * y;
    ScaledOrderAt(s, s', k, i, y, z);
    assert ScaledBound(y, Sort(s')[i], k);
  }

  lemma HalfSum(a: real, b: real, a': real, b': real, k: real)
    requires a' <= k * a && b' <= k * b
    ensures (a' + b') / 2.0 <= k * ((a + b) / 2.0)
  {
    Distribute(k, a / 2.0, b / 2.0);
  }

  lemma {:induction false} MiddleScaled(t: seq<real>, t': seq<real>, k: real)
    requires t != [] && AtMostScaled(t, t', k)
    ensures Middle(t') <= k * Middle(t)
  {
    var h := |t| / 2;
    assert ScaledBound(t[h], t'[h], k);
    if |t| == 2 * h {
      assert ScaledBound(t[h - 1], t'[h - 1], k);
      HalfSum(t[h - 1], t[h], t'[h - 1], t'[h], k);
    }
  }

  lemma {:induction false} SortScaled(s: seq<real>, s': seq<real>, k: real)
    requires AtMostScaled(s, s', k) && k >= 0.0
    ensures |Sort(s)| == |s| && AtMostScaled(Sort(s), Sort(s'), k)
  {
    SortKeeps(s, AtMost(0.0));
    SortKeeps(s', AtMost(0.0));
    forall i | 0 <= i < |s| ensures ScaledBound(Sort(s)[i], Sort(s')[i], k) {
      ScaledOrder(s, s', k, i);
    }
  }

  /** When each sample is at most `k` times its counterpart, so is the median. */
  lemma {:induction false} MedianScaled(s: seq<real>, s': seq<real>, k: real)
    requires s != [] && AtMostScaled(s, s', k) && k >= 0.0
    ensures Median(s') <= k * Median(s)
  {
    SortScaled(s, s', k);
    MiddleScaled(Sort(s), Sort(s'), k);
  }

  lemma {:induction false} InsertAdds(s: seq<real>, x: real)
    ensures multiset(Insert(s, x)) == multiset(s) + multiset{x}
  {
    if s != [] {
      var n := |s| - 1;
      assert s == s[..n] + [s[n]];
      InsertAdds(s[..n], x);
    }
  }

  /** Sorting gives the same samples in ascending order. */
  lemma {:induction false} SortPermutes(s: seq<real>)
    ensures multiset(Sort(s)) == multiset(s) && Ascending(Sort(s)) && |Sort(s)| == |s|
  {
    SortKeeps(s, AtMost(0.0));
    if s != [] {
      var n := |s| - 1;
      assert s == s[..n] + [s[n]];
      SortPermutes(s[..n]);
      InsertAdds(Sort(s[..n]), s[n]);
    }
  }

  /** The same samples, in ascending order. */
  ghost predicate IsSorted(t: seq<real>, s: seq<real>) {
    Ascending(t) && multiset(t) == multiset(s)
  }

  ghost predicate IsMiddle(m: real, t: seq<real>)
    requires t != []
  {
    if |t| % 2 == 1 then m == t[|t| / 2] else 2.0 * m == t[|t| / 2 - 1] + t[|t| / 2]
  }

  /** The median is the middle one of the samples in order, or half-way between the two middle ones. */
  lemma {:induction false} MedianIsMiddle(s: seq<real>)
    requires s != []
    ensures exists t :: IsSorted(t, s) && |t| == |s| && IsMiddle(Median(s), t)
  {
    SortPermutes(s);
    assert IsSorted(Sort(s), s);
  }
}
