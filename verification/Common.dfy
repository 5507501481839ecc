/** Small shared vocabulary: optional values, real-valued extrema, and the sequence
    operations the stateful trackers are specified with. */
module Common {

  datatype Option<+T> = None | Some(value: T)

  function Max(a: real, b: real): real {
    if a >= b then a else b
  }

  function Min(a: real, b: real): real {
    if a <= b then a else b
  }

  function Clamp(value: real, lower: real, upper: real): real {
    Min(Max(value, lower), upper)
  }

  /** The elements of `s` that satisfy `keep`, in order. */
  function Filter<T>(s: seq<T>, keep: T -> bool): seq<T> {
    if s == [] then []
    else
      var last := s[|s| - 1];
      Filter(s[..|s| - 1], keep) + (if keep(last) then [last] else [])
  }

  lemma {:induction false} FilterMembers<T>(s: seq<T>, keep: T -> bool)
    ensures forall x :: x in Filter(s, keep) <==> x in s && keep(x)
  {
    if s != [] {
      var n := |s| - 1;
      assert s == s[..n] + [s[n]];
      FilterMembers(s[..n], keep);
    }
  }

  function NotId(id: int): int -> bool { (y: int) => y != id }

  lemma {:induction false} FilterAppend<T>(s: seq<T>, x: T, keep: T -> bool)
    ensures Filter(s + [x], keep) == Filter(s, keep) + (if keep(x) then [x] else [])
  {
    assert (s + [x])[..|s|] == s;
  }

  lemma {:induction false} FilterConcat<T>(s: seq<T>, t: seq<T>, keep: T -> bool)
    ensures Filter(s + t, keep) == Filter(s, keep) + Filter(t, keep)
  {
    if t == [] {
      assert s + t == s;
    } else {
      var n := |t| - 1;
      assert s + t == (s + t[..n]) + [t[n]];
      FilterAppend(s + t[..n], t[n], keep);
      FilterConcat(s, t[..n], keep);
    }
  }

  /** Filtering by a laxer test first changes nothing. */
  lemma {:induction false} FilterTwice<T>(s: seq<T>, strict: T -> bool, lax: T -> bool)
    requires forall x :: x in s && strict(x) ==> lax(x)
    ensures Filter(Filter(s, lax), strict) == Filter(s, strict)
  {
    if s != [] {
      var n := |s| - 1;
      FilterTwice(s[..n], strict, lax);
      FilterAppend(Filter(s[..n], lax), s[n], strict);
      if !lax(s[n]) {
        assert Filter(s, lax) == Filter(s[..n], lax);
      }
    }
  }

  /** A test everything passes filters nothing out. */
  lemma {:induction false} FilterAll<T>(s: seq<T>, keep: T -> bool)
    requires forall x :: x in s ==> keep(x)
    ensures Filter(s, keep) == s
  {
    if s != [] {
      var n := |s| - 1;
      assert s == s[..n] + [s[n]];
      FilterAll(s[..n], keep);
    }
  }

  /** A test nothing passes filters everything out. */
  lemma {:induction false} FilterNone<T>(s: seq<T>, keep: T -> bool)
    requires forall x :: x in s ==> !keep(x)
    ensures Filter(s, keep) == []
  {
    if s != [] {
      FilterNone(s[..|s| - 1], keep);
    }
  }

  /** What holds of nothing, and of one more whenever it holds of what came before, holds of every sequence. */
  lemma {:induction false} FromTheEnd<T(!new)>(p: seq<T> -> bool, s: seq<T>)
    requires p([]) && forall t: seq<T>, x: T :: p(t) ==> p(t + [x])
    ensures p(s)
  {
    if s != [] {
      var n := |s| - 1;
      FromTheEnd(p, s[..n]);
      assert s[..n] + [s[n]] == s;
    }
  }

  /** Each of `outs` is what `f` gives for the elements up to there. */
  ghost predicate TracksPrefixes<T, R>(f: seq<T> -> Option<R>, outs: seq<R>, s: seq<T>) {
    |outs| == |s| && forall i :: 0 <= i < |s| ==> f(s[..i + 1]) == Some(outs[i])
  }

  lemma {:induction false} PrefixesAppend<T, R>(f: seq<T> -> Option<R>, outs: seq<R>, s: seq<T>, out: R, x: T)
    requires TracksPrefixes(f, outs, s) && f(s + [x]) == Some(out)
    ensures TracksPrefixes(f, outs + [out], s + [x])
  {
    forall i | 0 <= i < |s + [x]| ensures f((s + [x])[..i + 1]) == Some((outs + [out])[i]) {
      if i < |s| {
        assert (s + [x])[..i + 1] == s[..i + 1];
      } else {
        assert (s + [x])[..i + 1] == s + [x];
      }
    }
  }

  /** How many elements of `s` satisfy `p`. */
  function Count<T>(s: seq<T>, p: T -> bool): nat {
    if s == [] then 0
    else Count(s[..|s| - 1], p) + (if p(s[|s| - 1]) then 1 else 0)
  }

  lemma {:induction false} CountAppend<T>(s: seq<T>, x: T, p: T -> bool)
    ensures Count(s + [x], p) == Count(s, p) + (if p(x) then 1 else 0)
  {
    assert (s + [x])[..|s|] == s;
  }

  lemma {:induction false} CountConcat<T>(s: seq<T>, t: seq<T>, p: T -> bool)
    ensures Count(s + t, p) == Count(s, p) + Count(t, p)
  {
    if t == [] {
      assert s + t == s;
    } else {
      var n := |t| - 1;
      assert s + t == (s + t[..n]) + [t[n]];
      CountAppend(s + t[..n], t[n], p);
      CountConcat(s, t[..n], p);
    }
  }

  lemma {:induction false} CountNone<T>(s: seq<T>, p: T -> bool)
    requires forall x :: x in s ==> !p(x)
    ensures Count(s, p) == 0
  {
    if s != [] {
      CountNone(s[..|s| - 1], p);
    }
  }

  /** What a filter keeps and what it drops make up the whole. */
  lemma {:induction false} CountSplit<T>(s: seq<T>, p: T -> bool, keep: T -> bool, drop: T -> bool)
    requires forall x :: x in s ==> (drop(x) <==> !keep(x))
    ensures Count(s, p) == Count(Filter(s, keep), p) + Count(Filter(s, drop), p)
  {
    if s != [] {
      var n := |s| - 1;
      CountSplit(s[..n], p, keep, drop);
      CountAppend(Filter(s[..n], keep), s[n], p);
      CountAppend(Filter(s[..n], drop), s[n], p);
      if keep(s[n]) {
        assert Filter(s, drop) == Filter(s[..n], drop);
      } else {
        assert Filter(s, keep) == Filter(s[..n], keep);
      }
    }
  }

  lemma {:induction false} CountWithout<T>(s: seq<T>, i: nat, p: T -> bool)
    requires i < |s|
    ensures Count(s, p) == Count(Without(s, i), p) + (if p(s[i]) then 1 else 0)
  {
    assert s == (s[..i] + [s[i]]) + s[i + 1..];
    CountConcat(s[..i] + [s[i]], s[i + 1..], p);
    CountAppend(s[..i], s[i], p);
    CountConcat(s[..i], s[i + 1..], p);
  }

  function Without<T>(s: seq<T>, i: nat): seq<T>
    requires i < |s|
  {
    s[..i] + s[i + 1..]
  }

  ghost predicate Distinct<T>(s: seq<T>) {
    forall i, j :: 0 <= i < j < |s| ==> s[i] != s[j]
  }

  lemma {:induction false} DistinctFilter(s: seq<int>, keep: int -> bool)
    requires Distinct(s)
    ensures Distinct(Filter(s, keep))
  {
    if s != [] {
      var n := |s| - 1;
      DistinctFilter(s[..n], keep);
      FilterMembers(s[..n], keep);
      var r0 := Filter(s[..n], keep);
      forall i | 0 <= i < |r0| ensures r0[i] != s[n] {
        assert r0[i] in s[..n];
      }
    }
  }
}
