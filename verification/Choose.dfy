/** The scan "keep the best candidate seen so far, replace it only when strictly beaten". */
module Choose {
  import opened Common

  function Best<T>(s: seq<T>, ok: T -> bool, key: T -> real): (r: Option<nat>)
    ensures r.Some? ==> r.value < |s| && ok(s[r.value])
  {
    if s == [] then None
    else
      var n := |s| - 1;
      var b := Best(s[..n], ok, key);
      if ok(s[n]) && (b.None? || key(s[n]) > key(s[b.value])) then Some(n) else b
  }

  /** The scan returns the first of the candidates with the largest key, if there is a candidate at all. */
  lemma {:induction false} BestIsFirstLargest<T>(s: seq<T>, ok: T -> bool, key: T -> real)
    ensures Best(s, ok, key).None? <==> forall i :: 0 <= i < |s| ==> !ok(s[i])
    ensures var b := Best(s, ok, key);
            b.Some? ==> forall i :: 0 <= i < |s| && ok(s[i]) ==>
                          key(s[i]) <= key(s[b.value]) && (i < b.value ==> key(s[i]) < key(s[b.value]))
  {
    if s != [] {
      var n := |s| - 1;
      BestIsFirstLargest(s[..n], ok, key);
      assert forall i :: 0 <= i < n ==> s[..n][i] == s[i];
    }
  }

  /** The scan over `s + [x]`. */
  lemma {:induction false} BestAppend<T>(s: seq<T>, x: T, ok: T -> bool, key: T -> real)
    ensures var b := Best(s, ok, key);
            Best(s + [x], ok, key) == if ok(x) && (b.None? || key(x) > key(s[b.value])) then Some(|s|) else b
  {
    assert (s + [x])[..|s|] == s;
  }

  lemma {:induction false} WithoutFilter<T>(s: seq<T>, x: T, i: nat, live: T -> bool)
    requires i < |s|
    ensures Without(s + [x], i) == Without(s, i) + [x]
    ensures Filter(Without(s + [x], i), live) == Filter(Without(s, i), live) + (if live(x) then [x] else [])
  {
    assert Without(s + [x], i) == Without(s, i) + [x];
    FilterAppend(Without(s, i), x, live);
  }

  ghost predicate SameChoice<T>(s: seq<T>, a: seq<T>, ok: T -> bool, key: T -> real, live: T -> bool) {
    var b, k := Best(s, ok, key), Best(a, ok, key);
    && (b.None? <==> k.None?)
    && (b.Some? ==> a[k.value] == s[b.value] && Filter(Without(s, b.value), live) == Without(a, k.value))
  }

  /** Discarding items that are no candidates beforehand changes neither the choice nor what is left after it. */
  lemma {:induction false} BestThroughFilter<T>(s: seq<T>, ok: T -> bool, key: T -> real, live: T -> bool)
    requires forall x :: x in s && ok(x) ==> live(x)
    ensures SameChoice(s, Filter(s, live), ok, key, live)
  {
    if s != [] {
      var n := |s| - 1;
      var s0, x := s[..n], s[n];
      assert s == s0 + [x];
      BestThroughFilter(s0, ok, key, live);
      BestAppend(s0, x, ok, key);
      if live(x) {
        LiveStep(s0, x, ok, key, live);
      } else {
        FilterAppend(s0, x, live);
        assert Filter(s, live) == Filter(s0, live);
        DeadStep(s0, x, Filter(s0, live), ok, key, live);
      }
    }
  }

  lemma {:induction false} LiveStep<T>(s: seq<T>, x: T, ok: T -> bool, key: T -> real, live: T -> bool)
    requires SameChoice(s, Filter(s, live), ok, key, live) && live(x)
    ensures SameChoice(s + [x], Filter(s + [x], live), ok, key, live)
  {
    var a := Filter(s, live);
    FilterAppend(s, x, live);
    BestAppend(s, x, ok, key);
    BestAppend(a, x, ok, key);
    var b := Best(s + [x], ok, key);
    if b == Some(|s|) {
      assert Without(s + [x], |s|) == s && Without(a + [x], |a|) == a;
    } else if b.Some? {
      WithoutFilter(s, x, b.value, live);
      WithoutFilter(a, x, Best(a, ok, key).value, live);
    }
  }

  lemma {:induction false} DeadStep<T>(s: seq<T>, x: T, a: seq<T>, ok: T -> bool, key: T -> real, live: T -> bool)
    requires SameChoice(s, a, ok, key, live) && !live(x) && !ok(x)
    ensures SameChoice(s + [x], a, ok, key, live)
  {
    BestAppend(s, x, ok, key);
    var b := Best(s, ok, key);
    if b.Some? {
      WithoutFilter(s, x, b.value, live);
    }
  }
}
