/** Rolling windows kept as a queue whose stale front entries are popped. */
module Window {

  /** What is left after popping the front while it is stale. */
  function DropWhile<T>(s: seq<T>, stale: T -> bool): (r: seq<T>)
    ensures |r| <= |s|
  {
    if s != [] && stale(s[0]) then DropWhile(s[1..], stale) else s
  }

  /** The pop loop shared by every rolling window. */
  method PopStale<T>(s: seq<T>, stale: T -> bool) returns (r: seq<T>)
    ensures r == DropWhile(s, stale)
  {
    r := s;
    while r != [] && stale(r[0])
      invariant DropWhile(r, stale) == DropWhile(s, stale)
    {
      r := r[1..];
    }
  }

  /** The same for every queue of a dictionary. */
  method PopAllStale<K, T>(m: map<K, seq<T>>, stale: T -> bool) returns (r: map<K, seq<T>>)
    ensures r == map k | k in m :: DropWhile(m[k], stale)
  {
    r := m;
    var todo := m.Keys;
    while todo != {}
      invariant todo <= m.Keys && r.Keys == m.Keys
      invariant forall k :: k in m && k in todo ==> r[k] == m[k]
      invariant forall k :: k in m && k !in todo ==> r[k] == DropWhile(m[k], stale)
      decreases todo
    {
      var k :| k in todo;
      var q := PopStale(r[k], stale);
      r := r[k := q];
      todo := todo - {k};
    }
  }

  /** Popping removes exactly the stale prefix: it stops at the first fresh entry. */
  lemma {:induction false} DropWhileIsSuffix<T>(s: seq<T>, stale: T -> bool)
    ensures var r := DropWhile(s, stale);
            && r == s[|s| - |r|..]
            && (forall i :: 0 <= i < |s| - |r| ==> stale(s[i]))
            && (r != [] ==> !stale(r[0]))
  {
    if s != [] && stale(s[0]) {
      DropWhileIsSuffix(s[1..], stale);
      var r := DropWhile(s, stale);
      forall i | 0 <= i < |s| - |r| ensures stale(s[i]) {
        assert i > 0 ==> s[1..][i - 1] == s[i];
      }
    }
  }

  /** The suffix from the first fresh entry is the only result popping can have. */
  lemma {:induction false} DropWhileUnique<T>(s: seq<T>, stale: T -> bool, k: nat)
    requires k <= |s|
    requires forall i :: 0 <= i < k ==> stale(s[i])
    requires k < |s| ==> !stale(s[k])
    ensures DropWhile(s, stale) == s[k..]
  {
    if k > 0 {
      assert stale(s[0]);
      DropWhileUnique(s[1..], stale, k - 1);
    }
  }

  /** What was popped early would have been popped late. */
  lemma {:induction false} StaleBefore<T>(s: seq<T>, d: nat, late: T -> bool, k: nat)
    requires d <= |s| && k <= |s| - d
    requires forall i :: 0 <= i < d ==> late(s[i])
    requires forall i :: 0 <= i < k ==> late(s[d..][i])
    ensures forall i :: 0 <= i < d + k ==> late(s[i])
  {
    forall i | d <= i < d + k ensures late(s[i]) {
      assert s[d..][i - d] == s[i];
    }
  }

  /** Dropping a stale front beforehand changes nothing. */
  lemma {:induction false} DropWhileSkips<T>(s: seq<T>, d: nat, late: T -> bool)
    requires d <= |s| && forall i :: 0 <= i < d ==> late(s[i])
    ensures DropWhile(s[d..], late) == DropWhile(s, late)
  {
    DropWhileIsSuffix(s[d..], late);
    var rest := DropWhile(s[d..], late);
    var k := |s| - d - |rest|;
    StaleBefore(s, d, late, k);
    assert rest == s[d + k..];
    DropWhileUnique(s, late, d + k);
  }

  /** Pruning as one goes is pruning once at the end: entries popped under an earlier, more lenient test
      would have been popped anyway, so the queue is always the suffix of the whole history. */
  lemma {:induction false} DropWhileResumes<T>(s: seq<T>, t: seq<T>, early: T -> bool, late: T -> bool)
    requires forall x :: x in s && early(x) ==> late(x)
    ensures DropWhile(DropWhile(s, early) + t, late) == DropWhile(s + t, late)
  {
    DropWhileIsSuffix(s, early);
    var d := |s| - |DropWhile(s, early)|;
    assert DropWhile(s, early) + t == (s + t)[d..];
    forall i | 0 <= i < d ensures late((s + t)[i]) {
      assert s[i] in s;
    }
    DropWhileSkips(s + t, d, late);
  }

  /** No fresh entry is lost, wherever in the queue it stands. */
  lemma {:induction false} FreshSurvives<T>(s: seq<T>, stale: T -> bool, x: T)
    requires !stale(x)
    ensures multiset(DropWhile(s, stale))[x] == multiset(s)[x]
  {
    if s != [] && stale(s[0]) {
      assert s == [s[0]] + s[1..];
      FreshSurvives(s[1..], stale, x);
    }
  }

  lemma {:induction false} FreshMeansSome<T>(s: seq<T>, i: nat, stale: T -> bool)
    requires i < |s| && !stale(s[i])
    ensures DropWhile(s, stale) != []
  {
    DropWhileIsSuffix(s, stale);
  }

  /** A fresh entry at the end stays there. */
  lemma {:induction false} DropWhileKeepsLast<T>(s: seq<T>, x: T, stale: T -> bool)
    requires !stale(x)
    ensures DropWhile(s + [x], stale) == DropWhile(s, stale) + [x]
  {
    if s == [] {
      assert s + [x] == [x];
    } else {
      assert (s + [x])[1..] == s[1..] + [x];
      if stale(s[0]) {
        DropWhileKeepsLast(s[1..], x, stale);
      }
    }
  }

  /** Once an entry is fresh, everything behind it stays. */
  lemma {:induction false} DropWhileStops<T>(s: seq<T>, t: seq<T>, stale: T -> bool)
    requires DropWhile(s, stale) != []
    ensures DropWhile(s + t, stale) == DropWhile(s, stale) + t
  {
    if s != [] {
      assert (s + t)[1..] == s[1..] + t;
      if stale(s[0]) {
        DropWhileStops(s[1..], t, stale);
      }
    }
  }
}
