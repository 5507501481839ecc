/** Sign-in rate limiting (backend/app/auth/rate_limit.py): a bounded memory of failures that decides as the
    complete log of failures would. */
module RateLimit {
  import opened Common
  import opened Window

  function Expired(cutoff: real): real -> bool { (t: real) => t <= cutoff }
  function Live(cutoff: real): real -> bool { (t: real) => t > cutoff }

  /** The definition: how many failures of the full log lie inside the window at time `at`. */
  function Inside(log: seq<real>, window: real, at: real): nat {
    Count(log, Live(at - window))
  }

  /** The definition: may the key try again at time `at`, if nothing else fails until then? */
  predicate Permits(log: seq<real>, max: nat, window: real, at: real) {
    Inside(log, window, at) < max
  }

  ghost predicate Ascending(log: seq<real>) {
    forall i, j :: 0 <= i < j < |log| ==> log[i] <= log[j]
  }

  /** In an ascending log, having `k` live failures is the k-th youngest being live. */
  lemma {:induction false} LiveCount(log: seq<real>, cutoff: real, k: nat)
    requires Ascending(log) && k >= 1
    ensures Count(log, Live(cutoff)) >= k <==> k <= |log| && log[|log| - k] > cutoff
  {
    if log == [] {
    } else {
      var n := |log| - 1;
      if log[n] <= cutoff {
        CountNone(log, Live(cutoff));
      } else if k > 1 {
        LiveCount(log[..n], cutoff, k - 1);
      }
    }
  }

  /** The least delay: the window must pass over the max-th youngest failure. */
  lemma {:induction false} PermitsFrom(log: seq<real>, max: nat, window: real, at: real)
    requires Ascending(log) && max >= 1
    ensures Permits(log, max, window, at) <==> |log| < max || at >= log[|log| - max] + window
  {
    LiveCount(log, at - window, max);
  }

  /** What the limiter keeps of a log: a suffix that misses only failures which are out of the window at
      `clock`, or which have `max` younger ones behind them. */
  ghost predicate Keeps(kept: seq<real>, log: seq<real>, max: nat, window: real, clock: real) {
    && |kept| <= |log| && |kept| <= max && kept == log[|log| - |kept|..]
    && forall i :: 0 <= i < |log| - |kept| ==> i < |log| - max || log[i] + window <= clock
  }

  /** The bounded memory answers as the full log does, now and at any later time. */
  lemma {:induction false} KeptDecides(kept: seq<real>, log: seq<real>, max: nat, window: real, clock: real, at: real)
    requires Ascending(log) && max >= 1 && Keeps(kept, log, max, window, clock) && clock <= at
    ensures |kept| == max ==> |log| >= max && kept[0] == log[|log| - max]
    ensures |kept| < max ==> Permits(log, max, window, at)
  {
    PermitsFrom(log, max, window, at);
    if |kept| < max <= |log| {
      assert log[|log| - max] + window <= clock;
    }
  }

  /** The memory of one key, against its log, as of `clock`. */
  ghost predicate Sound(kept: seq<real>, log: seq<real>, max: nat, window: real, clock: real) {
    Ascending(log) && (forall t :: t in log ==> t <= clock) && Keeps(kept, log, max, window, clock)
  }

  lemma SoundLater(kept: seq<real>, log: seq<real>, max: nat, window: real, clock: real, now: real)
    requires Sound(kept, log, max, window, clock) && clock <= now
    ensures Sound(kept, log, max, window, now)
  {
  }

  /** Popping the aged failures keeps the memory sound. */
  lemma {:induction false} SoundPruned(kept: seq<real>, log: seq<real>, max: nat, window: real, clock: real, now: real)
    requires Sound(kept, log, max, window, clock) && clock <= now
    ensures Sound(DropWhile(kept, Expired(now - window)), log, max, window, now)
  {
    var rest := DropWhile(kept, Expired(now - window));
    var d := |log| - |kept|;
    DropWhileIsSuffix(kept, Expired(now - window));
    forall i | 0 <= i < |log| - |rest| ensures i < |log| - max || log[i] + window <= now {
      if i >= d {
        assert kept[i - d] == log[i];
      }
    }
  }

  /** Remembering one more failure, and only the youngest `max`, keeps the memory sound. */
  lemma {:induction false} SoundRecorded(kept: seq<real>, log: seq<real>, max: nat, window: real, clock: real,
                                         now: real)
    requires Sound(kept, log, max, window, clock) && clock <= now && max >= 1
    ensures Sound(if |kept| < max then kept + [now] else (kept + [now])[1..], log + [now], max, window, now)
  {
    var kept' := if |kept| < max then kept + [now] else (kept + [now])[1..];
    var log' := log + [now];
    forall i | 0 <= i < |log| ensures log'[i] <= now {
      assert log[i] in log;
    }
    forall i | 0 <= i < |log'| - |kept'| ensures i < |log'| - max || log'[i] + window <= now {
      if i < |log| - |kept| {
        assert log'[i] == log[i];
      }
    }
  }

  /** When the memory is full after pruning, the key is refused, and exactly until its oldest kept failure leaves the
      window. */
  lemma {:induction false} Verdict(kept: seq<real>, log: seq<real>, max: nat, window: real, now: real)
    requires max >= 1 && Sound(kept, log, max, window, now) && (kept != [] ==> kept[0] > now - window)
    ensures |kept| < max <==> Permits(log, max, window, now)
    ensures |kept| >= max ==> forall at :: at >= now ==> (Permits(log, max, window, at) <==> at >= kept[0] + window)
  {
    KeptDecides(kept, log, max, window, now, now);
    forall at | at >= now && |kept| >= max ensures Permits(log, max, window, at) <==> at >= kept[0] + window {
      PermitsFrom(log, max, window, at);
    }
    PermitsFrom(log, max, window, now);
  }

  /** A dictionary of failures, an absent key standing for none. */
  function At<Key>(m: map<Key, seq<real>>, key: Key): seq<real> {
    if key in m then m[key] else []
  }

  ghost predicate AllSound<Key(!new)>(failures: map<Key, seq<real>>, logs: map<Key, seq<real>>, max: nat, window: real,
                                      clock: real) {
    forall key :: Sound(At(failures, key), At(logs, key), max, window, clock)
  }

  lemma {:induction false} AllSoundLater<Key(!new)>(failures: map<Key, seq<real>>, logs: map<Key, seq<real>>, max: nat,
                                                    window: real, clock: real, now: real)
    requires AllSound(failures, logs, max, window, clock) && clock <= now
    ensures AllSound(failures, logs, max, window, now)
  {
    forall key ensures Sound(At(failures, key), At(logs, key), max, window, now) {
      SoundLater(At(failures, key), At(logs, key), max, window, clock, now);
    }
  }

  /** Changing what is known of one key. */
  lemma {:induction false} AllSoundPut<Key(!new)>(failures: map<Key, seq<real>>, failures': map<Key, seq<real>>,
                               logs: map<Key, seq<real>>, logs': map<Key, seq<real>>,
                               key: Key, max: nat, window: real, clock: real)
    requires AllSound(failures, logs, max, window, clock)
    requires Sound(At(failures', key), At(logs', key), max, window, clock)
    requires forall y :: y != key ==> At(failures', y) == At(failures, y) && At(logs', y) == At(logs, y)
    ensures AllSound(failures', logs', max, window, clock)
  {
    forall y ensures Sound(At(failures', y), At(logs', y), max, window, clock) {
      assert Sound(At(failures, y), At(logs, y), max, window, clock);
    }
  }

  lemma {:induction false} PutSound<Key(!new)>(failures: map<Key, seq<real>>, failures': map<Key, seq<real>>,
                            logs: map<Key, seq<real>>, logs': map<Key, seq<real>>,
                            key: Key, kept: seq<real>, log: seq<real>, max: nat, window: real, clock: real)
    requires AllSound(failures, logs, max, window, clock) && Sound(kept, log, max, window, clock)
    requires failures' == failures[key := kept] && logs' == logs[key := log]
    ensures AllSound(failures', logs', max, window, clock)
  {
    AllSoundPut(failures, failures', logs, logs', key, max, window, clock);
  }

  /** A key without failures is not kept in the dictionary. */
  function Put<Key(!new)>(m: map<Key, seq<real>>, key: Key, kept: seq<real>): (r: map<Key, seq<real>>)
    ensures At(r, key) == kept
    ensures forall y :: y != key ==> At(r, y) == At(m, y)
  {
    if kept == [] then m - {key} else m[key := kept]
  }

  lemma {:induction false} PutPruned<Key(!new)>(failures: map<Key, seq<real>>, logs: map<Key, seq<real>>, key: Key,
                             max: nat, window: real, clock: real, now: real)
    requires AllSound(failures, logs, max, window, clock) && clock <= now
    ensures AllSound(Put(failures, key, DropWhile(At(failures, key), Expired(now - window))), logs, max, window, now)
  {
    AllSoundLater(failures, logs, max, window, clock, now);
    assert Sound(At(failures, key), At(logs, key), max, window, now);
    SoundPruned(At(failures, key), At(logs, key), max, window, now, now);
    AllSoundPut(failures, Put(failures, key, DropWhile(At(failures, key), Expired(now - window))), logs, logs, key,
                max, window, now);
  }

  lemma {:induction false} PutRecorded<Key(!new)>(failures: map<Key, seq<real>>, logs: map<Key, seq<real>>, key: Key,
                                                  kept: seq<real>, max: nat, window: real, clock: real, now: real)
    requires AllSound(failures, logs, max, window, clock) && clock <= now && max >= 1
    requires var f := At(failures, key); kept == if |f| < max then f + [now] else (f + [now])[1..]
    ensures AllSound(failures[key := kept], logs[key := At(logs, key) + [now]], max, window, now)
  {
    AllSoundLater(failures, logs, max, window, clock, now);
    assert Sound(At(failures, key), At(logs, key), max, window, now);
    SoundRecorded(At(failures, key), At(logs, key), max, window, now, now);
    var log' := At(logs, key) + [now];
    assert Sound(kept, log', max, window, now);
    PutSound(failures, failures[key := kept], logs, logs[key := log'], key, kept, log', max, window, now);
  }

  class LoginRateLimiter<Key(==, !new)> {
    const maxFailures: nat
    const window: real
    var failures: map<Key, seq<real>>
    ghost var logs: map<Key, seq<real>>  // every failure of a key since its last reset
    ghost var clock: real                // the latest reading of the clock

    ghost predicate Valid()
      reads this
    {
      && maxFailures >= 1 && window > 0.0
      && AllSound(failures, logs, maxFailures, window, clock)
      && forall key :: key in failures ==> failures[key] != []
    }

    constructor (maxFailures: nat, window: real, ghost start: real)
      requires maxFailures >= 1 && window > 0.0
      ensures Valid() && this.maxFailures == maxFailures && this.window == window
      ensures logs == map[] && clock == start
    {
      this.maxFailures, this.window := maxFailures, window;
      failures, logs, clock := map[], map[], start;
    }

    /** Drop the failures that have aged out by `now`. */
    method Prune(key: Key, now: real) returns (kept: Option<seq<real>>)
      requires Valid() && clock <= now
      modifies this`failures, this`clock
      ensures Valid() && clock == now
      ensures At(failures, key) == DropWhile(At(old(failures), key), Expired(now - window))
      ensures kept == if At(failures, key) == [] then None else Some(At(failures, key))
      ensures forall y :: y != key ==> At(failures, y) == At(old(failures), y)
    {
      PutPruned(failures, logs, key, maxFailures, window, clock, now);
      clock := now;
      if key !in failures {
        assert failures - {key} == failures;
        return None;
      }
      ghost var before := failures;
      var rest := PopStale(failures[key], Expired(now - window));
      if rest == [] {
        failures := failures - {key};
        kept := None;
      } else {
        failures := failures[key := rest];
        kept := Some(rest);
      }
      assert failures == Put(before, key, rest);
    }

    /** Seconds until the key may try again, or nothing when it may try now. The clock is read twice: for the
        pruning (`t1`), and for the wait (`t2`). */
    method Check(key: Key, t1: real, t2: real) returns (wait: Option<real>)
      requires Valid() && clock <= t1 <= t2
      modifies this`failures, this`clock
      ensures Valid() && clock == t2
      ensures wait.None? <==> Permits(At(logs, key), maxFailures, window, t1)
      ensures wait.Some? ==> wait.value >= 0.0
      ensures wait.Some? ==> forall at :: at >= t2 ==>
                (Permits(At(logs, key), maxFailures, window, at) <==> at - t2 >= wait.value)
    {
      DropWhileIsSuffix(At(failures, key), Expired(t1 - window));
      var kept := Prune(key, t1);
      assert Sound(At(failures, key), At(logs, key), maxFailures, window, t1);
      Verdict(At(failures, key), At(logs, key), maxFailures, window, t1);
      AllSoundLater(failures, logs, maxFailures, window, t1, t2);
      clock := t2;
      if kept.None? || |kept.value| < maxFailures {
        wait := None;
      } else {
        wait := Some(Max(0.0, kept.value[0] + window - t2));
      }
    }

    method RecordFailure(key: Key, now: real)
      requires Valid() && clock <= now
      modifies this
      ensures Valid() && clock == now
      ensures At(logs, key) == At(old(logs), key) + [now]
      ensures forall y :: y != key ==> At(logs, y) == At(old(logs), y) && At(failures, y) == At(old(failures), y)
    {
      ghost var before, known := failures, logs;
      var appended := At(failures, key) + [now];
      assert |At(failures, key)| <= maxFailures by {
        assert Sound(At(failures, key), At(logs, key), maxFailures, window, clock);
      }
      var kept := appended;
      while |kept| > maxFailures
        invariant failures == before && logs == known && clock == old(clock)
        invariant kept == appended || (|appended| > maxFailures && kept == appended[1..])
      {
        kept := kept[1..];
      }
      PutRecorded(failures, logs, key, kept, maxFailures, window, clock, now);
      failures := failures[key := kept];
      logs := logs[key := At(logs, key) + [now]];
      clock := now;
    }

    /** After a successful sign-in the key starts afresh. */
    method Reset(key: Key)
      requires Valid()
      modifies this`failures, this`logs
      ensures Valid() && At(logs, key) == []
      ensures forall y :: y != key ==> At(logs, y) == At(old(logs), y) && At(failures, y) == At(old(failures), y)
    {
      ghost var before, known := failures, logs;
      failures := failures - {key};
      logs := logs - {key};
      AllSoundPut(before, failures, known, logs, key, maxFailures, window, clock);
    }
  }
}
