/** Irregular readings resampled into a series of fixed cadence (ai/surgeguard_ai/forecast/observations.py).
    Instants are in seconds. */
module Observations {
  import opened Common

  datatype Reading = Reading(at: real, value: real)
  datatype Sample = Sample(at: real, value: real, readings: nat)
  datatype Change = Change(absolute: real, percentage: real)

  // -- The definition: readings cut into buckets -----------------------------------------------------------

  /** One more reading. The last bucket is the open one; the others are sealed. */
  function Ingest(interval: real, buckets: seq<seq<Reading>>, r: Reading): seq<seq<Reading>>
    requires [] !in buckets
  {
    if buckets == [] then [[r]]
    else
      var n := |buckets| - 1;
      var start := buckets[n][0].at;
      if r.at < start then [[r]]
      else if r.at - start < interval then Prolonged(buckets, r)
      else buckets + [[r]]
  }

  function Prolonged(buckets: seq<seq<Reading>>, r: Reading): seq<seq<Reading>>
    requires buckets != []
  {
    var n := |buckets| - 1;
    buckets[..n] + [buckets[n] + [r]]
  }

  /** When a reading closes the bucket before it: exactly from an interval past that bucket's first reading on. One that
      lies before the bucket drops everything, and any other joins it. */
  lemma {:induction false} SealsIff(interval: real, buckets: seq<seq<Reading>>, r: Reading)
    requires interval > 0.0 && [] !in buckets && buckets != []
    ensures var n, after := |buckets| - 1, Ingest(interval, buckets, r);
            var start := buckets[n][0].at;
            && (r.at >= start + interval ==> after == buckets + [[r]])
            && (start <= r.at < start + interval ==>
                  |after| == |buckets| && after[..n] == buckets[..n] && after[n] == buckets[n] + [r])
            && (r.at < start ==> after == [[r]])
  {
    assert buckets[|buckets| - 1] in buckets;
  }

  predicate Fits(interval: real, start: real, r: Reading) {
    0.0 <= r.at - start < interval
  }

  ghost predicate Bucketed(interval: real, b: seq<Reading>) {
    b != [] && forall i :: 0 <= i < |b| ==> Fits(interval, b[0].at, b[i])
  }

  predicate Apart(interval: real, a: seq<Reading>, b: seq<Reading>) {
    a != [] && b != [] && b[0].at - a[0].at >= interval
  }

  /** Every bucket holds readings less than an interval past its first; the next one starts no sooner than that. */
  ghost predicate IsResampling(interval: real, buckets: seq<seq<Reading>>) {
    && (forall i :: 0 <= i < |buckets| ==> Bucketed(interval, buckets[i]))
    && (forall i :: 0 < i < |buckets| ==> Apart(interval, buckets[i - 1], buckets[i]))
  }

  function Flatten(buckets: seq<seq<Reading>>): seq<Reading> {
    if buckets == [] then [] else buckets[0] + Flatten(buckets[1..])
  }

  lemma {:induction false} FlattenAppend(buckets: seq<seq<Reading>>, b: seq<Reading>)
    ensures Flatten(buckets + [b]) == Flatten(buckets) + b
  {
    if buckets == [] {
      assert [b][1..] == [];
    } else {
      FlattenAppend(buckets[1..], b);
      assert (buckets + [b])[1..] == buckets[1..] + [b];
    }
  }

  lemma {:induction false} NoneEmpty(interval: real, buckets: seq<seq<Reading>>)
    requires IsResampling(interval, buckets)
    ensures [] !in buckets
  {
    forall i | 0 <= i < |buckets| ensures buckets[i] != [] {
      assert Bucketed(interval, buckets[i]);
    }
  }

  lemma {:induction false} Prolongs(interval: real, buckets: seq<seq<Reading>>, r: Reading)
    requires IsResampling(interval, buckets) && buckets != []
    requires Bucketed(interval, buckets[|buckets| - 1]) && Fits(interval, buckets[|buckets| - 1][0].at, r)
    ensures var after := Prolonged(buckets, r);
            IsResampling(interval, after) && Flatten(after) == Flatten(buckets) + [r]
  {
    var n := |buckets| - 1;
    assert buckets == buckets[..n] + [buckets[n]];
    FlattenAppend(buckets[..n], buckets[n]);
    FlattenAppend(buckets[..n], buckets[n] + [r]);
    if n > 0 {
      assert Apart(interval, buckets[n - 1], buckets[n]);
    }
  }

  lemma {:induction false} Opens(interval: real, buckets: seq<seq<Reading>>, r: Reading)
    requires interval > 0.0 && IsResampling(interval, buckets)
    requires buckets == [] || Apart(interval, buckets[|buckets| - 1], [r])
    ensures IsResampling(interval, buckets + [[r]]) && Flatten(buckets + [[r]]) == Flatten(buckets) + [r]
  {
    FlattenAppend(buckets, [r]);
    assert Bucketed(interval, [r]);
  }

  /** A reading is lost only by a rewind behind the open bucket, which starts afresh; everything else since then is in
      exactly one bucket, in order. */
  lemma {:induction false} IngestKeeps(interval: real, buckets: seq<seq<Reading>>, r: Reading)
    requires interval > 0.0 && IsResampling(interval, buckets)
    ensures [] !in buckets
    ensures IsResampling(interval, Ingest(interval, buckets, r))
    ensures var rewound := buckets != [] && r.at < buckets[|buckets| - 1][0].at;
            Flatten(Ingest(interval, buckets, r)) == (if rewound then [] else Flatten(buckets)) + [r]
  {
    NoneEmpty(interval, buckets);
    Opens(interval, [], r);
    if buckets != [] {
      var b := buckets[|buckets| - 1];
      assert Bucketed(interval, b);
      if Fits(interval, b[0].at, r) {
        Prolongs(interval, buckets, r);
      } else if r.at >= b[0].at {
        Opens(interval, buckets, r);
      } else {
        assert Ingest(interval, buckets, r) == [] + [[r]];
      }
    }
  }

  predicate Rewinds(buckets: seq<seq<Reading>>, r: Reading)
    requires [] !in buckets
  {
    buckets != [] && r.at < buckets[|buckets| - 1][0].at
  }

  /** The buckets after a whole run of readings. */
  ghost function IngestAll(interval: real, rs: seq<Reading>): (buckets: seq<seq<Reading>>)
    requires interval > 0.0
    ensures IsResampling(interval, buckets) && [] !in buckets
  {
    if rs == [] then []
    else
      var before, r := IngestAll(interval, rs[..|rs| - 1]), rs[|rs| - 1];
      IngestKeeps(interval, before, r);
      NoneEmpty(interval, Ingest(interval, before, r));
      Ingest(interval, before, r)
  }

  /** Where the last rewind of a run happened. */
  ghost function LastRewind(interval: real, rs: seq<Reading>): (k: nat)
    requires interval > 0.0
    ensures k <= |rs|
  {
    if rs == [] then 0
    else
      var n := |rs| - 1;
      if Rewinds(IngestAll(interval, rs[..n]), rs[n]) then n else LastRewind(interval, rs[..n])
  }

  lemma {:induction false} SuffixGrows(rs: seq<Reading>, k: nat)
    requires k < |rs|
    ensures rs[k..] == rs[..|rs| - 1][k..] + [rs[|rs| - 1]]
  {
  }

  /** Over every run, however irregular: the buckets are a resampling of exactly the readings since the last rewind. */
  lemma {:induction false} RunIsResampled(interval: real, rs: seq<Reading>)
    requires interval > 0.0
    ensures IsResampling(interval, IngestAll(interval, rs))
    ensures Flatten(IngestAll(interval, rs)) == rs[LastRewind(interval, rs)..]
  {
    if rs != [] {
      var n := |rs| - 1;
      RunIsResampled(interval, rs[..n]);
      IngestKeeps(interval, IngestAll(interval, rs[..n]), rs[n]);
      SuffixGrows(rs, LastRewind(interval, rs[..n]));
      SuffixGrows(rs, n);
    }
  }

  lemma {:induction false} FirstBucketFits(interval: real, a: seq<seq<Reading>>, k: nat)
    requires IsResampling(interval, a) && a != [] && k < |a[0]|
    ensures k < |Flatten(a)| && Fits(interval, Flatten(a)[0].at, Flatten(a)[k])
  {
    assert Bucketed(interval, a[0]);
  }

  lemma {:induction false} SecondBucketDoesNot(interval: real, a: seq<seq<Reading>>)
    requires IsResampling(interval, a) && a != [] && |a[0]| < |Flatten(a)|
    ensures !Fits(interval, Flatten(a)[0].at, Flatten(a)[|a[0]|])
  {
    assert Bucketed(interval, a[0]);
    assert Flatten(a[1..]) == Flatten(a)[|a[0]|..];
    assert Apart(interval, a[0], a[1]);
    assert Flatten(a[1..])[0] == a[1][0];
  }

  /** How much of the readings the first bucket takes is forced. */
  lemma {:induction false} FirstBucketNotLonger(interval: real, a: seq<seq<Reading>>, b: seq<seq<Reading>>)
    requires IsResampling(interval, a) && IsResampling(interval, b) && a != [] && b != []
    requires Flatten(a) == Flatten(b)
    ensures |a[0]| >= |b[0]|
  {
    if |a[0]| < |b[0]| {
      FirstBucketFits(interval, b, |a[0]|);
      SecondBucketDoesNot(interval, a);
    }
  }

  lemma {:induction false} FlattenNonEmpty(interval: real, a: seq<seq<Reading>>)
    requires IsResampling(interval, a)
    ensures a == [] <==> Flatten(a) == []
  {
    if a != [] {
      assert Bucketed(interval, a[0]);
    }
  }

  lemma {:induction false} TailIsResampling(interval: real, a: seq<seq<Reading>>)
    requires IsResampling(interval, a) && a != []
    ensures IsResampling(interval, a[1..]) && Flatten(a[1..]) == Flatten(a)[|a[0]|..]
  {
    forall i | 0 < i < |a[1..]| ensures Apart(interval, a[1..][i - 1], a[1..][i]) {
      assert Apart(interval, a[i], a[i + 1]);
    }
  }

  /** The buckets are a function of the readings: any way to cut the same readings that obeys the rules is the same. */
  lemma {:induction false} ResamplingUnique(interval: real, a: seq<seq<Reading>>, b: seq<seq<Reading>>)
    requires IsResampling(interval, a) && IsResampling(interval, b) && Flatten(a) == Flatten(b)
    ensures a == b
    decreases |a|
  {
    FlattenNonEmpty(interval, a);
    FlattenNonEmpty(interval, b);
    if a != [] {
      FirstBucketNotLonger(interval, a, b);
      FirstBucketNotLonger(interval, b, a);
      TailIsResampling(interval, a);
      TailIsResampling(interval, b);
      assert a[0] == Flatten(a)[..|a[0]|] && b[0] == Flatten(b)[..|b[0]|];
      ResamplingUnique(interval, a[1..], b[1..]);
      assert a == [a[0]] + a[1..] && b == [b[0]] + b[1..];
    }
  }

  // -- The samples -----------------------------------------------------------------------------------------

  function Sum(b: seq<Reading>): real {
    if b == [] then 0.0 else Sum(b[..|b| - 1]) + b[|b| - 1].value
  }

  function Mean(total: real, count: nat): real
    requires count > 0
  {
    total / count as real
  }

  function SampleOf(interval: real, b: seq<Reading>): Sample
    requires b != []
  {
    Sample(b[0].at + interval, Mean(Sum(b), |b|), |b|)
  }

  function SamplesOf(interval: real, buckets: seq<seq<Reading>>): seq<Sample>
    requires [] !in buckets
  {
    if buckets == [] then []
    else SamplesOf(interval, buckets[..|buckets| - 1]) + [SampleOf(interval, buckets[|buckets| - 1])]
  }

  function Sealed(buckets: seq<seq<Reading>>): seq<seq<Reading>> {
    if buckets == [] then [] else buckets[..|buckets| - 1]
  }

  /** All samples sealed since the restart. */
  function Series(interval: real, buckets: seq<seq<Reading>>): seq<Sample>
    requires [] !in buckets
  {
    SamplesOf(interval, Sealed(buckets))
  }

  lemma {:induction false} SamplesAt(interval: real, buckets: seq<seq<Reading>>)
    requires [] !in buckets
    ensures |SamplesOf(interval, buckets)| == |buckets|
    ensures forall i :: 0 <= i < |buckets| ==> SamplesOf(interval, buckets)[i] == SampleOf(interval, buckets[i])
  {
    if buckets != [] {
      SamplesAt(interval, buckets[..|buckets| - 1]);
    }
  }

  ghost predicate Spaced(interval: real, s: seq<Sample>) {
    forall i, j :: 0 <= i < j < |s| ==> s[j].at - s[i].at >= interval
  }

  lemma {:induction false} StartsApart(interval: real, buckets: seq<seq<Reading>>, i: nat, j: nat)
    requires interval > 0.0 && IsResampling(interval, buckets) && i < j < |buckets|
    ensures Apart(interval, buckets[i], buckets[j])
    decreases j
  {
    assert Apart(interval, buckets[j - 1], buckets[j]);
    if i < j - 1 {
      StartsApart(interval, buckets, i, j - 1);
    }
  }

  /** Sample times are at least an interval apart. */
  lemma {:induction false} SeriesSpaced(interval: real, buckets: seq<seq<Reading>>)
    requires interval > 0.0 && IsResampling(interval, buckets) && [] !in buckets
    ensures Spaced(interval, Series(interval, buckets))
  {
    var s := Series(interval, buckets);
    SamplesAt(interval, Sealed(buckets));
    forall i, j | 0 <= i < j < |s| ensures s[j].at - s[i].at >= interval {
      StartsApart(interval, buckets, i, j);
    }
  }

  lemma {:induction false} SumBetween(b: seq<Reading>, lo: real, hi: real)
    requires forall i :: 0 <= i < |b| ==> lo <= b[i].value <= hi
    ensures lo * |b| as real <= Sum(b) <= hi * |b| as real
  {
    if b != [] {
      var n := |b| - 1;
      SumBetween(b[..n], lo, hi);
      assert |b| as real == n as real + 1.0;
    }
  }

  /** A sample lies between the smallest and the largest reading of its bucket. */
  lemma {:induction false} SampleBetween(interval: real, b: seq<Reading>, lo: real, hi: real)
    requires b != [] && forall i :: 0 <= i < |b| ==> lo <= b[i].value <= hi
    ensures lo <= SampleOf(interval, b).value <= hi
  {
    SumBetween(b, lo, hi);
    QuotientBetween(Sum(b), |b| as real, lo, hi);
  }

  lemma QuotientBetween(x: real, d: real, lo: real, hi: real)
    requires d > 0.0 && lo * d <= x <= hi * d
    ensures lo <= x / d <= hi
  {
    var q := x / d;
    assert q * d == x;
  }

  /** The value of a sample is that of all its readings together, shared out over them; its time is the end of the
      interval that its first reading opened. */
  lemma {:induction false} SamplesAre(interval: real, buckets: seq<seq<Reading>>, i: nat)
    requires [] !in buckets && i < |buckets|
    ensures |SamplesOf(interval, buckets)| == |buckets|
    ensures var s, b := SamplesOf(interval, buckets)[i], buckets[i];
            && s.value * |b| as real == Sum(b) && s.readings == |b| && s.at == b[0].at + interval
  {
    SamplesAt(interval, buckets);
    ShareTimes(Sum(buckets[i]), |buckets[i]| as real);
  }

  lemma ShareTimes(x: real, d: real)
    requires d > 0.0
    ensures x / d * d == x
  {
  }

  /** All that was read, weighted by how often. */
  function TotalValue(s: seq<Sample>): real {
    if s == [] then 0.0
    else TotalValue(s[..|s| - 1]) + s[|s| - 1].value * s[|s| - 1].readings as real
  }

  lemma {:induction false} SumConcat(a: seq<Reading>, b: seq<Reading>)
    ensures Sum(a + b) == Sum(a) + Sum(b)
  {
    if b == [] {
      assert a + b == a;
    } else {
      var n := |b| - 1;
      SumConcat(a, b[..n]);
      assert (a + b)[..|a| + n] == a + b[..n];
    }
  }

  lemma {:induction false} TotalValueAppend(s: seq<Sample>, x: Sample)
    ensures TotalValue(s + [x]) == TotalValue(s) + x.value * x.readings as real
  {
    assert (s + [x])[..|s|] == s;
  }

  lemma {:induction false} SampleTimes(interval: real, b: seq<Reading>)
    requires b != []
    ensures SampleOf(interval, b).value * SampleOf(interval, b).readings as real == Sum(b)
  {
    ShareTimes(Sum(b), |b| as real);
  }

  lemma {:induction false} LastSample(interval: real, buckets: seq<seq<Reading>>)
    requires [] !in buckets && buckets != []
    ensures var n := |buckets| - 1;
            TotalValue(SamplesOf(interval, buckets)) == TotalValue(SamplesOf(interval, buckets[..n])) + Sum(buckets[n])
  {
    var n := |buckets| - 1;
    TotalValueAppend(SamplesOf(interval, buckets[..n]), SampleOf(interval, buckets[n]));
    SampleTimes(interval, buckets[n]);
  }

  lemma {:induction false} ValueFlatten(interval: real, buckets: seq<seq<Reading>>)
    requires [] !in buckets
    ensures TotalValue(SamplesOf(interval, buckets)) == Sum(Flatten(buckets))
  {
    if buckets != [] {
      var n := |buckets| - 1;
      ValueFlatten(interval, buckets[..n]);
      LastSample(interval, buckets);
      FlattenAppend(buckets[..n], buckets[n]);
      SumConcat(Flatten(buckets[..n]), buckets[n]);
      assert buckets == buckets[..n] + [buckets[n]];
    }
  }

  /** Nor is anything of what was read lost or counted twice: the samples and the open bucket add up to it. */
  lemma {:induction false} ValuesConserved(interval: real, buckets: seq<seq<Reading>>)
    requires [] !in buckets && buckets != []
    ensures TotalValue(Series(interval, buckets)) + Sum(buckets[|buckets| - 1]) == Sum(Flatten(buckets))
  {
    var n := |buckets| - 1;
    ValueFlatten(interval, buckets[..n]);
    FlattenAppend(buckets[..n], buckets[n]);
    assert buckets == buckets[..n] + [buckets[n]];
    SumConcat(Flatten(buckets[..n]), buckets[n]);
  }

  function Total(s: seq<Sample>): nat {
    if s == [] then 0 else Total(s[..|s| - 1]) + s[|s| - 1].readings
  }

  lemma {:induction false} TotalFlatten(interval: real, buckets: seq<seq<Reading>>)
    requires [] !in buckets
    ensures Total(SamplesOf(interval, buckets)) == |Flatten(buckets)|
  {
    if buckets != [] {
      var n := |buckets| - 1;
      TotalFlatten(interval, buckets[..n]);
      FlattenAppend(buckets[..n], buckets[n]);
      assert buckets == buckets[..n] + [buckets[n]];
      var s := SamplesOf(interval, buckets);
      assert s[..|s| - 1] == SamplesOf(interval, buckets[..n]);
    }
  }

  /** Every reading since the restart was counted in one sample or waits in the open bucket. */
  lemma {:induction false} ReadingsConserved(interval: real, buckets: seq<seq<Reading>>)
    requires [] !in buckets && buckets != []
    ensures Total(Series(interval, buckets)) + |buckets[|buckets| - 1]| == |Flatten(buckets)|
  {
    var n := |buckets| - 1;
    TotalFlatten(interval, buckets[..n]);
    FlattenAppend(buckets[..n], buckets[n]);
    assert buckets == buckets[..n] + [buckets[n]];
  }

  // -- Reading the series -----------------------------------------------------------------------------------

  /** The last `n` elements, or all of them. */
  function Last<T>(s: seq<T>, n: nat): seq<T> {
    if |s| <= n then s else s[|s| - n..]
  }

  /** The first sample at or after `cutoff`. */
  function FirstFrom(s: seq<Sample>, cutoff: real): (k: nat)
    ensures k <= |s|
    ensures forall i :: 0 <= i < k ==> s[i].at < cutoff
    ensures k < |s| ==> s[k].at >= cutoff
  {
    if s == [] then 0
    else if s[0].at >= cutoff then 0
    else FirstFrom(s[1..], cutoff) + 1
  }

  const TINY: real := 0.000000001

  function Percentage(absolute: real, earlier: real): real {
    if earlier <= TINY then (if absolute <= 0.0 then 0.0 else 100.0) else absolute / earlier * 100.0
  }

  function Cutoff(s: seq<Sample>, minutes: real): real
    requires s != []
  {
    s[|s| - 1].at - minutes * 60.0
  }

  /** Half the requested window, in seconds. */
  function HalfWindow(minutes: real): real { minutes * 60.0 * 0.5 }

  function Between(earlier: Sample, latest: Sample): Change {
    var absolute := latest.value - earlier.value;
    Change(absolute, Percentage(absolute, earlier.value))
  }

  /** The change since sample `k`, unless that is the latest one or less than half the window back. */
  function ChangeFrom(s: seq<Sample>, k: nat, half: real): Option<Change>
    requires s != []
  {
    if k >= |s| - 1 || s[|s| - 1].at - s[k].at < half then None else Some(Between(s[k], s[|s| - 1]))
  }

  function ChangeOver(s: seq<Sample>, minutes: real): Option<Change> {
    if |s| < 2 then None else ChangeFrom(s, FirstFrom(s, Cutoff(s, minutes)), HalfWindow(minutes))
  }

  function Span(s: seq<Sample>): real {
    if |s| < 2 then 0.0 else s[|s| - 1].at - s[0].at
  }

  lemma FirstFromUnique(s: seq<Sample>, cutoff: real, k: nat)
    requires k < |s| && s[k].at >= cutoff && forall i :: 0 <= i < k ==> s[i].at < cutoff
    ensures FirstFrom(s, cutoff) == k
  {
  }

  lemma {:induction false} FirstFromSuffix(s: seq<Sample>, d: nat, cutoff: real)
    requires d <= |s| && forall i :: 0 <= i < d ==> s[i].at < cutoff
    ensures FirstFrom(s, cutoff) == d + FirstFrom(s[d..], cutoff)
  {
    var k := FirstFrom(s[d..], cutoff);
    forall i | 0 <= i < d + k ensures s[i].at < cutoff {
      if i >= d {
        assert s[d..][i - d] == s[i];
      }
    }
    if k < |s[d..]| {
      assert s[d..][k] == s[d + k];
      FirstFromUnique(s, cutoff, d + k);
    }
  }

  /** Keeping a bounded number of samples does not change any answer within the span they cover. */
  lemma {:induction false} BoundedSeriesSuffices(interval: real, s: seq<Sample>, n: nat, minutes: real)
    requires interval > 0.0 && Spaced(interval, s) && n >= 2 && |s| >= 2
    requires minutes * 60.0 <= Span(Last(s, n))
    ensures ChangeOver(Last(s, n), minutes) == ChangeOver(s, minutes)
  {
    var t := Last(s, n);
    var d := |s| - |t|;
    assert t == s[d..];
    var cutoff := Cutoff(t, minutes);
    assert t[0] == s[d] && t[|t| - 1] == s[|s| - 1];
    assert cutoff == Cutoff(s, minutes) >= s[d].at;
    forall i | 0 <= i < d ensures s[i].at < cutoff {
      assert s[d].at - s[i].at >= interval;
    }
    FirstFromSuffix(s, d, cutoff);
    SameChange(s, d, FirstFrom(t, cutoff), HalfWindow(minutes));
  }

  lemma {:induction false} SameChange(s: seq<Sample>, d: nat, k: nat, half: real)
    requires d <= |s| - 1
    ensures ChangeFrom(s[d..], k, half) == ChangeFrom(s, d + k, half)
  {
    var t := s[d..];
    assert t[|t| - 1] == s[|s| - 1];
    if k < |t| {
      assert t[k] == s[d + k];
    }
  }

  /** The three-interval rule: did observation stop between two buckets since the restart? */
  ghost predicate Gap(interval: real, a: seq<Reading>, b: seq<Reading>) {
    a != [] && b != [] && b[0].at - a[0].at > interval * 3.0
  }

  ghost predicate HadGap(interval: real, buckets: seq<seq<Reading>>) {
    exists i :: 0 < i < |buckets| && Gap(interval, buckets[i - 1], buckets[i])
  }

  class ObservationBuffer {
    const interval: real
    const maxSamples: nat
    var samples: seq<Sample>
    var bucketStart: Option<real>
    var bucketTotal: real
    var bucketCount: nat
    var gapBeforeNext: bool
    ghost var buckets: seq<seq<Reading>>  // every reading since the restart, cut into buckets

    ghost predicate Valid()
      reads this
    {
      && interval > 0.0 && maxSamples >= 2
      && [] !in buckets && IsResampling(interval, buckets)
      && samples == Last(Series(interval, buckets), maxSamples)
      && gapBeforeNext == HadGap(interval, buckets)
      && OpenBucket()
    }

    ghost predicate OpenBucket()
      reads this
    {
      if buckets == [] then bucketStart == None && bucketTotal == 0.0 && bucketCount == 0
      else
        var b := buckets[|buckets| - 1];
        b != [] && bucketStart == Some(b[0].at) && bucketTotal == Sum(b) && bucketCount == |b|
    }

    constructor (interval: real, maxSamples: nat)
      requires interval > 0.0 && maxSamples >= 2
      ensures Valid() && buckets == [] && this.interval == interval && this.maxSamples == maxSamples
    {
      this.interval, this.maxSamples := interval, maxSamples;
      samples, bucketStart, bucketTotal, bucketCount, gapBeforeNext := [], None, 0.0, 0, false;
      buckets := [];
    }

    /** One step of the resampling; the answer tells whether it closed a bucket. */
    method Observe(at: real, value: real) returns (sealed: bool)
      requires Valid()
      modifies this
      ensures Valid()
      ensures buckets == Ingest(interval, old(buckets), Reading(at, value))
      ensures sealed <==> |buckets| > |old(buckets)| > 0
    {
      IngestKeeps(interval, buckets, Reading(at, value));
      NoneEmpty(interval, Ingest(interval, buckets, Reading(at, value)));
      if bucketStart.None? {
        Open(at, value);
        return false;
      }
      if at < bucketStart.value {
        Reset();
        Open(at, value);
        return false;
      }
      var elapsed := at - bucketStart.value;
      if elapsed < interval {
        Prolong(at, value);
        return false;
      }
      Renew(at, value, elapsed);
      return true;
    }

    /** The first bucket of all. */
    method Open(at: real, value: real)
      requires Valid() && buckets == [] && Bucketed(interval, [Reading(at, value)])
      modifies this`bucketStart, this`bucketTotal, this`bucketCount, this`buckets
      ensures Valid() && buckets == [[Reading(at, value)]]
    {
      Start(at);
      Accumulate(value);
      buckets := [[Reading(at, value)]];
      SumAppend([], Reading(at, value));
    }

    /** One more reading of the open bucket. */
    method Prolong(at: real, value: real)
      requires Valid() && buckets != [] && IsResampling(interval, Prolonged(buckets, Reading(at, value)))
      modifies this`bucketTotal, this`bucketCount, this`buckets
      ensures Valid() && buckets == Prolonged(old(buckets), Reading(at, value))
    {
      ghost var before, r := buckets, Reading(at, value);
      Accumulate(value);
      buckets := Prolonged(before, r);
      SumAppend(before[|before| - 1], r);
      SameGaps(interval, before, r);
      NoneEmpty(interval, buckets);
    }

    /** Seal the open bucket and open the next one. A reading far beyond it means that observation stopped in
        between. */
    method Renew(at: real, value: real, elapsed: real)
      requires Valid() && bucketStart.Some? && elapsed == at - bucketStart.value
      requires IsResampling(interval, buckets + [[Reading(at, value)]])
      modifies this
      ensures Valid() && buckets == old(buckets) + [[Reading(at, value)]]
    {
      ghost var before, r := buckets, Reading(at, value);
      Seal();
      if elapsed > interval * 3.0 {
        gapBeforeNext := true;
      }
      Start(at);
      Accumulate(value);
      buckets := before + [[r]];
      SumAppend([], r);
      SealedSeries(interval, before, r);
      NewGap(interval, before, [r]);
    }

    method Start(at: real)
      modifies this`bucketStart, this`bucketTotal, this`bucketCount
      ensures bucketStart == Some(at) && bucketTotal == 0.0 && bucketCount == 0
    {
      bucketStart, bucketTotal, bucketCount := Some(at), 0.0, 0;
    }

    method Accumulate(value: real)
      modifies this`bucketTotal, this`bucketCount
      ensures bucketTotal == old(bucketTotal) + value && bucketCount == old(bucketCount) + 1
    {
      bucketTotal, bucketCount := bucketTotal + value, bucketCount + 1;
    }

    /** Close the open bucket into a sample, dropping the oldest one beyond the bound. */
    method Seal()
      requires buckets != [] && [] !in buckets && OpenBucket() && maxSamples >= 2
      requires samples == Last(Series(interval, buckets), maxSamples)
      modifies this`samples
      ensures samples == Last(SamplesOf(interval, buckets), maxSamples)
    {
      var sample := Sample(bucketStart.value + interval, Mean(bucketTotal, bucketCount), bucketCount);
      SealOne(interval, buckets, sample);
      LastAppend(Series(interval, buckets), sample, maxSamples);
      var grown := samples + [sample];
      samples := if |grown| > maxSamples then grown[1..] else grown;
    }

    method Reset()
      modifies this
      ensures samples == [] && bucketStart == None && bucketTotal == 0.0 && bucketCount == 0 && !gapBeforeNext
      ensures buckets == []
      ensures old(Valid()) ==> Valid()
    {
      samples, bucketStart, bucketTotal, bucketCount, gapBeforeNext := [], None, 0.0, 0, false;
      buckets := [];
    }

    /** The scan finds the sample the specification compares with, or declines as it does. */
    method ChangeOverLast(minutes: real) returns (change: Option<Change>)
      ensures change == ChangeOver(samples, minutes)
    {
      if |samples| < 2 {
        return None;
      }
      var latest := samples[|samples| - 1];
      var cutoff := latest.at - minutes * 60.0;
      var k := 0;
      while k < |samples| && samples[k].at < cutoff
        invariant k <= |samples| && forall i :: 0 <= i < k ==> samples[i].at < cutoff
      {
        k := k + 1;
      }
      if k < |samples| {
        FirstFromUnique(samples, cutoff, k);
      }
      if k >= |samples| - 1 || latest.at - samples[k].at < HalfWindow(minutes) {
        return None;
      }
      var absolute := latest.value - samples[k].value;
      return Some(Change(absolute, Percentage(absolute, samples[k].value)));
    }
  }

  lemma {:induction false} SumAppend(b: seq<Reading>, r: Reading)
    ensures Sum(b + [r]) == Sum(b) + r.value && [] + [r] == [r]
  {
    assert (b + [r])[..|b|] == b;
  }

  lemma {:induction false} SealOne(interval: real, buckets: seq<seq<Reading>>, sample: Sample)
    requires buckets != [] && [] !in buckets && buckets[|buckets| - 1] != []
    requires sample == SampleOf(interval, buckets[|buckets| - 1])
    ensures SamplesOf(interval, buckets) == Series(interval, buckets) + [sample]
  {
  }

  /** A bounded queue that takes one more element. */
  lemma {:induction false} LastAppend<T>(s: seq<T>, x: T, n: nat)
    requires n >= 1
    ensures var q := Last(s, n) + [x]; Last(s + [x], n) == if |q| > n then q[1..] else q
  {
  }

  lemma {:induction false} SameGaps(interval: real, before: seq<seq<Reading>>, r: Reading)
    requires before != [] && [] !in before
    ensures var after := Prolonged(before, r);
            Sealed(after) == Sealed(before) && (HadGap(interval, after) <==> HadGap(interval, before))
  {
    var n := |before| - 1;
    var after := Prolonged(before, r);
    assert before[n] in before;
    forall i | 0 < i < |before|
      ensures Gap(interval, after[i - 1], after[i]) <==> Gap(interval, before[i - 1], before[i])
    {
      assert i - 1 < n;
    }
  }

  lemma {:induction false} SealedSeries(interval: real, before: seq<seq<Reading>>, r: Reading)
    requires before != [] && [] !in before
    ensures [] !in before + [[r]] && Series(interval, before + [[r]]) == SamplesOf(interval, before)
  {
    assert Sealed(before + [[r]]) == before;
  }

  lemma {:induction false} NewGap(interval: real, before: seq<seq<Reading>>, b: seq<Reading>)
    requires before != []
    ensures HadGap(interval, before + [b]) <==> HadGap(interval, before) || Gap(interval, before[|before| - 1], b)
  {
    var after := before + [b];
    assert forall i :: 0 <= i < |before| ==> after[i] == before[i];
    if Gap(interval, before[|before| - 1], b) {
      assert Gap(interval, after[|before| - 1], after[|before|]);
    }
    if HadGap(interval, before) {
      var i :| 0 < i < |before| && Gap(interval, before[i - 1], before[i]);
      assert Gap(interval, after[i - 1], after[i]);
    }
  }
}
