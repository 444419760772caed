/** Frame-time statistics: interpolated percentiles and spike detection, over the reals. */
module Profiler {
  import opened Arithmetic
  import opened Options
  import opened Sequences
  import opened Sorting

  datatype Stats = Stats(avgMs: real, minMs: real, maxMs: real, p50Ms: real, p95Ms: real, p99Ms: real)

  datatype Frame = Frame(index: int, ft: real, monitors: Option<map<string, real>>)

  datatype Spike = Spike(frameIndex: int, frameTimeMs: real, monitors: Option<map<string, real>>)

  predicate RealLe(x: real, y: real) { x <= y }

  predicate Ascending(s: seq<real>) {
    forall i, j :: 0 <= i < j < |s| ==> s[i] <= s[j]
  }

  /** `toMs`: seconds to milliseconds, to two decimals. */
  function ToMs(seconds: real): real {
    Round(seconds * 100000.0) as real / 100.0
  }

  /** `percentile`'s interpolation, at a fractional index. */
  function At(sorted: seq<real>, index: real): real
    requires 0.0 <= index <= (|sorted| - 1) as real
  {
    var lower, upper := index.Floor, Ceil(index);
    if lower == upper then sorted[lower]
    else Blend(sorted[lower], sorted[upper], index - lower as real)
  }

  function Blend(a: real, b: real, x: real): real {
    a + (b - a) * x
  }

  function Index(n: nat, p: real): (index: real)
    requires n > 0 && 0.0 <= p <= 100.0
    ensures 0.0 <= index <= (n - 1) as real
  {
    Product(p / 100.0, (n - 1) as real)
  }

  function Product(x: real, y: real): real {
    x * y
  }

  function Percentile(sorted: seq<real>, p: real): real
    requires sorted != [] && 0.0 <= p <= 100.0
  {
    At(sorted, Index(|sorted|, p))
  }

  function ComputePercentiles(values: seq<real>): Stats {
    if values == [] then Stats(0.0, 0.0, 0.0, 0.0, 0.0, 0.0) else
    var sorted := Sort(values, RealLe);
    Stats(ToMs(Sum(sorted) / |sorted| as real), ToMs(sorted[0]), ToMs(sorted[|sorted| - 1]),
          ToMs(Percentile(sorted, 50.0)), ToMs(Percentile(sorted, 95.0)), ToMs(Percentile(sorted, 99.0)))
  }

  // ---- the order of the statistics ----

  lemma ToMsIsMonotone(x: real, y: real)
    requires x <= y
    ensures ToMs(x) <= ToMs(y)
  {
    FloorIsMonotone(x * 100000.0 + 0.5, y * 100000.0 + 0.5);
  }

  lemma BlendIsMonotone(a: real, b: real, x: real, y: real)
    requires a <= b && 0.0 <= x <= y <= 1.0
    ensures a <= Blend(a, b, x) <= Blend(a, b, y) <= b
  {
    ProductIsNonNegative(b - a, x);
    ProductIsNonNegative(b - a, y - x);
    ProductIsNonNegative(b - a, 1.0 - y);
    Distribute(b - a, x, y);
  }

  lemma ProductIsNonNegative(x: real, y: real)
    requires x >= 0.0 && y >= 0.0
    ensures x * y >= 0.0
  {}

  lemma Distribute(d: real, x: real, y: real)
    ensures d * (y - x) == d * y - d * x && d * (1.0 - y) == d - d * y
  {}

  lemma AtBetween(sorted: seq<real>, index: real)
    requires Ascending(sorted) && 0.0 <= index <= (|sorted| - 1) as real
    ensures 0 <= index.Floor <= Ceil(index) < |sorted|
    ensures sorted[index.Floor] <= At(sorted, index) <= sorted[Ceil(index)]
  {
    hide Blend;
    var lower, upper := index.Floor, Ceil(index);
    if lower != upper {
      BlendIsMonotone(sorted[lower], sorted[upper], index - lower as real, index - lower as real);
    }
  }

  lemma AtInside(sorted: seq<real>, i: nat, index: real)
    requires i as real < index < (i + 1) as real && index <= (|sorted| - 1) as real
    ensures i + 1 < |sorted|
    ensures At(sorted, index) == Blend(sorted[i], sorted[i + 1], index - i as real)
  {
    hide Blend;
    assert index.Floor == i && Ceil(index) == i + 1;
  }

  /** Interpolation in an ascending list never runs backwards. */
  lemma AtIsMonotone(sorted: seq<real>, x: real, y: real)
    requires Ascending(sorted) && 0.0 <= x <= y <= (|sorted| - 1) as real
    ensures At(sorted, x) <= At(sorted, y)
  {
    hide Blend;
    if x.Floor == y.Floor {
      if x != x.Floor as real {
        AtInside(sorted, x.Floor, x);
        AtInside(sorted, x.Floor, y);
        BlendIsMonotone(sorted[x.Floor], sorted[x.Floor + 1], x - x.Floor as real, y - x.Floor as real);
      } else {
        AtBetween(sorted, y);
      }
    } else {
      AtBetween(sorted, x);
      AtBetween(sorted, y);
      FloorIsMonotone(x, y);
      assert Ceil(x) <= y.Floor;
    }
  }

  lemma IndexIsMonotone(n: nat, p: real, q: real)
    requires n > 0 && 0.0 <= p <= q <= 100.0
    ensures Index(n, p) <= Index(n, q)
  {
    hide Product;
    Scale(p / 100.0, q / 100.0, (n - 1) as real);
  }

  lemma Scale(x: real, y: real, m: real)
    requires x <= y && m >= 0.0
    ensures Product(x, m) <= Product(y, m)
  {
    ProductIsNonNegative(y - x, m);
    Distribute(m, x, y);
  }

  lemma PercentileIsMonotone(sorted: seq<real>, p: real, q: real)
    requires sorted != [] && Ascending(sorted) && 0.0 <= p <= q <= 100.0
    ensures sorted[0] <= Percentile(sorted, p) <= Percentile(sorted, q) <= sorted[|sorted| - 1]
  {
    hide At;
    IndexIsMonotone(|sorted|, p, q);
    AtIsMonotone(sorted, Index(|sorted|, p), Index(|sorted|, q));
    AtBetween(sorted, Index(|sorted|, p));
    AtBetween(sorted, Index(|sorted|, q));
  }

  lemma SortedIsAscending(values: seq<real>)
    ensures Ascending(Sort(values, RealLe)) && multiset(Sort(values, RealLe)) == multiset(values)
  {
    assert TotalPreorder(RealLe);
    SortIsSorted(values, RealLe);
    SortKeepsMultiset(values, RealLe);
  }

  /** The reported statistics are in order, and minimum and maximum belong to frames. */
  lemma StatsAreOrdered(values: seq<real>)
    requires values != []
    ensures var s := ComputePercentiles(values);
            && s.minMs <= s.p50Ms <= s.p95Ms <= s.p99Ms <= s.maxMs
            && s.minMs <= s.avgMs <= s.maxMs
            && (forall i :: 0 <= i < |values| ==> s.minMs <= ToMs(values[i]) <= s.maxMs)
            && (exists i :: 0 <= i < |values| && s.minMs == ToMs(values[i]))
            && (exists i :: 0 <= i < |values| && s.maxMs == ToMs(values[i]))
  {
    hide Sort, Percentile, ToMs, Sum;
    var sorted := Sort(values, RealLe);
    var n := |sorted|;
    SortedIsAscending(values);
    PercentileIsMonotone(sorted, 50.0, 95.0);
    PercentileIsMonotone(sorted, 95.0, 99.0);
    MeanWithin(sorted, sorted[0], sorted[n - 1]);
    var mean, p50, p95, p99 :=
      Sum(sorted) / n as real, Percentile(sorted, 50.0), Percentile(sorted, 95.0), Percentile(sorted, 99.0);
    ToMsIsMonotone(sorted[0], p50);
    ToMsIsMonotone(p50, p95);
    ToMsIsMonotone(p95, p99);
    ToMsIsMonotone(p99, sorted[n - 1]);
    ToMsIsMonotone(sorted[0], mean);
    ToMsIsMonotone(mean, sorted[n - 1]);
    forall i | 0 <= i < |values| ensures ToMs(sorted[0]) <= ToMs(values[i]) <= ToMs(sorted[n - 1]) {
      assert values[i] in multiset(sorted);
      var j :| 0 <= j < n && sorted[j] == values[i];
      ToMsIsMonotone(sorted[0], values[i]);
      ToMsIsMonotone(values[i], sorted[n - 1]);
    }
    assert sorted[0] in multiset(values) && sorted[n - 1] in multiset(values);
  }

  // ---- what each statistic is ----

  /** At a fractional place between two neighbours a percentile is their weighted mean. */
  lemma PercentileInterpolates(sorted: seq<real>, p: real, i: nat, x: real)
    requires i + 1 < |sorted| && 0.0 <= x <= 1.0 && 0.0 <= p <= 100.0
    requires p / 100.0 * (|sorted| - 1) as real == i as real + x
    ensures Percentile(sorted, p) == (1.0 - x) * sorted[i] + x * sorted[i + 1]
  {
    var index := Index(|sorted|, p);
    assert index == i as real + x;
    hide Index, Product;
    if 0.0 < x < 1.0 {
      AtInside(sorted, i, index);
      BlendIs(sorted[i], sorted[i + 1], x);
      hide Blend, At;
    } else {
      AtWhole(sorted, if x == 0.0 then i else i + 1);
      hide At;
      WholeWeight(x, sorted[i + 1]);
      WholeWeight(1.0 - x, sorted[i]);
    }
  }

  lemma AtWhole(sorted: seq<real>, i: nat)
    requires i < |sorted|
    ensures At(sorted, i as real) == sorted[i]
  {
    hide Blend;
    assert (i as real).Floor == i && Ceil(i as real) == i;
  }

  lemma WholeWeight(x: real, a: real)
    ensures (x == 0.0 ==> x * a == 0.0) && (x == 1.0 ==> x * a == a)
  {}

  lemma BlendIs(a: real, b: real, x: real)
    ensures Blend(a, b, x) == (1.0 - x) * a + x * b
  {}

  lemma PercentileOfOne(x: real, p: real)
    requires 0.0 <= p <= 100.0
    ensures Percentile([x], p) == x
  {
    assert Index(1, p) == 0.0;
    hide Index;
  }

  /** A time in seconds as milliseconds to the nearest hundredth. */
  predicate InMs(ms: real, seconds: real) {
    -0.005 < ms - 1000.0 * seconds <= 0.005
  }

  lemma ToMsIsInMs(seconds: real)
    ensures InMs(ToMs(seconds), seconds)
  {
    var n := Round(seconds * 100000.0);
    assert n as real <= seconds * 100000.0 + 0.5 < n as real + 1.0;
  }

  /** Every statistic is the one it is named for, in milliseconds: the average, and the percentiles of
      the times in ascending order. */
  lemma StatsAreTheirNames(values: seq<real>)
    requires values != []
    ensures var (s, sorted) := (ComputePercentiles(values), Sort(values, RealLe));
            && sorted != [] && InMs(s.avgMs, Sum(values) / |values| as real)
            && InMs(s.p50Ms, Percentile(sorted, 50.0)) && InMs(s.p95Ms, Percentile(sorted, 95.0))
            && InMs(s.p99Ms, Percentile(sorted, 99.0))
  {
    hide Sort, Percentile, ToMs, Sum, Ascending, InMs;
    var sorted := Sort(values, RealLe);
    SortedIsAscending(values);
    SumIgnoresOrder(sorted, values);
    assert |multiset(values)| == |values| && |multiset(sorted)| == |sorted|;
    ToMsIsInMs(Sum(sorted) / |sorted| as real);
    ToMsIsInMs(Percentile(sorted, 50.0));
    ToMsIsInMs(Percentile(sorted, 95.0));
    ToMsIsInMs(Percentile(sorted, 99.0));
  }

  lemma {:induction false} SumIgnoresOrder(a: seq<real>, b: seq<real>)
    requires multiset(a) == multiset(b)
    ensures Sum(a) == Sum(b)
  {
    hide Sum;
    if a == [] {
      assert |multiset(b)| == 0 && b == [];
    } else {
      var j := LastFound(a, b);
      var (front, others, last) := (a[..|a| - 1], b[..j] + b[j + 1..], [b[j]]);
      SumIgnoresOrder(front, others);
      SumConcat(front, last);
      assert a == front + last;
      SumWithout(b, j);
      assert Sum(a) == Sum(front) + Sum(last) && Sum(b) == Sum(others) + Sum(last);
    }
  }

  lemma SumWithout(b: seq<real>, j: nat)
    requires j < |b|
    ensures Sum(b) == Sum(b[..j] + b[j + 1..]) + Sum([b[j]])
  {
    hide Sum;
    assert b == b[..j] + [b[j]] + b[j + 1..];
    SumConcat(b[..j] + [b[j]], b[j + 1..]);
    SumConcat(b[..j], [b[j]]);
    SumConcat(b[..j], b[j + 1..]);
  }

  /** The last entry of `a`, found and taken out of the same entries in another order. */
  lemma LastFound(a: seq<real>, b: seq<real>) returns (j: nat)
    requires a != [] && multiset(a) == multiset(b)
    ensures j < |b| && b[j] == a[|a| - 1] && multiset(a[..|a| - 1]) == multiset(b[..j] + b[j + 1..])
  {
    var n := |a| - 1;
    assert a == a[..n] + [a[n]];
    assert a[n] in multiset(b);
    j :| 0 <= j < |b| && b[j] == a[n];
    WithoutOne(b, j);
  }

  // ---- order independence ----

  lemma LastsAgree(a: seq<real>, b: seq<real>)
    requires Ascending(a) && Ascending(b) && multiset(a) == multiset(b) && a != [] && b != []
    ensures a[|a| - 1] == b[|b| - 1]
  {
    assert a[|a| - 1] in multiset(b) && b[|b| - 1] in multiset(a);
    var i :| 0 <= i < |b| && b[i] == a[|a| - 1];
    var j :| 0 <= j < |a| && a[j] == b[|b| - 1];
  }

  lemma {:induction false} AscendingIsUnique(a: seq<real>, b: seq<real>)
    requires Ascending(a) && Ascending(b) && multiset(a) == multiset(b)
    ensures a == b
  {
    hide Ascending;
    assert |multiset(a)| == |a| && |multiset(b)| == |b|;
    if a != [] {
      LastsAgree(a, b);
      Front(a);
      Front(b);
      AscendingIsUnique(a[..|a| - 1], b[..|b| - 1]);
      assert a == a[..|a| - 1] + [a[|a| - 1]] && b == b[..|b| - 1] + [b[|b| - 1]];
    }
  }

  lemma Front(s: seq<real>)
    requires s != [] && Ascending(s)
    ensures Ascending(s[..|s| - 1]) && multiset(s[..|s| - 1]) == multiset(s) - multiset{s[|s| - 1]}
  {
    assert s == s[..|s| - 1] + [s[|s| - 1]];
  }

  /** The frames' order does not matter to any statistic. */
  lemma StatsIgnoreOrder(values: seq<real>, others: seq<real>)
    requires multiset(values) == multiset(others)
    ensures ComputePercentiles(values) == ComputePercentiles(others)
  {
    hide Sort, Percentile, ToMs, Sum, Ascending;
    SortedIsAscending(values);
    SortedIsAscending(others);
    AscendingIsUnique(Sort(values, RealLe), Sort(others, RealLe));
    assert |multiset(values)| == |values| && |multiset(others)| == |others|;
  }

  // ---- spikes ----

  function Slow(threshold: real): Frame -> bool {
    (f: Frame) => f.ft > threshold
  }

  function SpikeOf(f: Frame): Spike {
    Spike(f.index, ToMs(f.ft), f.monitors)
  }

  function SpikesOf(frames: seq<Frame>): seq<Spike> {
    seq(|frames|, i requires 0 <= i < |frames| => SpikeOf(frames[i]))
  }

  /** `detectSpikes`: the frames longer than twice the median, in order. */
  method DetectSpikes(frames: seq<Frame>, medianFrameTime: real) returns (spikes: seq<Spike>)
    ensures spikes == SpikesOf(Filter(frames, Slow(medianFrameTime * 2.0)))
  {
    var threshold := medianFrameTime * 2.0;
    spikes := [];
    assert SpikesOf(Filter(frames[..0], Slow(threshold))) == [];
    hide Filter, SpikesOf;
    for i := 0 to |frames|
      invariant spikes == SpikesOf(Filter(frames[..i], Slow(threshold)))
    {
      var frame := frames[i];
      SpikesOneMore(frames, i, threshold);
      if frame.ft > threshold {
        var spike := Spike(frame.index, ToMs(frame.ft), None);
        if frame.monitors.Some? {
          spike := spike.(monitors := frame.monitors);
        }
        spikes := spikes + [spike];
      }
    }
    assert frames[..|frames|] == frames;
  }

  lemma SpikesOneMore(frames: seq<Frame>, i: nat, threshold: real)
    requires i < |frames|
    ensures SpikesOf(Filter(frames[..i + 1], Slow(threshold))) == SpikesOf(Filter(frames[..i], Slow(threshold))) +
              if frames[i].ft > threshold then [SpikeOf(frames[i])] else []
  {
    FilterLast(frames[..i + 1], Slow(threshold));
    assert frames[..i + 1][..i] == frames[..i];
    hide Filter, SpikeOf;
  }

  /** `at` lists, in order, exactly the frames over the threshold, and each spike has its frame's index,
      its time in milliseconds and its monitors. */
  ghost predicate Reports(frames: seq<Frame>, threshold: real, at: seq<nat>, spikes: seq<Spike>) {
    && |spikes| == |at| && (forall i, j :: 0 <= i < j < |at| ==> at[i] < at[j])
    && (forall j :: 0 <= j < |at| ==> at[j] < |frames| && frames[at[j]].ft > threshold
                                      && ReportsFrame(frames[at[j]], spikes[j]))
    && (forall k: nat :: k < |frames| && frames[k].ft > threshold ==> k in at)
  }

  predicate ReportsFrame(f: Frame, s: Spike) {
    s.frameIndex == f.index && InMs(s.frameTimeMs, f.ft) && s.monitors == f.monitors
  }

  /** The spikes are the slow frames, in order, each with its own data. */
  lemma {:induction false} SpikesAreTheSlowFrames(frames: seq<Frame>, threshold: real) returns (at: seq<nat>)
    ensures Reports(frames, threshold, at, SpikesOf(Filter(frames, Slow(threshold))))
  {
    at := [];
    if frames != [] {
      hide Reports, SpikesOf;
      var n := |frames| - 1;
      var front := SpikesAreTheSlowFrames(frames[..n], threshold);
      assert frames[..n + 1] == frames;
      SpikesOneMore(frames, n, threshold);
      hide Filter;
      ReportsOneMore(frames, threshold, front, SpikesOf(Filter(frames[..n], Slow(threshold))));
      at := front + if frames[n].ft > threshold then [n] else [];
    }
  }

  lemma ReportsOneMore(frames: seq<Frame>, threshold: real, front: seq<nat>, spikes: seq<Spike>)
    requires frames != [] && Reports(frames[..|frames| - 1], threshold, front, spikes)
    ensures var n := |frames| - 1;
            Reports(frames, threshold, front + (if frames[n].ft > threshold then [n] else []),
                    spikes + if frames[n].ft > threshold then [SpikeOf(frames[n])] else [])
  {
    var n := |frames| - 1;
    ToMsIsInMs(frames[n].ft);
    assert ReportsFrame(frames[n], SpikeOf(frames[n]));
    hide ReportsFrame, SpikeOf;
    forall k: nat | k < n ensures frames[..n][k] == frames[k] {}
  }

  function Times(frames: seq<Frame>): seq<real> {
    seq(|frames|, i requires 0 <= i < |frames| => frames[i].ft)
  }

  function Over(threshold: real): real -> bool {
    (x: real) => x > threshold
  }

  function CountOver(values: seq<real>, threshold: real): nat {
    |Filter(values, Over(threshold))|
  }

  lemma {:induction false} SlowFramesAreSlowTimes(frames: seq<Frame>, threshold: real)
    ensures |Filter(frames, Slow(threshold))| == CountOver(Times(frames), threshold)
  {
    if frames != [] {
      var n := |frames| - 1;
      SlowFramesAreSlowTimes(frames[..n], threshold);
      assert Times(frames)[..n] == Times(frames[..n]);
    }
  }

  lemma WithoutOne(b: seq<real>, j: nat)
    requires j < |b|
    ensures multiset(b[..j] + b[j + 1..]) == multiset(b) - multiset{b[j]}
  {
    assert b == b[..j] + [b[j]] + b[j + 1..];
  }

  lemma {:induction false} CountIgnoresOrder(a: seq<real>, b: seq<real>, threshold: real)
    requires multiset(a) == multiset(b)
    ensures CountOver(a, threshold) == CountOver(b, threshold)
  {
    if a == [] {
      assert |multiset(b)| == 0;
    } else {
      var n := |a| - 1;
      var x := a[n];
      var j := LastFound(a, b);
      assert a == a[..n] + [x] && b == b[..j] + [x] + b[j + 1..];
      CountIgnoresOrder(a[..n], b[..j] + b[j + 1..], threshold);
      FilterConcat(b[..j], b[j + 1..], Over(threshold));
      FilterConcat(b[..j] + [x], b[j + 1..], Over(threshold));
      FilterConcat(b[..j], [x], Over(threshold));
      FilterConcat(a[..n], [x], Over(threshold));
    }
  }

  /** Where an ascending list crosses a threshold tells how many entries lie over it. */
  lemma {:induction false} CountInAscending(sorted: seq<real>, threshold: real, h: nat)
    requires Ascending(sorted) && h < |sorted|
    ensures sorted[h] <= threshold ==> CountOver(sorted, threshold) < |sorted| - h
    ensures sorted[h] > threshold ==> CountOver(sorted, threshold) >= |sorted| - h
  {
    var n := |sorted| - 1;
    if h < n {
      CountInAscending(sorted[..n], threshold, h);
    } else if sorted[n] <= threshold {
      forall x | x in sorted ensures !Over(threshold)(x) {
        var i :| 0 <= i < |sorted| && sorted[i] == x;
      }
      FilterNone(sorted, Over(threshold));
    }
  }

  /** A percentile splits the samples: no more than its share lie over it, and no less than that
      share, up to one interpolation step, lie over anything smaller. */
  lemma PercentileSplits(values: seq<real>, p: real, below: real)
    requires values != [] && 0.0 <= p <= 100.0 && below < Percentile(Sort(values, RealLe), p)
    ensures var percentile, index := Percentile(Sort(values, RealLe), p), Index(|values|, p);
            && CountOver(values, percentile) <= |values| - 1 - index.Floor
            && CountOver(values, below) >= |values| - Ceil(index)
  {
    hide Sort, At, CountOver, Ascending, Index;
    var sorted, index := Sort(values, RealLe), Index(|values|, p);
    SortedIsAscending(values);
    AtBetween(sorted, index);
    CountIgnoresOrder(values, sorted, At(sorted, index));
    CountIgnoresOrder(values, sorted, below);
    CountInAscending(sorted, At(sorted, index), index.Floor);
    CountInAscending(sorted, below, Ceil(index));
  }

  /** At most half of the frames are over a threshold exactly when the lower median is not. */
  lemma HalfOverIff(values: seq<real>, threshold: real)
    requires values != []
    ensures 2 * CountOver(values, threshold) <= |values|
            <==> Sort(values, RealLe)[(|values| - 1) / 2] <= threshold
  {
    hide Sort, CountOver, Ascending;
    SortedIsAscending(values);
    CountIgnoresOrder(values, Sort(values, RealLe), threshold);
    CountInAscending(Sort(values, RealLe), threshold, (|values| - 1) / 2);
  }

  lemma LowerMedian(values: seq<real>)
    requires values != []
    ensures Sort(values, RealLe)[(|values| - 1) / 2] <= Percentile(Sort(values, RealLe), 50.0)
  {
    var n := |values|;
    var index := Index(n, 50.0);
    assert 2.0 * index == (n - 1) as real;
    assert index.Floor == (n - 1) / 2;
    SortedIsAscending(values);
    AtBetween(Sort(values, RealLe), index);
  }

  /** The spikes reported are at most half of the frames exactly when the true median is at least
      five microseconds, so that the reported one is not zero, or no more than half of the frames
      took any time. */
  lemma AtMostHalfSpikeIff(frames: seq<Frame>)
    requires frames != [] && forall i :: 0 <= i < |frames| ==> frames[i].ft >= 0.0
    ensures var p50Ms := ComputePercentiles(Times(frames)).p50Ms;
            var median := Percentile(Sort(Times(frames), RealLe), 50.0);
            && (p50Ms > 0.0 <==> median >= 0.000005)
            && (2 * |SpikesOf(Filter(frames, Slow(p50Ms / 1000.0 * 2.0)))| <= |frames|
                <==> median >= 0.000005 || 2 * |Filter(frames, Slow(0.0))| <= |frames|)
  {
    hide Sort, Filter, Percentile, CountOver;
    var values := Times(frames);
    var p50Ms := ComputePercentiles(values).p50Ms;
    var low, median := Sort(values, RealLe)[(|values| - 1) / 2], Percentile(Sort(values, RealLe), 50.0);
    LowerMedian(values);
    SlowFramesAreSlowTimes(frames, p50Ms / 1000.0 * 2.0);
    SlowFramesAreSlowTimes(frames, 0.0);
    HalfOverIff(values, p50Ms / 1000.0 * 2.0);
    SortedIsAscending(values);
    assert low in multiset(values);
    ReportedMedianCovers(low, median);
  }

  /** A positive reported median, doubled, covers the true one despite the rounding. */
  lemma ReportedMedianCovers(low: real, median: real)
    requires 0.0 <= low <= median
    ensures ToMs(median) >= 0.0 && (ToMs(median) > 0.0 <==> median >= 0.000005)
    ensures ToMs(median) > 0.0 ==> low <= ToMs(median) / 1000.0 * 2.0
  {
    var n := Round(median * 100000.0);
    assert n as real <= median * 100000.0 + 0.5 < n as real + 1.0;
  }

  /** With a median of five microseconds or more, at most half of the frames are spikes. */
  lemma SpikesAreTheMinority(frames: seq<Frame>)
    requires frames != [] && forall i :: 0 <= i < |frames| ==> frames[i].ft >= 0.0
    requires Percentile(Sort(Times(frames), RealLe), 50.0) >= 0.000005
    ensures var p50Ms := ComputePercentiles(Times(frames)).p50Ms;
            p50Ms > 0.0 && 2 * |SpikesOf(Filter(frames, Slow(p50Ms / 1000.0 * 2.0)))| <= |frames|
  {
    AtMostHalfSpikeIff(frames);
  }

  /** Frames of four microseconds each: the reported median is zero, and all of them are spikes. */
  lemma EveryFrameASpike()
    ensures var f := Frame(0, 0.000004, None);
            var p50Ms := ComputePercentiles(Times([f])).p50Ms;
            p50Ms == 0.0 && |SpikesOf(Filter([f], Slow(p50Ms / 1000.0 * 2.0)))| == 1
  {
    hide Sort, At;
    var values, sorted := [0.000004], Sort(Times([Frame(0, 0.000004, None)]), RealLe);
    assert Times([Frame(0, 0.000004, None)]) == values;
    SortedIsAscending(values);
    assert sorted[0] in multiset(values);
    PercentileIsMonotone(sorted, 50.0, 50.0);
    assert ToMs(0.000004) == 0.0;
    FilterAll([Frame(0, 0.000004, None)], Slow(0.0));
  }
}
