/**
 The latency summary and its gate: nearest-rank percentiles over the sorted samples, what they
 say about the samples, and that a run which is nowhere slower never does worse.
*/
module Latency {
  import opened Text
  import opened StableSort

  datatype Sample = Finite(ms: real) | NotFinite

  datatype Stats = Stats(
    count: nat,
    interval: real,
    min: real, p25: real, median: real, p75: real, p99: real, max: real,
    medianFrames: real,
    p99Frames: real,
    outliers: nat)

  datatype Gate = Gate(medianMaxFrames: real, p99MaxFrames: real, minIterations: nat)

  datatype Breach = MedianFrames(observed: real, limit: real) | P99Frames(observed: real, limit: real)

  datatype Verdict = Pass | Fail(breaches: seq<Breach>) | Inconclusive(iterations: nat, required: nat)

  /** The least positive normal `f32`. */
  const MIN_POSITIVE: real := 1.0 / 85070591730234615865843651857942052864.0

  function Ceil(x: real): (c: int)
    ensures x <= c as real < x + 1.0
  {
    0 - (0.0 - x).Floor
  }

  function Share(p: real, n: nat): real {
    p / 100.0 * n as real
  }

  /** The 1-based rank, clamped into the samples. */
  function Rank(p: real, n: nat): (k: nat)
    requires n > 0
    ensures 1 <= k <= n
  {
    var rank := Ceil(Share(p, n));
    if rank < 1 then 1 else if rank > n then n else rank
  }

  function Percentile(sorted: seq<real>, p: real): real
    requires sorted != []
  {
    sorted[Rank(p, |sorted|) - 1]
  }

  function Self(x: real): real { x }

  function Sorted(xs: seq<real>): seq<real> {
    Sort(Self, xs)
  }

  lemma SortedMeaning(xs: seq<real>)
    ensures |Sorted(xs)| == |xs| && multiset(Sorted(xs)) == multiset(xs)
    ensures forall i, j :: 0 <= i < j < |xs| ==> Sorted(xs)[i] <= Sorted(xs)[j]
  {
    SortMeaning(Self, xs);
    var s := Sorted(xs);
    forall i, j | 0 <= i < j < |xs| ensures s[i] <= s[j] {
      assert Self(s[i]) <= Self(s[j]);
    }
  }

  // --- counting ---

  /** How many samples are at or below a value. */
  function AtMost(xs: seq<real>, v: real): nat {
    if xs == [] then 0 else AtMost(xs[..|xs| - 1], v) + if xs[|xs| - 1] <= v then 1 else 0
  }

  lemma {:induction false} AtMostJoin(a: seq<real>, b: seq<real>, v: real)
    ensures AtMost(a + b, v) == AtMost(a, v) + AtMost(b, v)
    decreases |b|
  {
    if b == [] {
      assert a + b == a;
    } else {
      assert (a + b)[..|a + b| - 1] == a + b[..|b| - 1];
      AtMostJoin(a, b[..|b| - 1], v);
    }
  }

  lemma AtMostWithout(b: seq<real>, i: nat, v: real)
    requires i < |b|
    ensures AtMost(b, v) == AtMost(b[..i] + b[i + 1..], v) + if b[i] <= v then 1 else 0
  {
    var x, y := b[..i], b[i + 1..];
    AroundOne(b, i);
    AtMostJoin(x + [b[i]], y, v);
    AtMostJoin(x, y, v);
    AtMostAppend(x, b[i], v);
  }

  lemma AroundOne(b: seq<real>, i: nat)
    requires i < |b|
    ensures b == b[..i] + [b[i]] + b[i + 1..]
  {}

  lemma AtMostAppend(xs: seq<real>, x: real, v: real)
    ensures AtMost(xs + [x], v) == AtMost(xs, v) + if x <= v then 1 else 0
  {
    assert (xs + [x])[..|xs|] == xs;
  }

  /** Counting ignores order. */
  lemma {:induction false} AtMostPermuted(a: seq<real>, b: seq<real>, v: real)
    requires multiset(a) == multiset(b)
    ensures AtMost(a, v) == AtMost(b, v)
    decreases |a|
  {
    if a == [] {
      assert |multiset(b)| == |b|;
      assert b == [];
    } else {
      var x, front := a[|a| - 1], a[..|a| - 1];
      assert a == front + [x];
      assert x in multiset(b);
      var i: nat :| i < |b| && b[i] == x;
      WithoutOne(front, x, b, i);
      AtMostPermuted(front, b[..i] + b[i + 1..], v);
      AtMostWithout(b, i, v);
    }
  }

  lemma WithoutOne(front: seq<real>, x: real, b: seq<real>, i: nat)
    requires i < |b| && b[i] == x && multiset(front + [x]) == multiset(b)
    ensures multiset(front) == multiset(b[..i] + b[i + 1..])
  {
    var without := b[..i] + b[i + 1..];
    assert b == b[..i] + [x] + b[i + 1..];
    assert multiset(b) == multiset(without) + multiset{x};
    assert multiset(front) == multiset(b) - multiset{x} == multiset(without);
  }

  predicate Ascending(s: seq<real>) {
    forall i, j :: 0 <= i < j < |s| ==> s[i] <= s[j]
  }

  lemma {:induction false} AtMostAll(s: seq<real>, v: real)
    requires forall i :: 0 <= i < |s| ==> s[i] <= v
    ensures AtMost(s, v) == |s|
  {
    if s != [] { AtMostAll(s[..|s| - 1], v); }
  }

  lemma {:induction false} AtMostNone(s: seq<real>, v: real)
    requires forall i :: 0 <= i < |s| ==> s[i] > v
    ensures AtMost(s, v) == 0
  {
    if s != [] { AtMostNone(s[..|s| - 1], v); }
  }

  lemma {:induction false} AtMostBound(s: seq<real>, v: real)
    ensures AtMost(s, v) <= |s|
  {
    if s != [] { AtMostBound(s[..|s| - 1], v); }
  }

  lemma FirstBelow(s: seq<real>, k: nat, v: real)
    requires Ascending(s) && 1 <= k <= |s| && s[k - 1] <= v
    ensures AtMost(s, v) >= k
  {
    var a, b := s[..k], s[k..];
    assert s == a + b;
    AtMostJoin(a, b, v);
    AtMostAll(a, v);
  }

  lemma RestAbove(s: seq<real>, k: nat, v: real)
    requires Ascending(s) && 1 <= k <= |s| && s[k - 1] > v
    ensures AtMost(s, v) < k
  {
    var a, b := s[..k - 1], s[k - 1..];
    assert s == a + b;
    AtMostJoin(a, b, v);
    AtMostNone(b, v);
    AtMostBound(a, v);
  }

  /** The k-th of the ordered samples is at or below a value exactly when k of them are. */
  lemma KthBelow(s: seq<real>, k: nat, v: real)
    requires Ascending(s) && 1 <= k <= |s|
    ensures s[k - 1] <= v <==> AtMost(s, v) >= k
  {
    if s[k - 1] <= v { FirstBelow(s, k, v); } else { RestAbove(s, k, v); }
  }

  /** Enough samples for the percentile: a share of `p` in a hundred, and at least one. */
  predicate Enough(p: real, n: nat, count: nat) {
    count >= 1 && Share(p, n) <= count as real
  }

  lemma RankIsLeast(p: real, n: nat, count: nat)
    requires n > 0 && p <= 100.0 && count <= n
    ensures count >= Rank(p, n) <==> Enough(p, n, count)
  {
    var share := Share(p, n);
    var rank := Ceil(share);
    assert p / 100.0 <= 1.0;
    ShareBound(p / 100.0, n as real);
    assert share <= n as real;
    assert count < rank ==> count as real <= rank as real - 1.0 < share;
  }

  lemma ShareBound(q: real, n: real)
    requires q <= 1.0 && n >= 0.0
    ensures q * n <= n
  {
    assert n - q * n == (1.0 - q) * n;
  }

  /** The percentile is the least sample such that at least `p` in a hundred of the samples are
      at or below it. */
  lemma PercentileMeaning(xs: seq<real>, p: real)
    requires xs != [] && p <= 100.0
    ensures |Sorted(xs)| == |xs|
    ensures var v := Percentile(Sorted(xs), p);
      && v in xs
      && Enough(p, |xs|, AtMost(xs, v))
      && forall w :: Enough(p, |xs|, AtMost(xs, w)) ==> v <= w
  {
    SortedMeaning(xs);
    var s, k := Sorted(xs), Rank(p, |xs|);
    var v := Percentile(s, p);
    assert v in multiset(s);
    forall w ensures v <= w <==> Enough(p, |xs|, AtMost(xs, w)) {
      KthBelow(s, k, w);
      AtMostPermuted(s, xs, w);
      AtMostBound(xs, w);
      RankIsLeast(p, |xs|, AtMost(xs, w));
    }
  }

  /** No sample of `a` is above the one in the same place of `b`. */
  predicate NoSlower(a: seq<real>, b: seq<real>) {
    |a| == |b| && forall i :: 0 <= i < |a| ==> a[i] <= b[i]
  }

  lemma {:induction false} FasterCounts(a: seq<real>, b: seq<real>, v: real)
    requires NoSlower(a, b)
    ensures AtMost(a, v) >= AtMost(b, v)
    decreases |a|
  {
    if a != [] { FasterCounts(a[..|a| - 1], b[..|b| - 1], v); }
  }

  /** Faster samples have no higher percentiles. */
  lemma FasterPercentile(a: seq<real>, b: seq<real>, p: real)
    requires NoSlower(a, b) && a != [] && p <= 100.0
    ensures |Sorted(a)| == |a| && |Sorted(b)| == |b|
    ensures Percentile(Sorted(a), p) <= Percentile(Sorted(b), p)
  {
    PercentileMeaning(a, p);
    PercentileMeaning(b, p);
    var w := Percentile(Sorted(b), p);
    FasterCounts(a, b, w);
    assert Enough(p, |a|, AtMost(a, w));
  }

  lemma LargerShare(p: real, q: real, n: nat)
    requires p <= q
    ensures Share(p, n) <= Share(q, n)
  {
    assert Share(q, n) - Share(p, n) == (q - p) / 100.0 * n as real;
  }

  /** A higher percentage has no lower percentile. */
  lemma PercentilesAscend(xs: seq<real>, p: real, q: real)
    requires xs != [] && 0.0 <= p <= q <= 100.0
    ensures |Sorted(xs)| == |xs|
    ensures Percentile(Sorted(xs), p) <= Percentile(Sorted(xs), q)
  {
    PercentileMeaning(xs, p);
    PercentileMeaning(xs, q);
    var w := Percentile(Sorted(xs), q);
    LargerShare(p, q, |xs|);
    assert Enough(p, |xs|, AtMost(xs, w));
  }

  // --- the summary ---

  function FiniteOf(samples: seq<Sample>): seq<real> {
    if samples == [] then []
    else FiniteOf(samples[..|samples| - 1]) + if samples[|samples| - 1].Finite? then [samples[|samples| - 1].ms] else []
  }

  function IntervalOf(observed: Option<Sample>, deadline: real): (r: real)
    ensures r >= MIN_POSITIVE > 0.0
  {
    var usable := observed.Some? && observed.value.Finite? && observed.value.ms > 0.0;
    var chosen := if usable then observed.value.ms else deadline;
    if chosen > MIN_POSITIVE then chosen else MIN_POSITIVE
  }

  function Fence(p25: real, p75: real): real {
    p75 + 1.5 * (p75 - p25)
  }

  /** A time in present intervals. */
  function Frames(ms: real, interval: real): real
    requires interval > 0.0
  {
    ms / interval
  }

  function Describe(s: seq<real>, interval: real, outliers: nat): Stats
    requires s != [] && interval > 0.0
  {
    var median, p99 := Percentile(s, 50.0), Percentile(s, 99.0);
    Stats(|s|, interval, s[0], Percentile(s, 25.0), median, Percentile(s, 75.0), p99, s[|s| - 1],
      Frames(median, interval), Frames(p99, interval), outliers)
  }

  function Summary(ms: seq<real>, interval: real): Stats
    requires interval > 0.0
  {
    if ms == [] then Stats(0, interval, 0.0, 0.0, 0.0, 0.0, 0.0, 0.0, 0.0, 0.0, 0)
    else
      SortedMeaning(ms);
      var s := Sorted(ms);
      var fence := Fence(Percentile(s, 25.0), Percentile(s, 75.0));
      AtMostBound(s, fence);
      Describe(s, interval, |s| - AtMost(s, fence))
  }

  method KeepFinite(samples: seq<Sample>) returns (ms: seq<real>)
    ensures ms == FiniteOf(samples)
  {
    ms := [];
    for i := 0 to |samples|
      invariant ms == FiniteOf(samples[..i])
    {
      assert samples[..i + 1][..i] == samples[..i];
      if samples[i].Finite? {
        ms := ms + [samples[i].ms];
      }
    }
    assert samples[..|samples|] == samples;
  }

  method CountAbove(ms: seq<real>, fence: real) returns (n: nat)
    ensures n == |ms| - AtMost(ms, fence)
  {
    n := 0;
    for i := 0 to |ms|
      invariant n == i - AtMost(ms[..i], fence)
    {
      assert ms[..i + 1][..i] == ms[..i];
      if ms[i] > fence {
        n := n + 1;
      }
    }
    assert ms[..|ms|] == ms;
  }

  method FromSamples(samples: seq<Sample>, deadline: real, observed: Option<Sample>) returns (stats: Stats)
    ensures stats == Summary(FiniteOf(samples), IntervalOf(observed, deadline))
  {
    var interval := IntervalOf(observed, deadline);
    var ms := KeepFinite(samples);
    if |ms| == 0 {
      return Stats(0, interval, 0.0, 0.0, 0.0, 0.0, 0.0, 0.0, 0.0, 0.0, 0);
    }
    SortedMeaning(ms);
    ms := Sorted(ms);
    var p25 := Percentile(ms, 25.0);
    var p75 := Percentile(ms, 75.0);
    var outliers := CountAbove(ms, Fence(p25, p75));
    stats := Describe(ms, interval, outliers);
  }

  /** The quartet is in order inside the range, and at most one sample in four is an
      outlier. */
  lemma SummaryInOrder(ms: seq<real>, interval: real)
    requires ms != [] && interval > 0.0
    ensures var s := Summary(ms, interval);
      && s.min <= s.p25 <= s.median <= s.p75 <= s.p99 <= s.max
      && s.count == |ms| && 4 * s.outliers <= s.count
  {
    SortedMeaning(ms);
    PercentilesAscend(ms, 25.0, 50.0);
    PercentilesAscend(ms, 50.0, 75.0);
    PercentilesAscend(ms, 75.0, 99.0);
    PercentileMeaning(ms, 75.0);
    var sorted, s := Sorted(ms), Summary(ms, interval);
    AtMostPermuted(sorted, ms, s.p75);
    MoreAtMost(sorted, s.p75, Fence(s.p25, s.p75));
  }

  lemma {:induction false} MoreAtMost(s: seq<real>, v: real, w: real)
    requires v <= w
    ensures AtMost(s, v) <= AtMost(s, w)
  {
    if s != [] { MoreAtMost(s[..|s| - 1], v, w); }
  }

  // --- the gate ---

  method Evaluate(g: Gate, s: Stats) returns (v: Verdict)
    ensures v == Evaluated(g, s)
  {
    if s.count < g.minIterations {
      return Inconclusive(s.count, g.minIterations);
    }
    var breaches: seq<Breach> := [];
    if s.medianFrames > g.medianMaxFrames {
      breaches := breaches + [MedianFrames(s.medianFrames, g.medianMaxFrames)];
    }
    if s.p99Frames > g.p99MaxFrames {
      breaches := breaches + [P99Frames(s.p99Frames, g.p99MaxFrames)];
    }
    v := if breaches == [] then Pass else Fail(breaches);
  }

  function Evaluated(g: Gate, s: Stats): Verdict {
    if s.count < g.minIterations then Inconclusive(s.count, g.minIterations)
    else
      var breaches :=
        (if s.medianFrames > g.medianMaxFrames then [MedianFrames(s.medianFrames, g.medianMaxFrames)] else [])
        + (if s.p99Frames > g.p99MaxFrames then [P99Frames(s.p99Frames, g.p99MaxFrames)] else []);
      if breaches == [] then Pass else Fail(breaches)
  }

  lemma DivideKeepsOrder(a: real, b: real, d: real)
    requires a <= b && d > 0.0
    ensures a / d <= b / d
  {
    assert b / d - a / d == (b - a) / d >= 0.0;
  }

  /** One run's gated figures are no higher than the other's. */
  predicate NoWorse(a: Stats, b: Stats) {
    a.count == b.count && a.medianFrames <= b.medianFrames && a.p99Frames <= b.p99Frames
  }

  lemma FasterSummary(a: seq<real>, b: seq<real>, interval: real)
    requires NoSlower(a, b) && interval > 0.0
    ensures NoWorse(Summary(a, interval), Summary(b, interval))
  {
    if a != [] {
      SortedMeaning(a);
      SortedMeaning(b);
      FasterPercentile(a, b, 50.0);
      FasterPercentile(a, b, 99.0);
      DivideKeepsOrder(Percentile(Sorted(a), 50.0), Percentile(Sorted(b), 50.0), interval);
      DivideKeepsOrder(Percentile(Sorted(a), 99.0), Percentile(Sorted(b), 99.0), interval);
    }
  }

  lemma GateIsMonotone(g: Gate, a: Stats, b: Stats)
    requires NoWorse(a, b)
    ensures var va, vb := Evaluated(g, a), Evaluated(g, b);
      && (va.Inconclusive? <==> vb.Inconclusive?)
      && (vb.Pass? ==> va.Pass?)
      && (va.Fail? ==> vb.Fail? && |va.breaches| <= |vb.breaches|)
  {}

  /** A run that is no slower anywhere never does worse at the gate: if the slower run passes
      so does it, and it fails only where the slower run fails. */
  lemma FasterDoesNoWorse(g: Gate, a: seq<real>, b: seq<real>, interval: real)
    requires NoSlower(a, b) && interval > 0.0
    ensures var va, vb := Evaluated(g, Summary(a, interval)), Evaluated(g, Summary(b, interval));
      && (va.Inconclusive? <==> vb.Inconclusive?)
      && (vb.Pass? ==> va.Pass?)
      && (va.Fail? ==> vb.Fail? && |va.breaches| <= |vb.breaches|)
  {
    FasterSummary(a, b, interval);
    GateIsMonotone(g, Summary(a, interval), Summary(b, interval));
  }

  lemma PassIff(g: Gate, s: Stats, enough: bool, median: bool, tail: bool)
    requires enough <==> s.count >= g.minIterations
    requires median <==> s.medianFrames <= g.medianMaxFrames
    requires tail <==> s.p99Frames <= g.p99MaxFrames
    ensures Evaluated(g, s).Pass? <==> enough && median && tail
  {}

  lemma EnoughRun(g: Gate, ms: seq<real>, interval: real)
    requires interval > 0.0
    ensures Summary(ms, interval).count >= g.minIterations <==> |ms| >= g.minIterations
  {
    SortedMeaning(ms);
  }

  /** At least `p` in a hundred samples take no more than `limit` present intervals. */
  predicate Within(p: real, ms: seq<real>, limit: real, interval: real) {
    Enough(p, |ms|, AtMost(ms, limit * interval))
  }

  lemma MedianWithin(g: Gate, ms: seq<real>, interval: real)
    requires interval > 0.0 && ms != []
    ensures Summary(ms, interval).medianFrames <= g.medianMaxFrames
      <==> Within(50.0, ms, g.medianMaxFrames, interval)
  {
    WithinLimit(ms, 50.0, g.medianMaxFrames, interval);
  }

  lemma TailWithin(g: Gate, ms: seq<real>, interval: real)
    requires interval > 0.0 && ms != []
    ensures Summary(ms, interval).p99Frames <= g.p99MaxFrames
      <==> Within(99.0, ms, g.p99MaxFrames, interval)
  {
    WithinLimit(ms, 99.0, g.p99MaxFrames, interval);
  }

  /** A pass means what it says: enough samples, and at least half of them, and ninety-nine in
      a hundred, within the limits. */
  lemma PassMeans(g: Gate, ms: seq<real>, interval: real, s: Stats)
    requires interval > 0.0 && ms != [] && s == Summary(ms, interval)
    ensures Evaluated(g, s).Pass?
      <==> && |ms| >= g.minIterations
           && Within(50.0, ms, g.medianMaxFrames, interval) && Within(99.0, ms, g.p99MaxFrames, interval)
  {
    EnoughRun(g, ms, interval);
    MedianWithin(g, ms, interval);
    TailWithin(g, ms, interval);
    var median, tail := Within(50.0, ms, g.medianMaxFrames, interval), Within(99.0, ms, g.p99MaxFrames, interval);
    PassIff(g, s, |ms| >= g.minIterations, median, tail);
  }

  lemma WithinLimit(ms: seq<real>, p: real, limit: real, interval: real)
    requires ms != [] && p <= 100.0 && interval > 0.0
    ensures |Sorted(ms)| == |ms|
    ensures Frames(Percentile(Sorted(ms), p), interval) <= limit <==> Within(p, ms, limit, interval)
  {
    PercentileMeaning(ms, p);
    var v := Percentile(Sorted(ms), p);
    assert v / interval <= limit <==> v <= limit * interval by {
      if v / interval <= limit {
        assert v / interval * interval == v;
        assert (limit - v / interval) * interval >= 0.0;
      } else {
        assert v / interval * interval == v;
        assert (v / interval - limit) * interval > 0.0;
      }
    }
    if v <= limit * interval {
      MoreAtMost(ms, v, limit * interval);
    }
  }

  // --- the whole summary, said of the samples ---

  /** The finite samples are kept, in order, and no others. */
  lemma {:induction false} FiniteOfJoin(a: seq<Sample>, b: seq<Sample>)
    ensures FiniteOf(a + b) == FiniteOf(a) + FiniteOf(b)
    decreases |b|
  {
    if b == [] {
      assert a + b == a;
    } else {
      assert (a + b)[..|a + b| - 1] == a + b[..|b| - 1];
      FiniteOfJoin(a, b[..|b| - 1]);
    }
  }

  lemma FiniteOfOne(x: Sample)
    ensures FiniteOf([x]) == if x.Finite? then [x.ms] else []
  {
    assert [x][..0] == [];
  }

  /** The observed interval counts when it is a positive number, else the deadline does; neither
      below the least positive number. */
  lemma IntervalMeaning(observed: Option<Sample>, deadline: real)
    ensures var usable := observed.Some? && observed.value.Finite? && observed.value.ms > 0.0;
      var r := IntervalOf(observed, deadline);
      && (usable && observed.value.ms >= MIN_POSITIVE ==> r == observed.value.ms)
      && (!usable && deadline >= MIN_POSITIVE ==> r == deadline)
      && (r == MIN_POSITIVE || r == (if usable then observed.value.ms else deadline))
  {}

  /** The least sample with at least `p` in a hundred at or below it. */
  ghost predicate IsPercentile(ms: seq<real>, p: real, v: real) {
    v in ms && Enough(p, |ms|, AtMost(ms, v)) && forall w :: Enough(p, |ms|, AtMost(ms, w)) ==> v <= w
  }

  predicate IsRange(ms: seq<real>, low: real, high: real) {
    low in ms && high in ms && forall i :: 0 <= i < |ms| ==> low <= ms[i] <= high
  }

  lemma RangeOfSorted(ms: seq<real>)
    requires ms != []
    ensures |Sorted(ms)| == |ms| && IsRange(ms, Sorted(ms)[0], Sorted(ms)[|ms| - 1])
  {
    SortedMeaning(ms);
    var s := Sorted(ms);
    assert s[0] in multiset(s) && s[|s| - 1] in multiset(s);
    forall i | 0 <= i < |ms| ensures s[0] <= ms[i] <= s[|s| - 1] {
      assert ms[i] in multiset(s);
      var k :| 0 <= k < |s| && s[k] == ms[i];
    }
  }

  /** Every figure, in terms of the samples themselves: the range, the percentiles, how many
      are beyond the upper fence, and the two times in intervals. */
  ghost predicate Summarises(s: Stats, ms: seq<real>, interval: real)
    requires interval > 0.0
  {
    && s.count == |ms| && s.interval == interval && IsRange(ms, s.min, s.max)
    && IsPercentile(ms, 25.0, s.p25) && IsPercentile(ms, 50.0, s.median)
    && IsPercentile(ms, 75.0, s.p75) && IsPercentile(ms, 99.0, s.p99)
    && s.medianFrames == s.median / interval && s.p99Frames == s.p99 / interval
    && s.outliers == |ms| - AtMost(ms, s.p75 + 1.5 * (s.p75 - s.p25))
  }

  lemma SummaryMeaning(ms: seq<real>, interval: real)
    requires ms != [] && interval > 0.0
    ensures Summarises(Summary(ms, interval), ms, interval)
  {
    RangeFigures(ms, interval);
    PercentileFigures(ms, interval);
    FrameFigures(ms, interval);
    OutlierFigure(ms, interval);
    AllFigures(Summary(ms, interval), ms, interval);
  }

  lemma AllFigures(s: Stats, ms: seq<real>, interval: real)
    requires interval > 0.0
    requires s.count == |ms| && s.interval == interval && IsRange(ms, s.min, s.max)
    requires IsPercentile(ms, 25.0, s.p25) && IsPercentile(ms, 50.0, s.median)
    requires IsPercentile(ms, 75.0, s.p75) && IsPercentile(ms, 99.0, s.p99)
    requires s.medianFrames == s.median / interval && s.p99Frames == s.p99 / interval
    requires s.outliers == |ms| - AtMost(ms, Fence(s.p25, s.p75))
    ensures Summarises(s, ms, interval)
  {}

  lemma RangeFigures(ms: seq<real>, interval: real)
    requires ms != [] && interval > 0.0
    ensures var s := Summary(ms, interval);
      s.count == |ms| && s.interval == interval && IsRange(ms, s.min, s.max)
  {
    RangeOfSorted(ms);
  }

  lemma PercentileFigure(ms: seq<real>, p: real)
    requires ms != [] && p <= 100.0
    ensures |Sorted(ms)| == |ms| && IsPercentile(ms, p, Percentile(Sorted(ms), p))
  {
    PercentileMeaning(ms, p);
  }

  lemma PercentileFigures(ms: seq<real>, interval: real)
    requires ms != [] && interval > 0.0
    ensures var s := Summary(ms, interval);
      && IsPercentile(ms, 25.0, s.p25) && IsPercentile(ms, 50.0, s.median)
      && IsPercentile(ms, 75.0, s.p75) && IsPercentile(ms, 99.0, s.p99)
  {
    PercentileFigure(ms, 25.0);
    PercentileFigure(ms, 50.0);
    PercentileFigure(ms, 75.0);
    PercentileFigure(ms, 99.0);
  }

  lemma FrameFigures(ms: seq<real>, interval: real)
    requires ms != [] && interval > 0.0
    ensures var s := Summary(ms, interval);
      s.medianFrames == s.median / interval && s.p99Frames == s.p99 / interval
  {}

  lemma OutlierFigure(ms: seq<real>, interval: real)
    requires ms != [] && interval > 0.0
    ensures var s := Summary(ms, interval);
      s.outliers == |ms| - AtMost(ms, Fence(s.p25, s.p75))
  {
    var s := Summary(ms, interval);
    SortedMeaning(ms);
    AtMostPermuted(Sorted(ms), ms, Fence(s.p25, s.p75));
  }

  /** What the gate says of a run: too short, with both counts; or the shares that are not
      within their limits, each with what was seen and what was allowed. */
  lemma VerdictMeaning(g: Gate, ms: seq<real>, interval: real, s: Stats)
    requires interval > 0.0 && ms != [] && s == Summary(ms, interval)
    ensures var v := Evaluated(g, s);
      && (v.Inconclusive? <==> |ms| < g.minIterations)
      && (v.Inconclusive? ==> v.iterations == |ms| && v.required == g.minIterations)
      && (v.Fail? ==>
            v.breaches
            == (if Within(50.0, ms, g.medianMaxFrames, interval) then []
                else [MedianFrames(s.medianFrames, g.medianMaxFrames)])
             + (if Within(99.0, ms, g.p99MaxFrames, interval) then []
                else [P99Frames(s.p99Frames, g.p99MaxFrames)]))
  {
    EnoughRun(g, ms, interval);
    MedianWithin(g, ms, interval);
    TailWithin(g, ms, interval);
    SortedMeaning(ms);
  }
}
