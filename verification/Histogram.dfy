/**
 The aggregates of a histogram: weighted samples, sorted in place, walked once for the
 median and once for the 95th percentile. Weights are exact reals.
 */
module Histogram {
  import opened Sums

  datatype HistSample = HistSample(value: real, weight: real)

  /** What a histogram context is flushed as. */
  datatype Aggregates = Aggregates(count: real, avg: real, median: real, max: real, p95: real)

  // ---- sums that decide every aggregate ----

  function Mass(): HistSample -> real { (s: HistSample) => s.weight }

  function Moment(): HistSample -> real { (s: HistSample) => s.value * s.weight }

  function MassBelow(v: real): HistSample -> real { (s: HistSample) => if s.value < v then s.weight else 0.0 }

  function MassUpTo(v: real): HistSample -> real { (s: HistSample) => if s.value <= v then s.weight else 0.0 }

  function Total(ss: seq<HistSample>): real { Sum(ss, Mass()) }

  function Below(ss: seq<HistSample>, v: real): real { Sum(ss, MassBelow(v)) }

  function UpTo(ss: seq<HistSample>, v: real): real { Sum(ss, MassUpTo(v)) }

  ghost predicate Positive(ss: seq<HistSample>)
  {
    forall k | 0 <= k < |ss| :: ss[k].weight > 0.0
  }

  ghost predicate Sorted(ss: seq<HistSample>)
  {
    forall i, j | 0 <= i < j < |ss| :: ss[i].value <= ss[j].value
  }

  /** The q with weight(values < q) <= target < weight(values <= q), where a negative target
      means 0. No order of the samples is mentioned. */
  ghost predicate IsQuantile(ss: seq<HistSample>, target: real, q: real)
  {
    var t := if target < 0.0 then 0.0 else target;
    Below(ss, q) <= t < UpTo(ss, q)
  }

  ghost predicate IsMin(ss: seq<HistSample>, m: real)
  {
    && (exists k :: 0 <= k < |ss| && ss[k].value == m)
    && forall k | 0 <= k < |ss| :: m <= ss[k].value
  }

  ghost predicate IsMax(ss: seq<HistSample>, m: real)
  {
    && (exists k :: 0 <= k < |ss| && ss[k].value == m)
    && forall k | 0 <= k < |ss| :: ss[k].value <= m
  }

  ghost predicate IsAggregates(ss: seq<HistSample>, interval: int, a: Aggregates)
    requires interval > 0 && Total(ss) > 0.0
  {
    && a.count * interval as real == Total(ss)
    && a.avg * Total(ss) == Sum(ss, Moment())
    && IsQuantile(ss, (Total(ss) - 1.0) / 2.0, a.median)
    && IsMax(ss, a.max)
    && IsQuantile(ss, (95.0 * Total(ss) - 1.0) / 100.0, a.p95)
  }

  // ---- what the sums say ----

  lemma TotalPositive(ss: seq<HistSample>)
    requires ss != [] && Positive(ss)
    ensures Total(ss) > 0.0
  {
    SumBelow(ss, (s: HistSample) => 0.0, Mass(), 0);
    SumZero(ss, (s: HistSample) => 0.0);
  }

  lemma {:induction false} SumZero<T>(ss: seq<T>, f: T -> real)
    requires forall k | 0 <= k < |ss| :: f(ss[k]) == 0.0
    ensures Sum(ss, f) == 0.0
  {
    if ss == [] {
    } else {
      SumZero(ss[..|ss| - 1], f);
    }
  }

  lemma BelowIsNotNegative(ss: seq<HistSample>, q: real)
    requires Positive(ss)
    ensures 0.0 <= Below(ss, q) && UpTo(ss, q) <= Total(ss)
  {
    SumZero(ss, (s: HistSample) => 0.0);
    SumAtMost(ss, (s: HistSample) => 0.0, MassBelow(q));
    SumAtMost(ss, MassUpTo(q), Mass());
  }

  /** All the weight up to `p` lies strictly below any larger `q`. */
  lemma UpToBelow(ss: seq<HistSample>, p: real, q: real)
    requires Positive(ss) && p < q
    ensures UpTo(ss, p) <= Below(ss, q)
  {
    SumAtMost(ss, MassUpTo(p), MassBelow(q));
  }

  /** A quantile is the value of some sample. */
  lemma QuantileIsSample(ss: seq<HistSample>, target: real, q: real)
    requires IsQuantile(ss, target, q)
    ensures exists k :: 0 <= k < |ss| && ss[k].value == q
  {
    if !exists k :: 0 <= k < |ss| && ss[k].value == q {
      SumSame(ss, MassBelow(q), MassUpTo(q));
    }
  }

  /** Larger targets have larger quantiles. */
  lemma QuantileMonotone(ss: seq<HistSample>, t: real, u: real, p: real, q: real)
    requires Positive(ss) && t <= u && IsQuantile(ss, t, p) && IsQuantile(ss, u, q)
    ensures p <= q
  {
    if q < p {
      UpToBelow(ss, q, p);
    }
  }

  lemma QuantileUnique(ss: seq<HistSample>, target: real, p: real, q: real)
    requires Positive(ss) && IsQuantile(ss, target, p) && IsQuantile(ss, target, q)
    ensures p == q
  {
    QuantileMonotone(ss, target, target, p, q);
    QuantileMonotone(ss, target, target, q, p);
  }

  /** The greatest sample value among the first `n` that is below `q`. */
  lemma {:induction false} GreatestBelow(ss: seq<HistSample>, n: nat, q: real) returns (i: nat)
    requires n <= |ss| && exists k :: 0 <= k < n && ss[k].value < q
    ensures i < n && ss[i].value < q
    ensures forall k | 0 <= k < n && ss[k].value < q :: ss[k].value <= ss[i].value
  {
    var last := n - 1;
    if forall k | 0 <= k < last :: ss[k].value >= q {
      i := last;
    } else {
      var j := GreatestBelow(ss, last, q);
      i := if ss[last].value >= q || ss[last].value < ss[j].value then j else last;
    }
  }

  /** The least sample value among the first `n` with more than `t` of weight up to it. */
  lemma {:induction false} LeastAbove(ss: seq<HistSample>, n: nat, t: real) returns (i: nat)
    requires n <= |ss| && exists k :: 0 <= k < n && UpTo(ss, ss[k].value) > t
    ensures i < n && UpTo(ss, ss[i].value) > t
    ensures forall k | 0 <= k < n && UpTo(ss, ss[k].value) > t :: ss[i].value <= ss[k].value
  {
    hide UpTo;
    var last := n - 1;
    if forall k | 0 <= k < last :: UpTo(ss, ss[k].value) <= t {
      i := last;
    } else {
      var j := LeastAbove(ss, last, t);
      i := if UpTo(ss, ss[last].value) <= t || ss[j].value < ss[last].value then j else last;
    }
  }

  lemma BelowIsUpTo(ss: seq<HistSample>, q: real, i: nat)
    requires i < |ss| && ss[i].value < q
    requires forall k | 0 <= k < |ss| && ss[k].value < q :: ss[k].value <= ss[i].value
    ensures Below(ss, q) == UpTo(ss, ss[i].value)
  {
    SumSame(ss, MassBelow(q), MassUpTo(ss[i].value));
  }

  lemma NothingBelow(ss: seq<HistSample>, q: real)
    requires forall k | 0 <= k < |ss| :: ss[k].value >= q
    ensures Below(ss, q) == 0.0
  {
    SumZero(ss, MassBelow(q));
  }

  lemma UpToMax(ss: seq<HistSample>, m: real)
    requires IsMax(ss, m)
    ensures UpTo(ss, m) == Total(ss)
  {
    SumSame(ss, MassUpTo(m), Mass());
  }

  lemma {:induction false} MaxExists(ss: seq<HistSample>) returns (m: real)
    requires ss != []
    ensures IsMax(ss, m)
  {
    var last := |ss| - 1;
    m := ss[last].value;
    if last > 0 {
      var p := MaxExists(ss[..last]);
      var k :| 0 <= k < last && ss[..last][k].value == p;
      assert ss[k].value == p;
      m := if p > m then p else m;
      forall k | 0 <= k < |ss|
        ensures ss[k].value <= m
      {
        assert k < last ==> ss[..last][k].value <= p;
      }
    } else {
      assert ss[0].value == m;
    }
  }

  /** There is a quantile for every target below the total weight; with `QuantileUnique` and
      `QuantileIsSample` it is the one sample value between whose weights the target lies. */
  lemma QuantileExists(ss: seq<HistSample>, target: real) returns (q: real)
    requires ss != [] && Positive(ss) && target < Total(ss)
    ensures IsQuantile(ss, target, q)
  {
    TotalPositive(ss);
    var t := if target < 0.0 then 0.0 else target;
    var m := MaxExists(ss);
    UpToMax(ss, m);
    hide Total, Sum;
    var k :| 0 <= k < |ss| && ss[k].value == m;
    assert UpTo(ss, ss[k].value) > t;
    var i := LeastAbove(ss, |ss|, t);
    q := ss[i].value;
    if exists k :: 0 <= k < |ss| && ss[k].value < q {
      var j := GreatestBelow(ss, |ss|, q);
      BelowIsUpTo(ss, q, j);
    } else {
      NothingBelow(ss, q);
    }
  }

  /** A negative target selects the least sample. */
  lemma NegativeTargetIsMin(ss: seq<HistSample>, target: real, q: real)
    requires Positive(ss) && target < 0.0 && IsQuantile(ss, target, q)
    ensures IsMin(ss, q)
  {
    QuantileIsSample(ss, target, q);
    BelowIsNotNegative(ss, q);
    if k :| 0 <= k < |ss| && ss[k].value < q {
      SumZero(ss, (s: HistSample) => 0.0);
      SumBelow(ss, (s: HistSample) => 0.0, MassBelow(q), k);
    }
  }

  /** In a sorted list, the samples before position `i` hold everything below the value
      at `i`, and those up to `i` hold nothing above it. */
  lemma SortedSplit(ss: seq<HistSample>, i: nat)
    requires Sorted(ss) && Positive(ss) && i < |ss|
    ensures Below(ss, ss[i].value) <= Total(ss[..i])
    ensures Total(ss[..i + 1]) <= UpTo(ss, ss[i].value)
  {
    var q := ss[i].value;
    assert ss == ss[..i] + ss[i..] && ss == ss[..i + 1] + ss[i + 1..];
    SumAppend(ss[..i], ss[i..], MassBelow(q));
    SumZero(ss[i..], MassBelow(q));
    SumAtMost(ss[..i], MassBelow(q), Mass());
    SumAppend(ss[..i + 1], ss[i + 1..], MassUpTo(q));
    SumSame(ss[..i + 1], MassUpTo(q), Mass());
    SumZero(ss[i + 1..], (s: HistSample) => 0.0);
    SumAtMost(ss[i + 1..], (s: HistSample) => 0.0, MassUpTo(q));
  }

  // ---- the program ----

  /** The walk over the sorted samples. It finds the quantile whenever the target is below
      the total weight; only otherwise does it fall through to the last sample. */
  method WeightedQuantile(samples: seq<HistSample>, target: real) returns (q: real)
    requires samples != [] && Sorted(samples) && Positive(samples)
    ensures target < Total(samples) ==> IsQuantile(samples, target, q)
    ensures target >= Total(samples) ==> q == samples[|samples| - 1].value
  {
    hide Sum, Positive, Sorted;
    var weight := 0.0;
    NothingWeighs();
    for i := 0 to |samples|
      invariant weight == Total(samples[..i])
      invariant i > 0 ==> weight <= target
    {
      assert samples[..i + 1] == samples[..i] + [samples[i]];
      SumSnoc(samples[..i], samples[i], Mass());
      weight := weight + samples[i].weight;
      SortedSplit(samples, i);
      BelowIsNotNegative(samples, samples[i].value);
      if weight > target {
        Prefix(samples, i + 1);
        StartsEmpty(samples, i);
        return samples[i].value;
      }
    }
    assert samples[..|samples|] == samples;
    return samples[|samples| - 1].value;
  }

  lemma NothingWeighs()
    ensures Total([]) == 0.0
  {
  }

  lemma StartsEmpty(ss: seq<HistSample>, i: nat)
    requires i < |ss| && Positive(ss)
    ensures i == 0 ==> Total(ss[..i]) == 0.0
    ensures Total(ss[..i + 1]) > 0.0
  {
    TotalPositive(ss[..i + 1]);
  }

  lemma Prefix(ss: seq<HistSample>, i: nat)
    requires i <= |ss| && Positive(ss)
    ensures Total(ss[..i]) <= Total(ss)
  {
    assert ss == ss[..i] + ss[i..];
    SumAppend(ss[..i], ss[i..], Mass());
    SumZero(ss[i..], (s: HistSample) => 0.0);
    SumAtMost(ss[i..], (s: HistSample) => 0.0, Mass());
  }

  /** The library sort: some permutation in ascending order of value, ties anyhow. */
  method SortByValue(a: array<HistSample>)
    modifies a
    ensures Sorted(a[..]) && multiset(a[..]) == multiset(old(a[..]))
  {
    for i := 0 to a.Length
      invariant Sorted(a[..i]) && multiset(a[..]) == multiset(old(a[..]))
    {
      Insert(a, i);
    }
    assert a[..a.Length] == a[..];
  }

  /** Move element `i` down to its place among the sorted ones before it. */
  method Insert(a: array<HistSample>, i: nat)
    requires i < a.Length && Sorted(a[..i])
    modifies a
    ensures Sorted(a[..i + 1]) && multiset(a[..]) == multiset(old(a[..]))
  {
    var j: nat := i;
    while j > 0 && a[j].value < a[j - 1].value
      invariant j <= i
      invariant forall m, n | 0 <= m < n <= i && n != j :: a[m].value <= a[n].value
      invariant forall n | j < n <= i :: a[j].value <= a[n].value
      invariant multiset(a[..]) == multiset(old(a[..]))
    {
      SwapDown(a, j);
      j := j - 1;
    }
  }

  method SwapDown(a: array<HistSample>, j: nat)
    requires 0 < j < a.Length
    modifies a
    ensures a[j - 1] == old(a[j]) && a[j] == old(a[j - 1])
    ensures forall k | 0 <= k < a.Length && k != j && k != j - 1 :: a[k] == old(a[k])
    ensures multiset(a[..]) == multiset(old(a[..]))
  {
    a[j - 1], a[j] := a[j], a[j - 1];
  }

  /** What a histogram context is flushed as. The samples are sorted in place and all five
      values follow; whichever way the sort leaves ties, they are the aggregates of the
      samples as they arrived, and the fall-through of the walk is never taken. */
  method HistogramSeries(samples: array<HistSample>, count: real, interval: int) returns (a: Aggregates)
    requires samples.Length > 0 && Positive(samples[..]) && count == Total(samples[..]) && interval > 0
    modifies samples
    ensures multiset(samples[..]) == multiset(old(samples[..]))
    ensures Total(old(samples[..])) > 0.0 && IsAggregates(old(samples[..]), interval, a)
  {
    hide Sum, IsQuantile;
    ghost var arrived := samples[..];
    TotalPositive(arrived);
    SortByValue(samples);
    ghost var ss := samples[..];
    SameSamples(ss, arrived);
    var sum := 0.0;
    NothingSums();
    for i := 0 to samples.Length
      invariant samples[..] == ss && sum == Sum(ss[..i], Moment())
    {
      assert ss[..i + 1] == ss[..i] + [ss[i]];
      SumSnoc(ss[..i], ss[i], Moment());
      sum := sum + samples[i].value * samples[i].weight;
    }
    assert ss[..samples.Length] == ss;
    var median := WeightedQuantile(samples[..], (count - 1.0) / 2.0);
    var p95 := WeightedQuantile(samples[..], (95.0 * count - 1.0) / 100.0);
    a := Aggregates(count / interval as real, sum / count, median, samples[samples.Length - 1].value, p95);
    QuantileOf(ss, arrived, (count - 1.0) / 2.0, median);
    QuantileOf(ss, arrived, (95.0 * count - 1.0) / 100.0, p95);
    LastIsMax(ss, arrived);
  }

  lemma NothingSums()
    ensures Sum([], Moment()) == 0.0
  {
  }

  lemma LastIsMax(ss: seq<HistSample>, arrived: seq<HistSample>)
    requires ss != [] && Sorted(ss) && multiset(ss) == multiset(arrived)
    ensures IsMax(arrived, ss[|ss| - 1].value)
  {
    var last := ss[|ss| - 1];
    assert last in multiset(arrived);
    forall k | 0 <= k < |arrived|
      ensures arrived[k].value <= last.value
    {
      assert arrived[k] in multiset(ss);
    }
  }

  /** Sums over a permutation, and its positive weights. */
  lemma SameSamples(a: seq<HistSample>, b: seq<HistSample>)
    requires multiset(a) == multiset(b) && Positive(b)
    ensures |a| == |b| && Positive(a) && SameWeights(a, b)
  {
    assert |multiset(a)| == |a| && |multiset(b)| == |b|;
    forall k | 0 <= k < |a|
      ensures a[k].weight > 0.0
    {
      assert a[k] in multiset(b);
    }
    SumPermuted(a, b, Mass());
    SumPermuted(a, b, Moment());
    forall v
      ensures Below(a, v) == Below(b, v) && UpTo(a, v) == UpTo(b, v)
    {
      SumPermuted(a, b, MassBelow(v));
      SumPermuted(a, b, MassUpTo(v));
    }
  }

  lemma QuantileOf(a: seq<HistSample>, b: seq<HistSample>, target: real, q: real)
    requires SameWeights(a, b) && IsQuantile(a, target, q)
    ensures IsQuantile(b, target, q)
  {
    assert Below(a, q) == Below(b, q) && UpTo(a, q) == UpTo(b, q);
  }

  // ---- laws ----

  /** Equal weight on either side of every value. */
  ghost predicate SameWeights(a: seq<HistSample>, b: seq<HistSample>)
  {
    && Total(a) == Total(b) && Sum(a, Moment()) == Sum(b, Moment())
    && forall v :: Below(a, v) == Below(b, v) && UpTo(a, v) == UpTo(b, v)
  }

  /** A value is among the samples exactly when it carries weight. */
  lemma ValueHasWeight(ss: seq<HistSample>, v: real)
    requires Positive(ss)
    ensures (exists k :: 0 <= k < |ss| && ss[k].value == v) <==> Below(ss, v) < UpTo(ss, v)
  {
    if k :| 0 <= k < |ss| && ss[k].value == v {
      SumBelow(ss, MassBelow(v), MassUpTo(v), k);
    } else {
      SumSame(ss, MassBelow(v), MassUpTo(v));
    }
  }

  lemma MaxOf(a: seq<HistSample>, b: seq<HistSample>, m: real)
    requires Positive(a) && Positive(b) && SameWeights(a, b) && IsMax(a, m)
    ensures IsMax(b, m)
  {
    hide Sum;
    ValueHasWeight(a, m);
    ValueHasWeight(b, m);
    forall k | 0 <= k < |b|
      ensures b[k].value <= m
    {
      ValueHasWeight(a, b[k].value);
      ValueHasWeight(b, b[k].value);
    }
  }

  /** The aggregates are a function of how much weight each value carries: not of the order
      of arrival, nor of how a value's weight is split over samples. */
  lemma AggregatesDetermined(a: seq<HistSample>, b: seq<HistSample>, interval: int, x: Aggregates, y: Aggregates)
    requires interval > 0 && Positive(a) && Positive(b) && SameWeights(a, b) && Total(a) > 0.0
    requires IsAggregates(a, interval, x) && IsAggregates(b, interval, y)
    ensures x == y
  {
    hide Sum;
    var t := Total(a);
    Cancel(x.count, y.count, interval as real);
    Cancel(x.avg, y.avg, t);
    QuantileOf(a, b, (t - 1.0) / 2.0, x.median);
    QuantileUnique(b, (t - 1.0) / 2.0, x.median, y.median);
    QuantileOf(a, b, (95.0 * t - 1.0) / 100.0, x.p95);
    QuantileUnique(b, (95.0 * t - 1.0) / 100.0, x.p95, y.p95);
    MaxOf(a, b, x.max);
  }

  lemma Cancel(x: real, y: real, d: real)
    requires d != 0.0 && x * d == y * d
    ensures x == y
  {
    assert x == x * d / d && y == y * d / d;
  }

  /** Every order of arrival gives the same aggregates. */
  lemma ArrivalOrderDoesNotMatter(a: seq<HistSample>, b: seq<HistSample>, interval: int, x: Aggregates, y: Aggregates)
    requires interval > 0 && a != [] && Positive(a) && multiset(a) == multiset(b)
    requires Total(a) > 0.0 && Total(b) > 0.0 && IsAggregates(a, interval, x) && IsAggregates(b, interval, y)
    ensures x == y
  {
    SameSamples(b, a);
    AggregatesDetermined(a, b, interval, x, y);
  }

  // ---- a sample at rate 1/k stands for k samples ----

  /** A value submitted at rate 1/k. */
  datatype Submission = Submission(value: real, k: int)

  ghost predicate Counted(subs: seq<Submission>)
  {
    forall i | 0 <= i < |subs| :: subs[i].k > 0
  }

  /** One sample of weight 1/(1/k) for each submission. */
  function Sampled(subs: seq<Submission>): (ss: seq<HistSample>)
    requires Counted(subs)
    ensures |ss| == |subs|
  {
    if subs == [] then []
    else
      var s := subs[|subs| - 1];
      Sampled(subs[..|subs| - 1]) + [HistSample(s.value, 1.0 / (1.0 / s.k as real))]
  }

  function Copies(v: real, k: nat): (ss: seq<HistSample>)
    ensures |ss| == k
  {
    if k == 0 then [] else Copies(v, k - 1) + [HistSample(v, 1.0)]
  }

  /** k samples of weight 1 for each submission. */
  function Unsampled(subs: seq<Submission>): seq<HistSample>
    requires Counted(subs)
  {
    if subs == [] then []
    else Unsampled(subs[..|subs| - 1]) + Copies(subs[|subs| - 1].value, subs[|subs| - 1].k)
  }

  ghost predicate Linear(f: HistSample -> real)
  {
    forall v, w: real :: f(HistSample(v, w)) == w * f(HistSample(v, 1.0))
  }

  lemma {:induction false} CopiesSum(v: real, k: nat, f: HistSample -> real)
    ensures Sum(Copies(v, k), f) == k as real * f(HistSample(v, 1.0))
  {
    if k == 0 {
    } else {
      CopiesSum(v, k - 1, f);
      SumSnoc(Copies(v, k - 1), HistSample(v, 1.0), f);
    }
  }

  lemma RateOneOverK(k: int)
    requires k > 0
    ensures 1.0 / (1.0 / k as real) == k as real
  {
    var r := 1.0 / k as real;
    assert r * k as real == 1.0 && r > 0.0;
    assert k as real == (r * k as real) / r;
  }

  lemma {:induction false} LinearSumsAgree(subs: seq<Submission>, f: HistSample -> real)
    requires Counted(subs) && Linear(f)
    ensures Sum(Sampled(subs), f) == Sum(Unsampled(subs), f)
  {
    hide Sum, Copies;
    if subs == [] {
    } else {
      var before, s := subs[..|subs| - 1], subs[|subs| - 1];
      LinearSumsAgree(before, f);
      RateOneOverK(s.k);
      SumSnoc(Sampled(before), HistSample(s.value, s.k as real), f);
      SumAppend(Unsampled(before), Copies(s.value, s.k), f);
      CopiesSum(s.value, s.k, f);
    }
  }

  lemma {:induction false} BothPositive(subs: seq<Submission>)
    requires Counted(subs)
    ensures Positive(Sampled(subs)) && Positive(Unsampled(subs))
  {
    if subs == [] {
    } else {
      var s := subs[|subs| - 1];
      BothPositive(subs[..|subs| - 1]);
      RateOneOverK(s.k);
      CopiesPositive(s.value, s.k);
    }
  }

  lemma {:induction false} CopiesPositive(v: real, k: nat)
    ensures Positive(Copies(v, k))
  {
    if k == 0 {
    } else {
      CopiesPositive(v, k - 1);
    }
  }

  lemma SamplingKeepsWeights(subs: seq<Submission>)
    requires Counted(subs)
    ensures SameWeights(Sampled(subs), Unsampled(subs))
  {
    hide Sum, Sampled, Unsampled, Linear;
    MassesLinear(0.0);
    LinearSumsAgree(subs, Mass());
    LinearSumsAgree(subs, Moment());
    forall v
      ensures Below(Sampled(subs), v) == Below(Unsampled(subs), v) && UpTo(Sampled(subs), v) == UpTo(Unsampled(subs), v)
    {
      MassesLinear(v);
      LinearSumsAgree(subs, MassBelow(v));
      LinearSumsAgree(subs, MassUpTo(v));
    }
  }

  lemma MassesLinear(v: real)
    ensures Linear(Mass()) && Linear(Moment()) && Linear(MassBelow(v)) && Linear(MassUpTo(v))
  {
    MomentLinear();
    assert Linear(Mass());
    BelowLinear(v);
    UpToLinear(v);
    hide Linear;
  }

  lemma MomentLinear()
    ensures Linear(Moment())
  {
  }

  lemma BelowLinear(v: real)
    ensures Linear(MassBelow(v))
  {
  }

  lemma UpToLinear(v: real)
    ensures Linear(MassUpTo(v))
  {
  }

  /** Sampling is exact: values submitted at rates 1/k flush to the same five aggregates as
      k submissions each at rate 1, in whatever order either stream arrives. */
  lemma SamplingEquivalence(subs: seq<Submission>, a: seq<HistSample>, b: seq<HistSample>, interval: int,
                            x: Aggregates, y: Aggregates)
    requires Counted(subs) && subs != [] && interval > 0
    requires multiset(a) == multiset(Sampled(subs)) && multiset(b) == multiset(Unsampled(subs))
    requires Total(a) > 0.0 && Total(b) > 0.0 && IsAggregates(a, interval, x) && IsAggregates(b, interval, y)
    ensures x == y
  {
    hide Sum, Sampled, Unsampled, IsAggregates;
    BothPositive(subs);
    SamplingKeepsWeights(subs);
    SameSamples(a, Sampled(subs));
    SameSamples(b, Unsampled(subs));
    AggregatesDetermined(a, b, interval, x, y);
  }

  /** The aggregates of a non-empty context lie in order between its extremes. */
  lemma AggregatesInOrder(ss: seq<HistSample>, interval: int, a: Aggregates, min: real)
    requires Positive(ss) && interval > 0 && Total(ss) > 0.0 && IsAggregates(ss, interval, a) && IsMin(ss, min)
    ensures min <= a.median <= a.p95 <= a.max
    ensures min <= a.avg <= a.max
  {
    hide Sum, Total;
    var t := Total(ss);
    QuantileIsSample(ss, (t - 1.0) / 2.0, a.median);
    QuantileIsSample(ss, (95.0 * t - 1.0) / 100.0, a.p95);
    QuantileMonotone(ss, (t - 1.0) / 2.0, (95.0 * t - 1.0) / 100.0, a.median, a.p95);
    MomentBounds(ss, min, a.max);
    hide IsQuantile, IsMax, IsMin;
    Between(min, a.avg, a.max, t, Sum(ss, Moment()));
  }

  lemma Between(lo: real, x: real, hi: real, t: real, moment: real)
    requires t > 0.0 && x * t == moment && lo * t <= moment <= hi * t
    ensures lo <= x <= hi
  {
    assert (lo - x) * t == lo * t - x * t;
    assert (x - hi) * t == x * t - hi * t;
    NotPositive(lo - x, t);
    NotPositive(x - hi, t);
  }

  lemma NotPositive(x: real, t: real)
    requires t > 0.0 && x * t <= 0.0
    ensures x <= 0.0
  {
  }

  lemma MomentStep(total: real, moment: real, s: HistSample, lo: real, hi: real)
    requires lo * total <= moment <= hi * total && lo <= s.value <= hi && s.weight > 0.0
    ensures lo * (total + s.weight) <= moment + s.value * s.weight <= hi * (total + s.weight)
  {
    assert (s.value - lo) * s.weight >= 0.0 && (hi - s.value) * s.weight >= 0.0;
    assert lo * (total + s.weight) == lo * total + lo * s.weight;
    assert hi * (total + s.weight) == hi * total + hi * s.weight;
  }

  lemma {:induction false} MomentBounds(ss: seq<HistSample>, lo: real, hi: real)
    requires Positive(ss) && forall k | 0 <= k < |ss| :: lo <= ss[k].value <= hi
    ensures lo * Total(ss) <= Sum(ss, Moment()) <= hi * Total(ss)
  {
    if ss == [] {
    } else {
      var front, s := ss[..|ss| - 1], ss[|ss| - 1];
      MomentBounds(front, lo, hi);
      MomentStep(Total(front), Sum(front, Moment()), s, lo, hi);
    }
  }
}
