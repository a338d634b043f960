/**
 What one flush interval means: the running contexts are a summary of the interval's sample
 history, and each context's series say one simple thing about the samples filed under it.
 */
module Aggregation {
  import opened Basics
  import opened Sums
  import opened ContextKeys
  import H = Histogram

  datatype Context = Context(name: Text, typ: SampleType, tags: seq<Text>, value: real,
                             samples: seq<H.HistSample>, count: real, members: set<Text>)

  type Contexts = map<Text, Context>

  // ---- one step of the program ----

  function Rate(s: Sample): (r: real)
    ensures r > 0.0
  {
    if s.rate <= 0.0 then 1.0 else s.rate
  }

  function KeyOf(s: Sample): Text { Key(s.name, s.typ, s.tags) }

  function Fresh(s: Sample): Context { Context(s.name, s.typ, s.tags, 0.0, [], 0.0, {}) }

  function Update(c: Context, s: Sample): Context
  {
    match s.typ
    case Gauge => c.(value := s.value)
    case Counter => c.(value := c.value + s.value / Rate(s))
    case Set => c.(members := c.members + {s.str})
    case Distribution => c
    case _ => c.(samples := c.samples + [Observe(s)], count := c.count + 1.0 / Rate(s))
  }

  function Accumulate(m: Contexts, s: Sample): Contexts
  {
    if s.typ == Distribution then m
    else
      var c := if KeyOf(s) in m then m[KeyOf(s)] else Fresh(s);
      m[KeyOf(s) := Update(c, s)]
  }

  // ---- the meaning of a history ----

  function Observe(s: Sample): H.HistSample { H.HistSample(s.value, 1.0 / Rate(s)) }

  function Observed(g: seq<Sample>): (ss: seq<H.HistSample>)
    ensures |ss| == |g|
  {
    if g == [] then [] else Observed(g[..|g| - 1]) + [Observe(g[|g| - 1])]
  }

  function Scaled(): Sample -> real { (s: Sample) => s.value / Rate(s) }

  function Weight(): Sample -> real { (s: Sample) => 1.0 / Rate(s) }

  function Members(g: seq<Sample>): set<Text> { set s | s in g :: s.str }

  /** The samples of a history filed under one key, in order. */
  function Of(h: seq<Sample>, k: Text): seq<Sample>
  {
    if h == [] then []
    else
      var s := h[|h| - 1];
      Of(h[..|h| - 1], k) + if s.typ != Distribution && KeyOf(s) == k then [s] else []
  }

  /** The samples of one context have its type. */
  ghost predicate Uniform(g: seq<Sample>)
  {
    forall i | 0 <= i < |g| :: g[i].typ == g[0].typ && g[i].typ != Distribution
  }

  ghost predicate CleanAll(h: seq<Sample>)
  {
    forall i | 0 <= i < |h| :: Clean(h[i].name, h[i].tags)
  }

  function Observing(t: SampleType): bool { t == Histogram || t == Timing }

  /** Without a fold: what a context holds, from its samples. */
  function Meaning(g: seq<Sample>): Context
    requires g != []
  {
    var t := g[0].typ;
    Context(g[0].name, t, g[0].tags,
            if t == Gauge then g[|g| - 1].value else if t == Counter then Sum(g, Scaled()) else 0.0,
            if Observing(t) then Observed(g) else [],
            if Observing(t) then Sum(g, Weight()) else 0.0,
            if t == Set then Members(g) else {})
  }

  ghost predicate Refines(m: Contexts, h: seq<Sample>)
  {
    forall k :: (k in m <==> Of(h, k) != []) && (k in m ==> m[k] == Meaning(Of(h, k)))
  }

  lemma NothingRefines()
    ensures Refines(map[], [])
  {
  }

  lemma FirstMeaning(s: Sample)
    requires s.typ != Distribution
    ensures Meaning([s]) == Update(Fresh(s), s)
  {
    assert [s][..0] == [];
    assert Observed([s]) == [] + [Observe(s)] == [Observe(s)];
    assert Sum([s], Scaled()) == 0.0 + Scaled()(s);
    assert Sum([s], Weight()) == 0.0 + Weight()(s);
    assert Members([s]) == {s.str};
  }

  lemma NextMeaning(g: seq<Sample>, s: Sample)
    requires g != [] && Uniform(g + [s])
    ensures Meaning(g + [s]) == Update(Meaning(g), s)
  {
    var n := g + [s];
    assert n[0] == g[0] && n[|g|] == s && n[..|g|] == g;
    SumSnoc(g, s, Scaled());
    SumSnoc(g, s, Weight());
    assert Members(n) == Members(g) + {s.str} by {
      assert forall x :: x in n <==> x in g || x == s;
    }
    hide Sum;
  }

  lemma {:induction false} OfContains(h: seq<Sample>, k: Text)
    ensures forall i | 0 <= i < |Of(h, k)| ::
              Of(h, k)[i] in h && KeyOf(Of(h, k)[i]) == k && Of(h, k)[i].typ != Distribution
  {
    hide KeyOf;
    if h == [] {
    } else {
      OfContains(h[..|h| - 1], k);
    }
  }

  /** Samples under one key agree on name and type, and on tags up to order. */
  lemma OneContext(h: seq<Sample>, k: Text, i: nat, j: nat)
    requires CleanAll(h) && i < |Of(h, k)| && j < |Of(h, k)|
    ensures Of(h, k)[i].name == Of(h, k)[j].name && Of(h, k)[i].typ == Of(h, k)[j].typ
    ensures multiset(Of(h, k)[i].tags) == multiset(Of(h, k)[j].tags)
  {
    hide Of, Key, Clean;
    OfContains(h, k);
    var a, b := Of(h, k)[i], Of(h, k)[j];
    KeyIsExact(a.name, a.typ, a.tags, b.name, b.typ, b.tags);
  }

  lemma OfUniform(h: seq<Sample>, k: Text)
    requires CleanAll(h)
    ensures Uniform(Of(h, k))
  {
    hide Of, CleanAll, KeyOf;
    OfContains(h, k);
    forall i | 0 <= i < |Of(h, k)|
      ensures Of(h, k)[i].typ == Of(h, k)[0].typ
    {
      OneContext(h, k, i, 0);
    }
  }

  lemma OfSnoc(h: seq<Sample>, s: Sample, k: Text)
    ensures Of(h + [s], k) == if s.typ != Distribution && KeyOf(s) == k then Of(h, k) + [s] else Of(h, k)
  {
    assert (h + [s])[..|h|] == h;
    assert Of(h, k) + [] == Of(h, k);
  }

  lemma {:induction false} OfAppend(a: seq<Sample>, b: seq<Sample>, k: Text)
    ensures Of(a + b, k) == Of(a, k) + Of(b, k)
  {
    hide KeyOf, Of;
    if b == [] {
      assert a + b == a;
      OfNothing(k);
      assert Of(a, k) + [] == Of(a, k);
    } else {
      var c, s := b[..|b| - 1], b[|b| - 1];
      OfAppend(a, c, k);
      OfSnoc(a + c, s, k);
      OfSnoc(c, s, k);
      assert a + b == (a + c) + [s] && b == c + [s];
      assert (Of(a, k) + Of(c, k)) + [s] == Of(a, k) + (Of(c, k) + [s]);
    }
  }

  lemma OfNothing(k: Text)
    ensures Of([], k) == []
  {
  }

  /** Incremental accumulation refines the meaning of the sample history. */
  lemma AccumulateRefines(m: Contexts, h: seq<Sample>, s: Sample)
    requires Refines(m, h) && CleanAll(h + [s])
    ensures Refines(Accumulate(m, s), h + [s])
  {
    hide Of, KeyOf, CleanAll, Update, Meaning, Uniform;
    var n, k0 := Accumulate(m, s), KeyOf(s);
    forall k
      ensures (k in n <==> Of(h + [s], k) != []) && (k in n ==> n[k] == Meaning(Of(h + [s], k)))
    {
      OfSnoc(h, s, k);
      if s.typ != Distribution && k == k0 {
        OfUniform(h + [s], k);
        if Of(h, k) == [] {
          FirstMeaning(s);
          assert [] + [s] == [s];
        } else {
          NextMeaning(Of(h, k), s);
        }
      }
    }
  }

  // ---- series ----

  datatype Serie = Serie(name: Text, isRate: bool, tags: seq<Text>, value: real)

  const COUNT: Text := [46, 99, 111, 117, 110, 116]
  const AVG: Text := [46, 97, 118, 103]
  const MEDIAN: Text := [46, 109, 101, 100, 105, 97, 110]
  const MAX: Text := [46, 109, 97, 120]
  const P95: Text := [46, 57, 53, 112, 101, 114, 99, 101, 110, 116, 105, 108, 101]

  function Expand(name: Text, tags: seq<Text>, a: H.Aggregates): seq<Serie>
  {
    [Serie(name + COUNT, true, tags, a.count), Serie(name + AVG, false, tags, a.avg),
     Serie(name + MEDIAN, false, tags, a.median), Serie(name + MAX, false, tags, a.max),
     Serie(name + P95, false, tags, a.p95)]
  }

  /** What the series of a context say about its samples: a gauge its last value, a counter
      its rate-corrected sum per second, a set the number of distinct members, a histogram
      the five aggregates of the weighted observations. */
  ghost predicate Reports(g: seq<Sample>, interval: int, out: seq<Serie>)
    requires g != [] && interval > 0
  {
    var s := g[0];
    if s.typ == Gauge then out == [Serie(s.name, false, s.tags, g[|g| - 1].value)]
    else if s.typ == Counter then
      && |out| == 1 && out[0].value * interval as real == Sum(g, Scaled())
      && out[0] == Serie(s.name, true, s.tags, out[0].value)
    else if s.typ == Set then out == [Serie(s.name, false, s.tags, |Members(g)| as real)]
    else
      && H.Total(Observed(g)) > 0.0
      && exists a ::
           && H.IsAggregates(Observed(g), interval, a)
           && out == Expand(s.name, s.tags, a)
  }

  lemma {:induction false} ObservedSum(g: seq<Sample>, f: H.HistSample -> real, fg: Sample -> real)
    requires forall s :: fg(s) == f(Observe(s))
    ensures Sum(Observed(g), f) == Sum(g, fg)
  {
    hide Observe;
    if g == [] {
    } else {
      var front, s := g[..|g| - 1], g[|g| - 1];
      ObservedSum(front, f, fg);
      SumSnoc(Observed(front), Observe(s), f);
    }
  }

  lemma {:induction false} ObservedPositive(g: seq<Sample>)
    ensures H.Positive(Observed(g))
    ensures H.Total(Observed(g)) == Sum(g, Weight())
  {
    ObservedSum(g, H.Mass(), Weight());
    if g == [] {
    } else {
      ObservedPositive(g[..|g| - 1]);
      Reciprocal(Rate(g[|g| - 1]));
    }
  }

  lemma Reciprocal(r: real)
    requires r > 0.0
    ensures 1.0 / r > 0.0
  {
  }

  /** One context rendered; the samples are sorted in place in the process. */
  method ToSeries(c: Context, interval: int, ghost g: seq<Sample>) returns (out: seq<Serie>)
    requires interval > 0 && g != [] && Uniform(g) && c == Meaning(g)
    ensures Reports(g, interval, out)
  {
    hide Sum, Uniform, H.IsAggregates, Observed, Members;
    if c.typ == Counter {
      var v := c.value / interval as real;
      assert v * interval as real == c.value;
      return [Serie(c.name, true, c.tags, v)];
    } else if c.typ == Histogram || c.typ == Timing {
      ObservedPositive(g);
      var samples := new H.HistSample[|c.samples|](i requires 0 <= i < |c.samples| => c.samples[i]);
      assert samples[..] == c.samples;
      var a := H.HistogramSeries(samples, c.count, interval);
      return Expand(c.name, c.tags, a);
    } else if c.typ == Set {
      return [Serie(c.name, false, c.tags, |c.members| as real)];
    }
    NoDistribution(g);
    return [Serie(c.name, false, c.tags, c.value)];
  }

  lemma NoDistribution(g: seq<Sample>)
    requires g != [] && Uniform(g)
    ensures g[0].typ != Distribution
  {
  }

  // ---- order does not matter, except to gauges ----

  lemma {:induction false} OfCounts(h: seq<Sample>, k: Text, s: Sample)
    ensures multiset(Of(h, k))[s] == if s.typ != Distribution && KeyOf(s) == k then multiset(h)[s] else 0
  {
    hide KeyOf, Of;
    if h == [] {
      OfNothing(k);
    } else {
      var front, x := h[..|h| - 1], h[|h| - 1];
      OfCounts(front, k, s);
      OfSnoc(front, x, k);
      assert h == front + [x];
    }
  }

  lemma OfPermuted(a: seq<Sample>, b: seq<Sample>, k: Text)
    requires multiset(a) == multiset(b)
    ensures multiset(Of(a, k)) == multiset(Of(b, k)) && |Of(a, k)| == |Of(b, k)|
  {
    hide KeyOf, Of;
    var p, q := multiset(Of(a, k)), multiset(Of(b, k));
    forall s
      ensures p[s] == q[s]
    {
      OfCounts(a, k, s);
      OfCounts(b, k, s);
    }
    assert p == q;
    assert |p| == |Of(a, k)| && |q| == |Of(b, k)|;
  }

  /** The same series, with tags in any order. */
  ghost predicate SameUpToTagOrder(a: seq<Serie>, b: seq<Serie>)
  {
    && |a| == |b|
    && forall i | 0 <= i < |a| ::
         && a[i].name == b[i].name && a[i].isRate == b[i].isRate && a[i].value == b[i].value
         && multiset(a[i].tags) == multiset(b[i].tags)
  }

  lemma ObservedPermuted(a: seq<Sample>, b: seq<Sample>)
    requires multiset(a) == multiset(b)
    ensures H.SameWeights(Observed(a), Observed(b))
  {
    hide Sum, Observe;
    ObservedSumPermuted(a, b, H.Mass());
    ObservedSumPermuted(a, b, H.Moment());
    forall v
      ensures H.Below(Observed(a), v) == H.Below(Observed(b), v) && H.UpTo(Observed(a), v) == H.UpTo(Observed(b), v)
    {
      ObservedSumPermuted(a, b, H.MassBelow(v));
      ObservedSumPermuted(a, b, H.MassUpTo(v));
    }
  }

  lemma ObservedSumPermuted(a: seq<Sample>, b: seq<Sample>, f: H.HistSample -> real)
    requires multiset(a) == multiset(b)
    ensures Sum(Observed(a), f) == Sum(Observed(b), f)
  {
    hide Sum, Observe;
    var fg := (s: Sample) => f(Observe(s));
    ObservedSum(a, f, fg);
    ObservedSum(b, f, fg);
    SumPermuted(a, b, fg);
  }

  lemma MembersPermuted(a: seq<Sample>, b: seq<Sample>)
    requires multiset(a) == multiset(b)
    ensures Members(a) == Members(b)
  {
    forall s
      ensures s in a <==> s in b
    {
      assert s in a <==> s in multiset(a);
      assert s in b <==> s in multiset(b);
    }
  }

  lemma GroupOrderDoesNotMatter(g: seq<Sample>, k: seq<Sample>, interval: int, x: seq<Serie>, y: seq<Serie>)
    requires g != [] && k != [] && multiset(g) == multiset(k) && interval > 0
    requires g[0].name == k[0].name && g[0].typ == k[0].typ && multiset(g[0].tags) == multiset(k[0].tags)
    requires g[0].typ != Gauge && Reports(g, interval, x) && Reports(k, interval, y)
    ensures SameUpToTagOrder(x, y)
  {
    hide Sum, Members, Observed, H.IsAggregates, H.Total, H.SameWeights, H.Positive;
    var t := g[0].typ;
    if t == Counter {
      SumPermuted(g, k, Scaled());
      H.Cancel(x[0].value, y[0].value, interval as real);
    } else if t == Set {
      MembersPermuted(g, k);
    } else {
      ObservedPositive(g);
      ObservedPositive(k);
      ObservedPermuted(g, k);
      var a :| H.IsAggregates(Observed(g), interval, a) && x == Expand(g[0].name, g[0].tags, a);
      var b :| H.IsAggregates(Observed(k), interval, b) && y == Expand(k[0].name, k[0].tags, b);
      H.AggregatesDetermined(Observed(g), Observed(k), interval, a, b);
    }
  }

  /** Any reordering of an interval's samples fills the same contexts, and every context
      that is not a gauge reports the same series, up to the order of tags. */
  lemma IntervalOrderDoesNotMatter(h: seq<Sample>, p: seq<Sample>, k: Text, interval: int, x: seq<Serie>, y: seq<Serie>)
    requires CleanAll(h) && multiset(h) == multiset(p) && interval > 0
    ensures Of(h, k) != [] <==> Of(p, k) != []
    ensures Of(h, k) != [] && Of(h, k)[0].typ != Gauge && Reports(Of(h, k), interval, x)
            && Reports(Of(p, k), interval, y)
            ==> SameUpToTagOrder(x, y)
  {
    hide Of, Reports, KeyOf, SameUpToTagOrder, Clean;
    OfPermuted(h, p, k);
    var g, q := Of(h, k), Of(p, k);
    if g != [] {
      assert q[0] in multiset(g);
      var i :| 0 <= i < |g| && g[i] == q[0];
      OneContext(h, k, 0, i);
      if g[0].typ != Gauge && Reports(g, interval, x) && Reports(q, interval, y) {
        GroupOrderDoesNotMatter(g, q, interval, x, y);
      }
    }
  }

  // ---- sampling is exact ----

  /** One submitted sample at rate 1/k for each submission, under the name, type and tags of `s`. */
  function SampledAs(s: Sample, subs: seq<H.Submission>): seq<Sample>
    requires H.Counted(subs)
  {
    if subs == [] then []
    else
      var x := subs[|subs| - 1];
      SampledAs(s, subs[..|subs| - 1]) + [s.(value := x.value, rate := 1.0 / x.k as real)]
  }

  function Repeated(s: Sample, v: real, k: nat): seq<Sample>
  {
    if k == 0 then [] else Repeated(s, v, k - 1) + [s.(value := v, rate := 1.0)]
  }

  /** k submitted samples at rate 1 for each submission. */
  function UnsampledAs(s: Sample, subs: seq<H.Submission>): seq<Sample>
    requires H.Counted(subs)
  {
    if subs == [] then []
    else
      var x := subs[|subs| - 1];
      UnsampledAs(s, subs[..|subs| - 1]) + Repeated(s, x.value, x.k)
  }

  lemma {:induction false} ObservedAppend(a: seq<Sample>, b: seq<Sample>)
    ensures Observed(a + b) == Observed(a) + Observed(b)
  {
    hide Observe;
    if b == [] {
      assert a + b == a && Observed(a) + [] == Observed(a);
    } else {
      var front, x := b[..|b| - 1], b[|b| - 1];
      assert (a + b)[..|a + b| - 1] == a + front;
      ObservedAppend(a, front);
      assert Observed(a) + (Observed(front) + [Observe(x)]) == (Observed(a) + Observed(front)) + [Observe(x)];
    }
  }

  lemma ObservedSnoc(g: seq<Sample>, s: Sample)
    ensures Observed(g + [s]) == Observed(g) + [Observe(s)]
  {
    hide Observe;
    assert (g + [s])[..|g|] == g;
  }

  lemma ObserveOne(s: Sample, v: real)
    ensures Observe(s.(value := v, rate := 1.0)) == H.HistSample(v, 1.0)
  {
  }

  lemma {:induction false} ObservedRepeated(s: Sample, v: real, k: nat)
    ensures Observed(Repeated(s, v, k)) == H.Copies(v, k)
  {
    hide Observed, Observe;
    if k == 0 {
      NothingObserved();
    } else {
      ObservedRepeated(s, v, k - 1);
      ObserveOne(s, v);
      ObservedSnoc(Repeated(s, v, k - 1), s.(value := v, rate := 1.0));
    }
  }

  lemma NothingObserved()
    ensures Observed([]) == []
  {
  }

  lemma RateKept(s: Sample, v: real, k: int)
    requires k > 0
    ensures Observe(s.(value := v, rate := 1.0 / k as real)) == H.HistSample(v, 1.0 / (1.0 / k as real))
  {
    Reciprocal(k as real);
  }

  lemma {:induction false} ObservedSampled(s: Sample, subs: seq<H.Submission>)
    requires H.Counted(subs)
    ensures Observed(SampledAs(s, subs)) == H.Sampled(subs)
    ensures Observed(UnsampledAs(s, subs)) == H.Unsampled(subs)
  {
    hide Observe, H.Copies, Repeated;
    if subs == [] {
    } else {
      var before, x := subs[..|subs| - 1], subs[|subs| - 1];
      ObservedSampled(s, before);
      RateKept(s, x.value, x.k);
      ObservedSnoc(SampledAs(s, before), s.(value := x.value, rate := 1.0 / x.k as real));
      ObservedRepeated(s, x.value, x.k);
      ObservedAppend(UnsampledAs(s, before), Repeated(s, x.value, x.k));
    }
  }

  /** The samples differ from `s` in value and rate only. */
  ghost predicate Like(s: Sample, g: seq<Sample>)
  {
    forall x | x in g :: x == s.(value := x.value, rate := x.rate)
  }

  lemma {:induction false} RepeatedLike(s: Sample, v: real, k: nat)
    ensures Like(s, Repeated(s, v, k))
  {
    if k == 0 {
    } else {
      RepeatedLike(s, v, k - 1);
    }
  }

  lemma {:induction false} SampledLike(s: Sample, subs: seq<H.Submission>)
    requires H.Counted(subs)
    ensures Like(s, SampledAs(s, subs)) && Like(s, UnsampledAs(s, subs))
  {
    if subs == [] {
    } else {
      var x := subs[|subs| - 1];
      SampledLike(s, subs[..|subs| - 1]);
      RepeatedLike(s, x.value, x.k);
    }
  }

  lemma LikePermuted(s: Sample, g: seq<Sample>, p: seq<Sample>)
    requires multiset(g) == multiset(p) && Like(s, p)
    ensures Like(s, g)
  {
    forall x | x in g
      ensures x == s.(value := x.value, rate := x.rate)
    {
      assert x in multiset(g);
    }
  }

  lemma ScaledIsMoment(g: seq<Sample>)
    ensures Sum(g, Scaled()) == Sum(Observed(g), H.Moment())
  {
    hide Sum;
    forall s: Sample
      ensures Scaled()(s) == H.Moment()(Observe(s))
    {
      Divided(s.value, Rate(s));
    }
    ObservedSum(g, H.Moment(), Scaled());
  }

  lemma Divided(v: real, r: real)
    requires r > 0.0
    ensures v / r == v * (1.0 / r)
  {
  }

  /** Two groups of samples of one context with the same weight at every value report the same. */
  lemma SameWeightsReportSame(s: Sample, g: seq<Sample>, q: seq<Sample>, interval: int, x: seq<Serie>, y: seq<Serie>)
    requires g != [] && q != [] && interval > 0 && Like(s, g) && Like(s, q) && s.typ != Gauge
    requires H.SameWeights(Observed(g), Observed(q))
    requires Reports(g, interval, x) && Reports(q, interval, y)
    ensures x == y
  {
    hide Sum, Observed, H.IsAggregates, H.Total, H.Positive;
    assert g[0] in g && q[0] in q;
    if s.typ == Counter {
      ScaledIsMoment(g);
      ScaledIsMoment(q);
      H.Cancel(x[0].value, y[0].value, interval as real);
    } else if s.typ == Set {
      assert Members(g) == {s.str} == Members(q);
    } else {
      hide H.SameWeights;
      ObservedPositive(g);
      ObservedPositive(q);
      var a :| H.IsAggregates(Observed(g), interval, a) && x == Expand(s.name, s.tags, a);
      var b :| H.IsAggregates(Observed(q), interval, b) && y == Expand(s.name, s.tags, b);
      H.AggregatesDetermined(Observed(g), Observed(q), interval, a, b);
    }
  }

  /** Sampling is exact: what a context reports of samples submitted at rates 1/k is what it
      reports of k samples at rate 1 for each, in whatever order either arrive. A gauge keeps
      its last value instead. */
  lemma SamplingIsExact(s: Sample, subs: seq<H.Submission>, g: seq<Sample>, q: seq<Sample>, interval: int,
                        x: seq<Serie>, y: seq<Serie>)
    requires H.Counted(subs) && s.typ != Gauge && interval > 0
    requires multiset(g) == multiset(SampledAs(s, subs)) && multiset(q) == multiset(UnsampledAs(s, subs))
    requires g != [] && q != [] && Reports(g, interval, x) && Reports(q, interval, y)
    ensures x == y
  {
    hide Observed, SampledAs, UnsampledAs, H.Sampled, H.Unsampled, Reports, Like, Sum;
    SampledLike(s, subs);
    LikePermuted(s, g, SampledAs(s, subs));
    LikePermuted(s, q, UnsampledAs(s, subs));
    ObservedPermuted(g, SampledAs(s, subs));
    ObservedPermuted(q, UnsampledAs(s, subs));
    ObservedSampled(s, subs);
    H.SamplingKeepsWeights(subs);
    SameWeightsReportSame(s, g, q, interval, x, y);
  }
}
