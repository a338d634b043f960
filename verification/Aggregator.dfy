/**
 The aggregator: a bounded channel of samples, the contexts they accumulate in, and the
 flushes that turn contexts into series.
 */
module Aggregator {
  import opened Basics
  import opened Sums
  import opened ContextKeys
  import opened Aggregation
  import H = Histogram

  /** A series ready to send. */
  datatype Point = Point(serie: Serie, host: Text, interval: int, sourceType: Text)

  const SYSTEM: Text := [83, 121, 115, 116, 101, 109]

  datatype Options = Options(interval: int, hostname: Text, tags: seq<Text>, capacity: nat)

  // ---- finalizing ----

  function Own(s: Serie, interval: int): Point { Point(s, [], interval, []) }

  function Stamp(p: Point): Point { if p.sourceType == [] then p.(sourceType := SYSTEM) else p }

  function Finalize(p: Point, o: Options): Point
  {
    Point(p.serie.(tags := p.serie.tags + o.tags),
          if p.host == [] then o.hostname else p.host,
          if p.interval == 0 then o.interval else p.interval,
          p.sourceType)
  }

  /** The contexts' own series and then the host's, as they leave. */
  function Finished(own: seq<Serie>, host: seq<Point>, o: Options): seq<Point>
  {
    var n := |own|;
    seq(n + |host|, i requires 0 <= i < n + |host| =>
      Finalize(if i < n then Own(own[i], o.interval) else Stamp(host[i - n]), o))
  }

  /** The series of the contexts in the order they were visited. */
  function InOrder(order: seq<Text>, parts: map<Text, seq<Serie>>): seq<Serie>
    requires forall i | 0 <= i < |order| :: order[i] in parts
  {
    if order == [] then [] else InOrder(order[..|order| - 1], parts) + parts[order[|order| - 1]]
  }

  lemma {:induction false} InOrderFrame(order: seq<Text>, parts: map<Text, seq<Serie>>, k: Text, s: seq<Serie>)
    requires k !in order && forall i | 0 <= i < |order| :: order[i] in parts
    ensures InOrder(order, parts[k := s]) == InOrder(order, parts)
  {
    if order == [] {
    } else {
      InOrderFrame(order[..|order| - 1], parts, k, s);
    }
  }

  lemma InOrderSnoc(order: seq<Text>, parts: map<Text, seq<Serie>>, k: Text, s: seq<Serie>)
    requires k !in order && forall i | 0 <= i < |order| :: order[i] in parts
    ensures InOrder(order + [k], parts[k := s]) == InOrder(order, parts) + s
  {
    InOrderFrame(order, parts, k, s);
    assert (order + [k])[..|order|] == order;
  }

  lemma NothingInOrder(parts: map<Text, seq<Serie>>)
    ensures InOrder([], parts) == []
  {
  }

  ghost predicate Distinct(ks: seq<Text>)
  {
    forall i, j | 0 <= i < j < |ks| :: ks[i] != ks[j]
  }

  // ---- flushes ----

  /** The record of one flush: the samples it covers, what the host sources gave, the
      contexts' series and the order they were visited in, and everything sent. */
  datatype Flushed = Flushed(history: seq<Sample>, host: seq<Point>, parts: map<Text, seq<Serie>>, order: seq<Text>,
                             sent: seq<Point>)

  function SentOf(f: Flushed, o: Options): seq<Point>
    requires forall i | 0 <= i < |f.order| :: f.order[i] in f.parts
  {
    Finished(InOrder(f.order, f.parts), f.host, o)
  }

  /** Each context of the interval is reported exactly once, truthfully, and finalized. */
  ghost predicate FlushOk(f: Flushed, o: Options)
    requires o.interval > 0
  {
    && Distinct(f.order)
    && (forall k :: k in f.order <==> k in f.parts)
    && (forall k :: k in f.parts <==> Of(f.history, k) != [])
    && (forall k | k in f.parts && Of(f.history, k) != [] :: Reports(Of(f.history, k), o.interval, f.parts[k]))
    && f.sent == SentOf(f, o)
  }

  function Histories(log: seq<Flushed>): (hs: seq<seq<Sample>>)
    ensures |hs| == |log|
  {
    if log == [] then [] else Histories(log[..|log| - 1]) + [log[|log| - 1].history]
  }

  function SentAll(log: seq<Flushed>): (ss: seq<seq<Point>>)
  {
    if log == [] then [] else SentAll(log[..|log| - 1]) + [log[|log| - 1].sent]
  }

  datatype Event = Offer(s: Sample) | Take | Tick(host: seq<Point>)

  /** The samples taken in, and those still in the channel. */
  datatype Channel = Channel(added: seq<Sample>, queue: seq<Sample>)

  /** The channel while the loop runs. */
  function ChannelRun(queue: seq<Sample>, capacity: nat, events: seq<Event>): Channel
  {
    if events == [] then Channel([], queue)
    else
      var l := ChannelRun(queue, capacity, events[..|events| - 1]);
      match events[|events| - 1]
      case Offer(s) => if |l.queue| < capacity then Channel(l.added + [s], l.queue + [s]) else l
      case Take => if l.queue == [] then l else Channel(l.added, l.queue[1..])
      case Tick(_) => l
  }

  // ---- the end of a run ----

  /** What happens once the run is cancelled: a listener still offers a sample, or the drain
      looks into the channel. */
  datatype Turn = Offering(s: Sample) | Looking

  /** The samples the channel takes in during the drain, and the turns left when it ends. */
  datatype Drained = Drained(added: seq<Sample>, rest: seq<Turn>)

  /** The drain ends at the first look into an empty channel. */
  function DrainRun(queue: seq<Sample>, capacity: nat, turns: seq<Turn>): Drained
    decreases |turns|
  {
    if turns == [] then Drained([], [])
    else
      match turns[0]
      case Offering(s) =>
        if |queue| < capacity then
          var d := DrainRun(queue + [s], capacity, turns[1..]);
          Drained([s] + d.added, d.rest)
        else DrainRun(queue, capacity, turns[1..])
      case Looking =>
        if queue == [] then Drained([], turns[1..]) else DrainRun(queue[1..], capacity, turns[1..])
  }

  /** The samples offered, as far as there is room for them. */
  function Admitted(room: nat, turns: seq<Turn>): seq<Sample>
    decreases |turns|
  {
    if turns == [] || room == 0 then []
    else if turns[0].Offering? then [turns[0].s] + Admitted(room - 1, turns[1..])
    else Admitted(room, turns[1..])
  }

  ghost predicate CleanTurns(turns: seq<Turn>)
  {
    forall i | 0 <= i < |turns| && turns[i].Offering? :: Clean(turns[i].s.name, turns[i].s.tags)
  }

  class Aggregator {
    const o: Options
    var samples: seq<Sample>
    var contexts: Contexts
    var dropped: nat

    ghost var offered: nat
    ghost var warned: nat
    ghost var accepted: seq<Sample>
    ghost var current: seq<Sample>
    ghost var log: seq<Flushed>

    ghost predicate Valid()
      reads this
    {
      && o.interval > 0 && |samples| <= o.capacity
      && CleanAll(current) && CleanAll(samples)
      && Refines(contexts, current)
      && Flatten(Histories(log)) + current + samples == accepted
      && |accepted| + warned + dropped == offered
      && forall i | 0 <= i < |log| :: FlushOk(log[i], o)
    }

    constructor (o: Options)
      requires o.interval > 0
      ensures this.o == o && Valid() && accepted == [] && log == []
    {
      this.o := o;
      samples, contexts, dropped := [], map[], 0;
      offered, warned, accepted, current, log := 0, 0, [], [], [];
      new;
      NothingRefines();
    }

    /** Never blocks: a full channel drops and counts. */
    method Add(s: Sample)
      requires Valid() && Clean(s.name, s.tags)
      modifies this
      ensures Valid() && log == old(log) && offered == old(offered) + 1 && warned == old(warned)
      ensures samples == if |old(samples)| < o.capacity then old(samples) + [s] else old(samples)
      ensures dropped == if |old(samples)| < o.capacity then old(dropped) else old(dropped) + 1
      ensures contexts == old(contexts) && current == old(current)
      ensures accepted == if |old(samples)| < o.capacity then old(accepted) + [s] else old(accepted)
    {
      hide Refines, FlushOk, Clean;
      offered := offered + 1;
      if |samples| < o.capacity {
        assert (Flatten(Histories(log)) + current) + (samples + [s]) == accepted + [s];
        samples, accepted := samples + [s], accepted + [s];
      } else {
        dropped := dropped + 1;
      }
    }

    method Consume()
      requires Valid() && samples != []
      modifies this
      ensures Valid() && log == old(log) && accepted == old(accepted) && offered == old(offered)
      ensures samples == old(samples)[1..]
    {
      hide Refines, FlushOk, Accumulate, Clean;
      var s := samples[0];
      assert samples == [s] + samples[1..];
      assert (Flatten(Histories(log)) + (current + [s])) + samples[1..] == accepted;
      AccumulateRefines(contexts, current, s);
      samples := samples[1..];
      AccumulateSample(s);
      current := current + [s];
    }

    method AccumulateSample(s: Sample)
      modifies `contexts
      ensures contexts == Accumulate(old(contexts), s)
    {
      hide Key;
      if s.typ == Distribution {
        return;
      }
      var key := ContextKey(s.name, s.typ, s.tags);
      if key !in contexts {
        contexts := contexts[key := Fresh(s)];
      }
      var c := contexts[key];
      match s.typ {
        case Gauge => c := c.(value := s.value);
        case Counter => c := c.(value := c.value + s.value / Rate(s));
        case Set => c := c.(members := c.members + {s.str});
        case Distribution => assert false;
        case _ =>
          c := c.(samples := c.samples + [H.HistSample(s.value, 1.0 / Rate(s))], count := c.count + 1.0 / Rate(s));
      }
      contexts := contexts[key := c];
    }

    /** Empties what `Add` queued when nothing more is offered. */
    method DrainRest()
      requires Valid()
      modifies this
      ensures Valid() && samples == [] && log == old(log) && accepted == old(accepted) && offered == old(offered)
    {
      while samples != []
        invariant Valid() && log == old(log) && accepted == old(accepted) && offered == old(offered)
        decreases |samples|
      {
        Consume();
      }
    }

    /** The drain, while listeners go on offering samples. */
    method Drain(turns: seq<Turn>) returns (rest: seq<Turn>)
      requires Valid() && CleanTurns(turns)
      modifies this
      ensures Valid() && samples == [] && log == old(log) && CleanTurns(rest)
      ensures var d := DrainRun(old(samples), o.capacity, turns);
              accepted == old(accepted) + d.added && rest == d.rest
    {
      hide Refines, FlushOk, CleanAll, Clean;
      rest := turns;
      assert accepted == accepted + [];
      while rest != []
        invariant Valid() && log == old(log) && CleanTurns(rest)
        invariant var d, all := DrainRun(samples, o.capacity, rest), DrainRun(old(samples), o.capacity, turns);
                  accepted + d.added == old(accepted) + all.added && d.rest == all.rest
        decreases |rest|
      {
        var turn := rest[0];
        ghost var more := DrainRun(samples, o.capacity, rest);
        RestClean(rest);
        rest := rest[1..];
        match turn {
          case Offering(s) =>
            ghost var was := accepted;
            assert |samples| < o.capacity ==>
                   was + more.added == (was + [s]) + DrainRun(samples + [s], o.capacity, rest).added;
            Add(s);
          case Looking =>
            if samples == [] {
              return;
            }
            Consume();
        }
      }
      DrainRest();
    }

    /** Offers after the drain: taken in while there is room, and read by nobody. */
    method OfferRest(turns: seq<Turn>)
      requires Valid() && CleanTurns(turns) && samples == []
      modifies this
      ensures Valid() && log == old(log) && current == old(current)
      ensures samples == Admitted(o.capacity, turns) && accepted == old(accepted) + samples
    {
      hide Refines, FlushOk, CleanAll, Clean;
      var rest := turns;
      while rest != []
        invariant Valid() && log == old(log) && current == old(current) && CleanTurns(rest)
        invariant samples + Admitted(o.capacity - |samples|, rest) == Admitted(o.capacity, turns)
        invariant accepted == old(accepted) + samples
        decreases |rest|
      {
        RestClean(rest);
        var turn := rest[0];
        if turn.Offering? {
          ghost var was := samples;
          assert |was| < o.capacity ==>
                 was + Admitted(o.capacity - |was|, rest) ==
                 (was + [turn.s]) + Admitted(o.capacity - |was| - 1, rest[1..]);
          assert accepted + [turn.s] == old(accepted) + (samples + [turn.s]);
          Add(turn.s);
        }
        rest := rest[1..];
      }
    }

    /** The contexts, visited in any order, rendered and cleared. */
    method Render() returns (own: seq<Serie>, ghost order: seq<Text>, ghost parts: map<Text, seq<Serie>>)
      requires Valid()
      modifies `contexts
      ensures contexts == map[] && Distinct(order)
      ensures forall k :: k in order <==> k in parts
      ensures forall k :: k in parts <==> Of(current, k) != []
      ensures forall k | k in parts && Of(current, k) != [] :: Reports(Of(current, k), o.interval, parts[k])
      ensures own == InOrder(order, parts)
    {
      hide Reports, FlushOk, Of, Clean;
      hide InOrder;
      own, order, parts := [], [], map[];
      NothingInOrder(parts);
      var todo := contexts.Keys;
      assert forall k :: k in contexts <==> Of(current, k) != [];
      while todo != {}
        modifies {}
        invariant todo <= contexts.Keys && Distinct(order)
        invariant forall k :: k in order <==> k in parts
        invariant forall k :: k in parts <==> k in contexts && k !in todo
        invariant forall k | k in parts && Of(current, k) != [] :: Reports(Of(current, k), o.interval, parts[k])
        invariant own == InOrder(order, parts)
        decreases todo
      {
        var k :| k in todo;
        var s := RenderOne(k);
        InOrderSnoc(order, parts, k, s);
        order, parts := order + [k], parts[k := s];
        own := own + s;
        todo := todo - {k};
      }
      contexts := map[];
    }

    method RenderOne(k: Text) returns (s: seq<Serie>)
      requires Valid() && k in contexts
      ensures Of(current, k) != [] && Reports(Of(current, k), o.interval, s)
    {
      hide Reports, FlushOk, Of, Clean;
      OfUniform(current, k);
      s := ToSeries(contexts[k], o.interval, Of(current, k));
    }

    method Flush(host: seq<Point>) returns (sent: seq<Point>)
      requires Valid()
      modifies this
      ensures Valid() && current == [] && samples == old(samples)
      ensures accepted == old(accepted) && offered == old(offered)
      ensures |log| == |old(log)| + 1 && log[..|old(log)|] == old(log)
      ensures log[|old(log)|].history == old(current) && log[|old(log)|].sent == sent && log[|old(log)|].host == host
    {
      hide Reports, Of, Clean, CleanAll, SentOf, Refines, FlushOk, Flatten, Finished;
      var own;
      ghost var order, parts;
      own, order, parts := Render();
      sent := Finished(own, host, o);
      ghost var f := Flushed(current, host, parts, order, sent);
      FlushIsOk(f, own, o);
      ghost var before := log;
      log := log + [f];
      HistoriesSnoc(before, f);
      assert accepted == (Flatten(Histories(log)) + []) + samples;
      current := [];
      NothingRefines();
      NothingClean();
    }

    /** A tick: what was dropped since the last one is reported and counted afresh. */
    method FlushAndWarn(host: seq<Point>) returns (points: seq<Point>)
      requires Valid()
      modifies this
      ensures Valid() && samples == old(samples) && accepted == old(accepted) && offered == old(offered)
      ensures SentAll(log) == SentAll(old(log)) + [points]
      ensures dropped == 0 && warned == old(warned) + old(dropped)
    {
      hide Clean, Refines, FlushOk, CleanAll;
      points := Flush(host);
      assert SentAll(log) == SentAll(old(log)) + [points];
      warned, dropped := warned + dropped, 0;
    }

    /** The select loop until it is cancelled. */
    method Loop(events: seq<Event>) returns (sent: seq<seq<Point>>)
      requires Valid() && log == []
      requires forall i | 0 <= i < |events| && events[i].Offer? :: Clean(events[i].s.name, events[i].s.tags)
      modifies this
      ensures Valid() && sent == SentAll(log)
      ensures var l := ChannelRun(old(samples), o.capacity, events);
              samples == l.queue && accepted == old(accepted) + l.added
    {
      hide Clean, Refines, FlushOk, CleanAll, Valid;
      sent := [];
      for i := 0 to |events|
        invariant Valid() && sent == SentAll(log)
        invariant var l := ChannelRun(old(samples), o.capacity, events[..i]);
                  samples == l.queue && accepted == old(accepted) + l.added
      {
        assert events[..i + 1][..i] == events[..i];
        match events[i] {
          case Offer(s) =>
            Add(s);
          case Take =>
            if samples != [] {
              Consume();
            }
          case Tick(host) =>
            var points := FlushAndWarn(host);
            sent := sent + [points];
        }
      }
      assert events[..|events|] == events;
    }

    /** The whole run: the loop, the drain and a last flush, with samples offered throughout.
        The samples flushed are exactly those accepted before the drain found the channel
        empty, each in one flush, in order; those accepted later stay in the channel. */
    method Run(events: seq<Event>, turns: seq<Turn>, last: seq<Point>)
      returns (sent: seq<seq<Point>>, ghost flushed: seq<Sample>)
      requires Valid() && log == [] && CleanTurns(turns)
      requires forall i | 0 <= i < |events| && events[i].Offer? :: Clean(events[i].s.name, events[i].s.tags)
      modifies this
      ensures Valid() && sent == SentAll(log) && current == []
      ensures Flatten(Histories(log)) == flushed && accepted == flushed + samples
      ensures var l := ChannelRun(old(samples), o.capacity, events);
              var d := DrainRun(l.queue, o.capacity, turns);
              flushed == old(accepted) + l.added + d.added && samples == Admitted(o.capacity, d.rest)
      ensures |accepted| + warned + dropped == offered
    {
      hide Clean, Refines, FlushOk, CleanAll;
      sent := Loop(events);
      var rest := Drain(turns);
      flushed := accepted;
      ghost var was := log;
      var points := Flush(last);
      assert SentAll(log) == SentAll(was) + [points];
      sent := sent + [points];
      assert (Flatten(Histories(log)) + []) + [] == Flatten(Histories(log));
      OfferRest(rest);
    }
  }

  lemma RestClean(turns: seq<Turn>)
    requires turns != [] && CleanTurns(turns)
    ensures CleanTurns(turns[1..]) && (turns[0].Offering? ==> Clean(turns[0].s.name, turns[0].s.tags))
  {
    hide Clean;
  }

  lemma HistoriesSnoc(log: seq<Flushed>, f: Flushed)
    ensures (log + [f])[..|log|] == log
    ensures Flatten(Histories(log + [f])) + [] == Flatten(Histories(log)) + f.history
  {
    assert (log + [f])[..|log|] == log;
    FlattenSnoc(Histories(log), f.history);
  }

  lemma NothingClean()
    ensures CleanAll([])
  {
  }

  lemma FlushIsOk(f: Flushed, own: seq<Serie>, o: Options)
    requires o.interval > 0 && Distinct(f.order) && forall k :: k in f.order <==> k in f.parts
    requires forall k :: k in f.parts <==> Of(f.history, k) != []
    requires forall k | k in f.parts && Of(f.history, k) != [] :: Reports(Of(f.history, k), o.interval, f.parts[k])
    requires own == InOrder(f.order, f.parts) && f.sent == Finished(own, f.host, o)
    ensures FlushOk(f, o)
  {
    hide Of, Reports, InOrder, Finished;
  }

  // ---- laws over a whole run ----

  function Amount(t: SampleType): Sample -> real { if t == Counter then Scaled() else Weight() }

  /** Rate times interval, summed over the flushes that report context `k`. */
  function Earned(log: seq<Flushed>, k: Text, interval: int): real
  {
    if log == [] then 0.0
    else
      var f := log[|log| - 1];
      Earned(log[..|log| - 1], k, interval) +
      if k in f.parts && f.parts[k] != [] then f.parts[k][0].value * interval as real else 0.0
  }

  ghost predicate AllOf(g: seq<Sample>, t: SampleType)
  {
    forall i | 0 <= i < |g| :: g[i].typ == t
  }

  lemma AllOfParts(a: seq<Sample>, b: seq<Sample>, t: SampleType)
    requires AllOf(a + b, t)
    ensures AllOf(a, t) && AllOf(b, t)
  {
    assert forall i | 0 <= i < |a| :: a[i] == (a + b)[i];
    assert forall i | 0 <= i < |b| :: b[i] == (a + b)[|a| + i];
  }

  lemma GroupEarns(g: seq<Sample>, t: SampleType, interval: int, out: seq<Serie>)
    requires interval > 0 && g != [] && AllOf(g, t) && (t == Counter || Observing(t)) && Reports(g, interval, out)
    ensures out != [] && out[0].value * interval as real == Sum(g, Amount(t))
  {
    hide Sum, Observed, Members;
    ObservedPositive(g);
  }

  lemma ReportEarns(f: Flushed, k: Text, t: SampleType, o: Options)
    requires o.interval > 0 && FlushOk(f, o) && (t == Counter || Observing(t)) && AllOf(Of(f.history, k), t)
    ensures (if k in f.parts && f.parts[k] != [] then f.parts[k][0].value * o.interval as real else 0.0)
            == Sum(Of(f.history, k), Amount(t))
  {
    hide Of, SentOf, Reports, AllOf, Amount;
    if k in f.parts {
      GroupEarns(Of(f.history, k), t, o.interval, f.parts[k]);
    }
  }

  /** Over all flushes of a run, the rates of a counter times the interval add up to the
      rate-corrected sum of every sample accepted for it; a histogram's .count likewise
      adds up to the weight of every observation. */
  lemma {:induction false} FlushesAddUp(log: seq<Flushed>, k: Text, t: SampleType, o: Options)
    requires o.interval > 0 && (t == Counter || Observing(t))
    requires forall i | 0 <= i < |log| :: FlushOk(log[i], o)
    requires AllOf(Of(Flatten(Histories(log)), k), t)
    ensures Earned(log, k, o.interval) == Sum(Of(Flatten(Histories(log)), k), Amount(t))
  {
    hide Of, FlushOk, Amount, Flatten, AllOf, Sum;
    if log == [] {
      NothingFlushed(k, t);
    } else {
      var before, f := log[..|log| - 1], log[|log| - 1];
      FlattenSnoc(Histories(before), f.history);
      var a, b := Of(Flatten(Histories(before)), k), Of(f.history, k);
      OfAppend(Flatten(Histories(before)), f.history, k);
      SumAppend(a, b, Amount(t));
      AllOfParts(a, b, t);
      FlushesAddUp(before, k, t, o);
      ReportEarns(f, k, t, o);
    }
  }

  lemma NothingFlushed(k: Text, t: SampleType)
    ensures Sum(Of(Flatten([]), k), Amount(t)) == 0.0
  {
  }
}
