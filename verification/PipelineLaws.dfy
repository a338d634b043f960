/**
 Further laws of the pipeline over whole runs: nothing is lost or reordered inside a
 session, batches keep their bounds, the position in memory is that of the last message
 acknowledged, and what at-least-once means byte by byte.
 */
module PipelineLaws {
  import opened Basics
  import opened LineProcessor
  import opened Messages
  import opened FileTailer
  import Strings
  import opened Coverage
  import opened Registry
  import opened Intake
  import opened Batcher
  import opened BatcherSteps
  import opened Pipeline
  import opened SourceInvariant
  import opened AtLeastOnce

  // ---- conservation and bounds ----

  /** The batcher's messages not yet settled: the batch, and one that waits to join it. */
  function Held(k: Control): seq<Message> { k.b.msgs + Joiner(k) }

  /** Settled messages, those held by the batcher and those in the channel are exactly the
      messages sent in this session, in order, with the global tags added on the way out of the
      channel. */
  ghost predicate Conserved(c: Setup, s: State)
  {
    s.up ==> s.ctl.w.settled + Held(s.ctl) + TagAll(c.batch, s.queue) == TagAll(c.batch, s.sent)
  }

  ghost predicate WithinBounds(c: Setup, s: State)
  {
    s.up ==> AllBounded(c.batch, s.ctl)
  }

  lemma TagSnoc(c: Config, ms: seq<Message>, m: Message)
    ensures TagAll(c, ms + [m]) == TagAll(c, ms) + [Tagged(c, m)]
  {
  }

  lemma SendConserves(c: Setup, s: State, tails: map<string, Tail>, m: Message)
    requires s.up && Conserved(c, s)
    ensures Conserved(c, WithSent(s, tails, m))
  {
    TagSnoc(c.batch, s.queue, m);
    TagSnoc(c.batch, s.sent, m);
    hide TagAll, Held, Tagged;
    var held := s.ctl.w.settled + Held(s.ctl);
    assert held + (TagAll(c.batch, s.queue) + [Tagged(c.batch, m)]) ==
           (held + TagAll(c.batch, s.queue)) + [Tagged(c.batch, m)];
  }

  /** A step of the batcher moves messages from the channel to its hand to the settled ones. */
  lemma BatcherConserves(c: Config, k: Control, queue: seq<Message>, closed: bool, cancelled: bool, bs: BatcherStep)
    requires BatcherEnabled(k, queue, closed, cancelled, bs)
    ensures var k' := BatcherAfter(c, k, queue, closed, cancelled, bs);
            k'.w.settled + Held(k') + TagAll(c, QueueAfter(queue, bs)) == k.w.settled + Held(k) + TagAll(c, queue)
  {
    hide StartReceive, StartFlush, FinishPost, AckNext, Tagged, TagAll;
    match bs {
      case Receive =>
        ReceiveHand(c, k, queue[0]);
        TagFirst(c, queue);
        OneOver(k.w.settled + Held(StartReceive(c, k, queue[0])), k.w.settled + Held(k), Tagged(c, queue[0]),
                TagAll(c, queue[1..]));
      case Tick => FlushHand(c, k, Wait);
      case Drain => FlushHand(c, k, End);
      case Post(v) =>
        PostHand(c, k, v);
        PostConserves(k, FinishPost(c, k, v), if v.Transient? then [] else k.b.msgs);
      case AckOne => AckHand(c, k);
      case Abandon =>
    }
  }

  lemma PostConserves(k: Control, k': Control, done: seq<Message>)
    requires k'.w.settled == k.w.settled + done && done + Held(k') == Held(k)
    ensures k'.w.settled + Held(k') == k.w.settled + Held(k)
  {
  }

  lemma StepConserves(c: Setup, s: State, st: Step)
    requires Enabled(c, s, st) && Conserved(c, s)
    ensures Conserved(c, Apply(c, s, st))
  {
    hide TagAll, Held, BatcherAfter, BatcherEnabled, TailEnabled, TailAfter, TailDrop, FlushAfter, FileAt, LoadDisk;
    match st {
      case Start => NothingHeld(c, s);
      case Enqueue(j) => SendConserves(c, s, s.tails[j := s.tails[j].(box := Empty)], s.tails[j].box.m);
      case Other(m) => SendConserves(c, s, s.tails, m);
      case Batching(bs) => BatcherConserves(c.batch, s.ctl, s.queue, s.closed, s.cancelled, bs);
      case _ =>
    }
  }

  lemma NothingHeld(c: Setup, s: State)
    ensures Conserved(c, Started(s))
  {
    assert TagAll(c.batch, []) == [];
  }

  lemma BatcherBounds(c: Config, k: Control, queue: seq<Message>, closed: bool, cancelled: bool, bs: BatcherStep)
    requires c.maxSize >= 1 && BatcherEnabled(k, queue, closed, cancelled, bs) && AllBounded(c, k)
    ensures AllBounded(c, BatcherAfter(c, k, queue, closed, cancelled, bs))
  {
    match bs {
      case Receive => ReceiveBounds(c, k, queue[0]);
      case Tick => FlushBounds(c, k, Wait);
      case Drain => FlushBounds(c, k, End);
      case Post(v) => PostBounds(c, k, v);
      case AckOne => AckBounds(c, k);
      case Abandon =>
    }
    hide StartReceive, StartFlush, FinishPost, AckNext, AllPostsBounded, Bounded, Oversized;
  }

  lemma StepBounds(c: Setup, s: State, st: Step)
    requires c.batch.maxSize >= 1 && Enabled(c, s, st) && WithinBounds(c, s)
    ensures WithinBounds(c, Apply(c, s, st))
  {
    hide AllBounded, BatcherAfter, BatcherEnabled, TailEnabled, TailAfter, TailDrop, FlushAfter, FileAt, LoadDisk;
    match st {
      case Start => NothingPosted(c, s);
      case Batching(bs) => BatcherBounds(c.batch, s.ctl, s.queue, s.closed, s.cancelled, bs);
      case _ =>
    }
  }

  lemma NothingPosted(c: Setup, s: State)
    requires c.batch.maxSize >= 1
    ensures AllBounded(c.batch, Started(s).ctl)
  {
    EmptyIsWithin(c.batch);
    hide LoadDisk;
  }

  /** In every state of every run. */
  lemma {:induction false} RunConserves(c: Setup, run: seq<State>, steps: seq<Step>, i: nat)
    requires IsRun(c, run, steps) && Initial(c, run[0]) && i < |run|
    ensures Conserved(c, run[i])
    ensures c.batch.maxSize >= 1 ==> WithinBounds(c, run[i])
  {
    hide Conserved, WithinBounds, Initial, Enabled, Apply;
    if i == 0 {
      DownConserves(c, run[0]);
    } else {
      RunConserves(c, run, steps, i - 1);
      StepConserves(c, run[i - 1], steps[i - 1]);
      if c.batch.maxSize >= 1 {
        StepBounds(c, run[i - 1], steps[i - 1]);
      }
    }
  }

  lemma DownConserves(c: Setup, s: State)
    requires Initial(c, s)
    ensures Conserved(c, s) && WithinBounds(c, s)
  {
  }

  /** In every run, a batch of several messages posted over the byte limit is one whose last
      message joined it after a post at the limit had failed, and every such batch is over. */
  lemma OversizedExactly(c: Setup, run: seq<State>, steps: seq<Step>, i: nat, j: nat)
    requires IsRun(c, run, steps) && Initial(c, run[0]) && i < |run| && run[i].up && c.batch.maxSize >= 1
    requires j < |run[i].ctl.w.posted|
    ensures var k := run[i].ctl;
            j < |k.lates| && (k.lates[j] <==> |k.w.posted[j]| >= 2 && Bytes(k.w.posted[j]) > c.batch.maxBytes)
  {
    RunConserves(c, run, steps, i);
    hide IsRun, Initial, AllPostsBounded, ControlBounded, Conserved, Bytes;
  }

  /** A drained channel and a batcher with nothing in hand mean every message sent was settled,
      in order. */
  lemma DrainSettlesEverything(c: Setup, run: seq<State>, steps: seq<Step>, i: nat)
    requires IsRun(c, run, steps) && Initial(c, run[0]) && i < |run|
    requires run[i].up && run[i].queue == [] && Held(run[i].ctl) == []
    ensures run[i].ctl.w.settled == TagAll(c.batch, run[i].sent)
  {
    RunConserves(c, run, steps, i);
    assert TagAll(c.batch, run[i].queue) == [];
    hide IsRun, Initial, WithinBounds;
  }

  // ---- the position in memory ----

  lemma {:induction false} AckAllAppend(r: Reg, a: seq<Message>, b: seq<Message>)
    ensures AckAll(r, a + b) == AckAll(AckAll(r, a), b)
  {
    if b == [] {
      assert a + b == a;
    } else {
      assert (a + b)[..|a + b| - 1] == a + b[..|b| - 1];
      AckAllAppend(r, a, b[..|b| - 1]);
    }
  }

  /** What is still to be acknowledged is the end of what was accepted. */
  ghost predicate AcksLeft(k: Control)
  {
    |Unacked(k)| <= |k.w.accepted| && k.w.accepted[|k.w.accepted| - |Unacked(k)|..] == Unacked(k)
  }

  /** The accepted messages already acknowledged. */
  function Acked(k: Control): seq<Message>
  {
    if |Unacked(k)| <= |k.w.accepted| then k.w.accepted[..|k.w.accepted| - |Unacked(k)|] else []
  }

  lemma AckedAre(k: Control, acked: seq<Message>)
    requires k.w.accepted == acked + Unacked(k)
    ensures AcksLeft(k) && Acked(k) == acked
  {
    var u, n := Unacked(k), |acked|;
    assert k.w.accepted[..n] == acked && k.w.accepted[n..] == u && n == |k.w.accepted| - |u|;
    hide Unacked;
  }

  lemma AckedOf(k: Control)
    requires AcksLeft(k)
    ensures k.w.accepted == Acked(k) + Unacked(k)
  {
  }

  /** From `k` to `l` the registry moved by exactly the messages acknowledged meanwhile. */
  ghost predicate Acknowledged(k: Control, l: Control)
  {
    Acked(k) <= Acked(l) && l.w.reg == AckAll(k.w.reg, Acked(l)[|Acked(k)|..])
  }

  lemma AcknowledgedJoin(k: Control, l: Control, m: Control)
    requires Acknowledged(k, l) && Acknowledged(l, m)
    ensures Acknowledged(k, m)
  {
    hide Acked;
    var a, b := Acked(l)[|Acked(k)|..], Acked(m)[|Acked(l)|..];
    assert Acked(m)[|Acked(k)|..] == a + b;
    AckAllAppend(k.w.reg, a, b);
  }

  lemma NothingAcknowledged(k: Control, l: Control)
    requires Acked(k) == Acked(l) && k.w.reg == l.w.reg
    ensures Acknowledged(k, l)
  {
    hide Acked;
    assert Acked(l)[|Acked(k)|..] == [];
  }

  lemma OneAcknowledged(k: Control, l: Control, m: Message)
    requires Acked(l) == Acked(k) + [m] && l.w.reg == Ack(k.w.reg, m)
    ensures Acknowledged(k, l)
  {
    hide Acked, Ack;
    assert Acked(l)[|Acked(k)|..] == [m];
    assert [m][..0] == [] && AckAll(k.w.reg, []) == k.w.reg;
    assert AckAll(k.w.reg, [m]) == Ack(AckAll(k.w.reg, [m][..0]), m);
  }

  lemma BatcherAcknowledges(c: Config, k: Control, queue: seq<Message>, closed: bool, cancelled: bool, bs: BatcherStep)
    requires BatcherEnabled(k, queue, closed, cancelled, bs) && AcksLeft(k)
    ensures var l := BatcherAfter(c, k, queue, closed, cancelled, bs);
            AcksLeft(l) && Acknowledged(k, l)
  {
    AckedOf(k);
    hide StartReceive, StartFlush, FinishPost, AckNext, Acked, Acknowledged, AcksLeft;
    var l := BatcherAfter(c, k, queue, closed, cancelled, bs);
    match bs {
      case Receive =>
        ReceiveHand(c, k, queue[0]);
        AckedAre(l, Acked(k));
        NothingAcknowledged(k, l);
      case Tick =>
        FlushHand(c, k, Wait);
        AckedAre(l, Acked(k));
        NothingAcknowledged(k, l);
      case Drain =>
        FlushHand(c, k, End);
        AckedAre(l, Acked(k));
        NothingAcknowledged(k, l);
      case Post(v) =>
        PostHand(c, k, v);
        AckedAre(l, Acked(k));
        NothingAcknowledged(k, l);
      case AckOne =>
        AckHand(c, k);
        var m, rest := k.phase.todo[0], k.phase.todo[1..];
        assert Acked(k) + ([m] + rest) == (Acked(k) + [m]) + rest;
        AckedAre(l, Acked(k) + [m]);
        OneAcknowledged(k, l, m);
      case Abandon =>
        AckedAre(l, Acked(k));
        NothingAcknowledged(k, l);
    }
  }

  lemma StepAcknowledges(c: Setup, s: State, st: Step)
    requires Enabled(c, s, st) && AcksLeft(s.ctl)
    ensures AcksLeft(Apply(c, s, st).ctl)
    ensures !st.Start? ==> Acknowledged(s.ctl, Apply(c, s, st).ctl)
  {
    NothingAcknowledged(s.ctl, s.ctl);
    CtlAfter(c, s, st);
    hide AcksLeft, Acknowledged, BatcherAfter, BatcherEnabled, Enabled, Apply, Started;
    match st {
      case Start => FreshAcks(Started(s).ctl.w);
      case Batching(bs) => BatcherAcknowledges(c.batch, s.ctl, s.queue, s.closed, s.cancelled, bs);
      case _ =>
    }
  }

  lemma CtlAfter(c: Setup, s: State, st: Step)
    requires Enabled(c, s, st)
    ensures match st
            case Start => Apply(c, s, st).ctl == Fresh(Started(s).ctl.w)
            case Batching(bs) =>
              && BatcherEnabled(s.ctl, s.queue, s.closed, s.cancelled, bs)
              && Apply(c, s, st).ctl == BatcherAfter(c.batch, s.ctl, s.queue, s.closed, s.cancelled, bs)
            case _ => Apply(c, s, st).ctl == s.ctl
  {
    hide BatcherAfter, BatcherEnabled, TailEnabled, TailAfter, TailDrop, FlushAfter, FileAt, LoadDisk;
  }

  lemma FreshAcks(w: World)
    ensures AcksLeft(Fresh(w))
  {
  }

  /** No start in between: the states belong to one session, which may have ended. */
  ghost predicate OneSession(steps: seq<Step>, i: nat, j: nat)
    requires i <= j <= |steps|
  {
    forall k | i <= k < j :: !steps[k].Start?
  }

  lemma {:induction false} SessionAcknowledges(c: Setup, run: seq<State>, steps: seq<Step>, i: nat, j: nat)
    requires IsRun(c, run, steps) && i <= j < |run| && OneSession(steps, i, j) && AcksLeft(run[i].ctl)
    ensures Acknowledged(run[i].ctl, run[j].ctl) && AcksLeft(run[j].ctl)
    decreases j
  {
    NothingAcknowledged(run[i].ctl, run[i].ctl);
    hide Acknowledged, AcksLeft, Acked, Enabled, Apply;
    if i == j {
    } else {
      SessionAcknowledges(c, run, steps, i, j - 1);
      StepAcknowledges(c, run[j - 1], steps[j - 1]);
      AcknowledgedJoin(run[i].ctl, run[j - 1].ctl, run[j].ctl);
    }
  }

  /** An acknowledgement never moves a source's position back. */
  lemma AckNeverRewinds(c: Setup, s: State, id: string, o: nat)
    requires id in c.sources && s.up && s.ctl.phase.Acking? && s.ctl.phase.todo != [] && Ok(c, s, id, o)
    ensures Leq(Get(s.ctl.w.reg.offsets, id), Get(AckNext(c.batch, s.ctl).w.reg.offsets, id))
  {
    var m := s.ctl.phase.todo[0];
    AckFacts(c.batch, s.ctl, id);
    AckHand(c.batch, s.ctl);
    CleanParts(s, id);
    PlainOne(m, id);
    AckAt(s.ctl.w.reg, m, id);
    FactsOfOne(m, id);
    ViewParts(s, id);
    hide AckNext, Ack, Facts, Plain, InHand, Unacked, Clean, Settled, LostOf, Ladder, TailOk, History, DiskMark;
    if m.id == id {
      FlightAhead(c, s, id, o, Out(m.content, m.offset));
    }
  }

  lemma FlightAhead(c: Setup, s: State, id: string, o: nat, out: Out)
    requires id in c.sources && s.up && Ok(c, s, id, o)
    requires Facts(InHand(s.ctl), id) != [] && Facts(InHand(s.ctl), id)[0] == out
    ensures Leq(Get(s.ctl.w.reg.offsets, id), Some(out.off))
  {
    ViewParts(s, id);
    hide Facts, InHand, Clean, Settled, LostOf, Ladder, TailOk, History, DiskMark, Marked;
    var v := ViewOf(s, id);
    assert v.flight[0] == out && Outs(v)[0] == out;
  }

  lemma OthersNeverRewind(c: Config, k: Control, queue: seq<Message>, closed: bool, cancelled: bool, bs: BatcherStep)
    requires BatcherEnabled(k, queue, closed, cancelled, bs) && !bs.AckOne?
    ensures BatcherAfter(c, k, queue, closed, cancelled, bs).w.reg == k.w.reg
  {
    hide StartReceive, StartFlush, FinishPost, AckNext;
    match bs {
      case Receive => ReceiveHand(c, k, queue[0]);
      case Tick => FlushHand(c, k, Wait);
      case Drain => FlushHand(c, k, End);
      case Post(v) => PostHand(c, k, v);
      case Abandon =>
    }
  }

  lemma StepNeverRewinds(c: Setup, s: State, st: Step, id: string, o: nat)
    requires id in c.sources && Enabled(c, s, st) && Ok(c, s, id, o) && !st.Start?
    ensures Leq(Get(s.ctl.w.reg.offsets, id), Get(Apply(c, s, st).ctl.w.reg.offsets, id))
  {
    hide Ok, TailEnabled, TailAfter, TailDrop, FlushAfter, FileAt, LoadDisk;
    hide AckNext, StartReceive, StartFlush, FinishPost;
    if st.Batching? {
      if st.bs.AckOne? {
        AckNeverRewinds(c, s, id, o);
      } else {
        OthersNeverRewind(c.batch, s.ctl, s.queue, s.closed, s.cancelled, st.bs);
        hide BatcherAfter, BatcherEnabled;
      }
    }
  }

  lemma {:induction false} SessionNeverRewinds(c: Setup, run: seq<State>, steps: seq<Step>, id: string, i: nat, j: nat)
    requires id in c.sources && IsRun(c, run, steps) && Initial(c, run[0]) && i <= j < |run| && OneSession(steps, i, j)
    ensures Leq(Get(run[i].ctl.w.reg.offsets, id), Get(run[j].ctl.w.reg.offsets, id))
    decreases j
  {
    hide Initial, Enabled, Apply, Ok;
    if i == j {
    } else {
      SessionNeverRewinds(c, run, steps, id, i, j - 1);
      var o := RunOk(c, run, steps, id, j - 1);
      StepNeverRewinds(c, run[j - 1], steps[j - 1], id, o);
    }
  }

  /** Within a session the position in memory is that of the source's last acknowledged message,
      or what it was; what is acknowledged are the accepted messages in order, all but those of
      the batch being acknowledged; and although each acknowledgement overwrites the position,
      it never moves back. */
  lemma MemoryIsLastAcknowledged(c: Setup, run: seq<State>, steps: seq<Step>, id: string, i: nat, j: nat)
    requires id in c.sources && IsRun(c, run, steps) && Initial(c, run[0]) && i <= j < |run|
    requires run[i].up && OneSession(steps, i, j)
    ensures var k, l := run[i].ctl, run[j].ctl;
            var before, after := Get(k.w.reg.offsets, id), Get(l.w.reg.offsets, id);
            && l.w.accepted == Acked(l) + Unacked(l) && Acked(k) <= Acked(l)
            && (var facts := Facts(Acked(l)[|Acked(k)|..], id);
                after == if facts == [] then before else Some(facts[|facts| - 1].off))
            && Leq(before, after)
  {
    var b := BootOf(c, run, steps, i);
    SessionAcknowledges(c, run, steps, b, i);
    SessionAcknowledges(c, run, steps, i, j);
    SessionNeverRewinds(c, run, steps, id, i, j);
    RunIsPlain(c, run, steps, id, j);
    AckedOf(run[j].ctl);
    hide IsRun, Initial, AckAll, Acked, Unacked;
    LastOfAcked(run[i].ctl, run[j].ctl, id);
  }

  /** The registry's entry after some acknowledgements is the offset of the source's last. */
  lemma LastOfAcked(k: Control, l: Control, id: string)
    requires Acknowledged(k, l) && l.w.accepted == Acked(l) + Unacked(l) && Plain(l.w.accepted, id)
    ensures var before, after := Get(k.w.reg.offsets, id), Get(l.w.reg.offsets, id);
            var facts := Facts(Acked(l)[|Acked(k)|..], id);
            after == if facts == [] then before else Some(facts[|facts| - 1].off)
  {
    var a, n := Acked(l), |Acked(k)|;
    PlainAppend(a, Unacked(l), id);
    assert a == a[..n] + a[n..];
    PlainAppend(a[..n], a[n..], id);
    AckAllAt(k.w.reg, a[n..], id);
  }

  /** The state after the last start before `i`. */
  lemma {:induction false} BootOf(c: Setup, run: seq<State>, steps: seq<Step>, i: nat) returns (b: nat)
    requires IsRun(c, run, steps) && Initial(c, run[0]) && i < |run| && run[i].up
    ensures b <= i && OneSession(steps, b, i) && AcksLeft(run[b].ctl)
  {
    hide AcksLeft;
    assert i > 0;
    StepUp(c, run[i - 1], steps[i - 1]);
    if steps[i - 1].Start? {
      b := i;
      FreshAcks(Started(run[i - 1]).ctl.w);
    } else {
      b := BootOf(c, run, steps, i - 1);
    }
  }

  lemma StepUp(c: Setup, s: State, st: Step)
    requires Enabled(c, s, st) && Apply(c, s, st).up
    ensures if st.Start? then Apply(c, s, st) == Started(s) else s.up || st.Grow?
    ensures st.Grow? ==> s.up == Apply(c, s, st).up
  {
    hide BatcherAfter, BatcherEnabled, TailEnabled, TailAfter, TailDrop, FlushAfter, FileAt, LoadDisk, Snapshot;
  }

  // ---- accepted messages of a file carry no cursor ----

  lemma BatcherIsPlain(c: Config, k: Control, queue: seq<Message>, closed: bool, cancelled: bool, bs: BatcherStep,
                       id: string)
    requires BatcherEnabled(k, queue, closed, cancelled, bs) && Plain(InHand(k), id) && Plain(k.w.accepted, id)
    ensures Plain(BatcherAfter(c, k, queue, closed, cancelled, bs).w.accepted, id)
  {
    hide StartReceive, StartFlush, FinishPost, AckNext, Plain, InHand;
    match bs {
      case Receive => ReceiveHand(c, k, queue[0]);
      case Tick => FlushHand(c, k, Wait);
      case Drain => FlushHand(c, k, End);
      case Post(v) =>
        PostHand(c, k, v);
        PlainAppend(k.b.msgs, Joiner(k), id);
        PlainAppend(k.w.accepted, k.b.msgs, id);
        assert k.w.accepted + [] == k.w.accepted;
      case AckOne => AckHand(c, k);
      case Abandon =>
    }
  }

  lemma StepIsPlain(c: Setup, s: State, st: Step, id: string)
    requires Enabled(c, s, st) && (s.up ==> Plain(InHand(s.ctl), id)) && Plain(s.ctl.w.accepted, id)
    ensures Plain(Apply(c, s, st).ctl.w.accepted, id)
  {
    hide Plain, InHand, BatcherAfter, BatcherEnabled, TailEnabled, TailAfter, TailDrop, FlushAfter, FileAt, LoadDisk;
    if st.Batching? {
      BatcherIsPlain(c.batch, s.ctl, s.queue, s.closed, s.cancelled, st.bs, id);
    }
  }

  lemma {:induction false} RunIsPlain(c: Setup, run: seq<State>, steps: seq<Step>, id: string, i: nat)
    requires id in c.sources && IsRun(c, run, steps) && Initial(c, run[0]) && i < |run|
    ensures Plain(run[i].ctl.w.accepted, id)
  {
    hide Enabled, Apply, InHand, Ok;
    if i == 0 {
    } else {
      RunIsPlain(c, run, steps, id, i - 1);
      var o := RunOk(c, run, steps, id, i - 1);
      HandIsPlain(c, run[i - 1], id, o);
      StepIsPlain(c, run[i - 1], steps[i - 1], id);
    }
  }

  lemma HandIsPlain(c: Setup, s: State, id: string, o: nat)
    requires id in c.sources && Ok(c, s, id, o)
    ensures s.up ==> Plain(InHand(s.ctl), id)
  {
    hide SourceOk, InHand;
  }

  // ---- byte by byte ----

  /** Byte `p` is a newline, or a carriage return of the run before one. */
  ghost predicate Terminator(f: Text, p: nat)
  {
    exists q :: p <= q < |f| && f[q] == LF && forall k | p <= k < q :: f[k] == CR
  }

  /** Byte `p` of the file lies in the run of pieces that begins at `s`, and the run is one
      logical line. */
  ghost predicate LineAround(r: Rules, f: Text, s: nat, calls: seq<Call>, p: nat)
  {
    && calls != [] && Pieces(f, s, calls) && s <= p < EndOf(s, calls)
    && OneMessage(r, Texts(calls)) && (Aggregating(r) || |calls| == 1)
  }

  /** A message of `ms` from the file has this content and ends at this position. */
  ghost predicate Among(ms: seq<Message>, id: string, content: Text, off: nat)
  {
    exists i :: 0 <= i < |ms| && ms[i].id == id && ms[i].content == content && ms[i].offset == off
  }

  /** What became of a logical line: it was blank outside aggregation, the processor reached it
      and the rules dropped it, or what the rules left of it was accepted or refused. */
  ghost predicate Accounted(r: Rules, st: State, id: string, calls: seq<Call>)
    requires calls != []
  {
    var content, off := LogicalLine(r, calls), calls[|calls| - 1].off;
    || (!Aggregating(r) && content == [])
    || match Finish(r.filters, content)
       case None => Loss(id, Out(content, off)) in st.dropped
       case Some(sent) => Among(st.ctl.w.accepted, id, sent, off) || Among(st.ctl.w.refused, id, sent, off)
  }

  /** Message `m` is the logical line around byte `p`, whole and unchanged, and `p` is in the
      text of one of its pieces, which the message holds at position `at`. */
  ghost predicate Carries(r: Rules, f: Text, m: Message, p: nat, s: nat, calls: seq<Call>, k: nat, from: nat, at: nat)
  {
    && LineAround(r, f, s, calls, p)
    && m.content == LogicalLine(r, calls) && m.offset == EndOf(s, calls)
    && k < |calls| && PieceOf(f, from, calls[k]) && from <= p < from + |calls[k].line| <= |f|
    && at + |calls[k].line| <= |m.content|
    && m.content[at..at + |calls[k].line|] == f[from..from + |calls[k].line|]
  }

  ghost predicate Shipped(r: Rules, f: Text, ms: seq<Message>, id: string, p: nat)
  {
    exists i: nat, s, calls, k, from, at ::
      i < |ms| && ms[i].id == id && Carries(r, f, ms[i], p, s, calls, k, from, at)
  }

  lemma {:induction false} FactOf(ms: seq<Message>, id: string, out: Out) returns (i: nat)
    requires out in Facts(ms, id)
    ensures i < |ms| && ms[i].id == id && ms[i].content == out.content && ms[i].offset == out.off
  {
    var m := ms[|ms| - 1];
    if m.id == id && out == Out(m.content, m.offset) {
      i := |ms| - 1;
    } else {
      i := FactOf(ms[..|ms| - 1], id, out);
    }
  }

  /** A buffered line appears verbatim in the joined message. */
  lemma {:induction false} JoinHolds(lines: seq<Text>, k: nat) returns (at: nat)
    requires k < |lines|
    ensures var j := Strings.Join(lines, LF);
            at + |lines[k]| <= |j| && j[at..at + |lines[k]|] == lines[k]
  {
    if k == 0 {
      at := 0;
    } else {
      var inner := JoinHolds(lines[1..], k - 1);
      at := |lines[0]| + 1 + inner;
      var j := Strings.Join(lines[1..], LF);
      assert Strings.Join(lines, LF) == lines[0] + [LF] + j;
      assert Strings.Join(lines, LF)[at..at + |lines[k]|] == j[inner..inner + |lines[k]|];
    }
  }

  lemma {:induction false} PiecesSplit(f: Text, s: nat, a: seq<Call>, b: seq<Call>)
    requires Pieces(f, s, a + b)
    ensures Pieces(f, s, a) && Pieces(f, EndOf(s, a), b) && EndOf(s, a + b) == EndOf(EndOf(s, a), b)
    decreases |a|
  {
    hide PieceOf, EndOf;
    EndOfNone(s);
    if a == [] {
      assert a + b == b;
    } else {
      assert (a + b)[1..] == a[1..] + b;
      PiecesSplit(f, a[0].off, a[1..], b);
      EndOfRest(s, a);
      EndOfRest(s, a + b);
    }
  }

  /** The run of a tiling that byte `p` lies in. */
  lemma {:induction false} RunAt(f: Text, s: nat, runs: seq<seq<Call>>, p: nat) returns (k: nat, from: nat)
    requires Pieces(f, s, Flatten(runs)) && s <= p < EndOf(s, Flatten(runs))
    ensures k < |runs| && Pieces(f, from, runs[k]) && from <= p < EndOf(from, runs[k])
    decreases |runs|
  {
    hide Pieces, EndOf;
    if runs == [] {
      EndOfNone(s);
      assert false;
    } else {
      PiecesSplit(f, s, runs[0], Flatten(runs[1..]));
      if p < EndOf(s, runs[0]) {
        k, from := 0, s;
      } else {
        var inner;
        inner, from := RunAt(f, EndOf(s, runs[0]), runs[1..], p);
        k := inner + 1;
      }
    }
  }

  /** The piece byte `p` lies in. */
  lemma {:induction false} PieceAt(f: Text, s: nat, calls: seq<Call>, p: nat) returns (k: nat, from: nat)
    requires Pieces(f, s, calls) && s <= p < EndOf(s, calls)
    ensures k < |calls| && from <= p < calls[k].off && PieceOf(f, from, calls[k])
    decreases |calls|
  {
    hide PieceOf;
    if p < calls[0].off {
      k, from := 0, s;
    } else {
      var inner;
      inner, from := PieceAt(f, calls[0].off, calls[1..], p);
      k := inner + 1;
    }
  }

  /** A byte of a piece is a terminator, or lies in the piece's text. */
  lemma PieceText(f: Text, from: nat, c: Call, p: nat)
    requires PieceOf(f, from, c) && from <= p < c.off
    ensures from + |c.line| <= |f| && f[from..from + |c.line|] == c.line
    ensures Terminator(f, p) || p < from + |c.line|
  {
    if f[c.off - 1] == LF && c.line == TrimCR(f[from..c.off - 1]) {
      var raw := f[from..c.off - 1];
      assert raw[..|c.line|] == c.line;
      if p >= from + |c.line| {
        forall k | p <= k < c.off - 1
          ensures f[k] == CR
        {
          assert raw[k - from] == f[k];
        }
      }
    }
  }

  lemma InHistory(st: State, id: string, fate: Fate)
    requires fate in History(st, id)
    ensures match fate
            case Sent(out) =>
              || Among(st.ctl.w.accepted, id, out.content, out.off)
              || Among(st.ctl.w.refused, id, out.content, out.off)
            case Dropped(out) => Loss(id, out) in st.dropped
  {
    hide Facts;
    match fate {
      case Sent(out) =>
        if out in Facts(st.ctl.w.accepted, id) {
          var i := FactOf(st.ctl.w.accepted, id, out);
        } else {
          assert out in Facts(st.ctl.w.refused, id);
          var i := FactOf(st.ctl.w.refused, id, out);
        }
      case Dropped(out) =>
    }
  }

  /** Byte by byte: everything between two positions of the registry file lies in a logical
      line of the file that was blank, dropped, accepted or refused as a whole, with the
      message ending where the line ends. */
  lemma EveryByteHasAFate(c: Setup, run: seq<State>, steps: seq<Step>, id: string, i: nat, j: nat, p: nat)
    returns (s: nat, calls: seq<Call>)
    requires id in c.sources && IsRun(c, run, steps) && Initial(c, run[0]) && i <= j < |run|
    requires DiskMark(run[i], id).Some? && DiskMark(run[j], id).Some?
    requires DiskMark(run[i], id).value <= p < DiskMark(run[j], id).value
    ensures LineAround(c.sources[id].rules, FileAt(run[j].files, id), s, calls, p)
    ensures Accounted(c.sources[id].rules, run[j], id, calls)
  {
    var o := AtLeastOnce.AtLeastOnce(c, run, steps, id, i, j);
    var f, r, h, b := FileAt(run[j].files, id), c.sources[id].rules, History(run[j], id), DiskMark(run[j], id).value;
    hide DiskMark, History, IsRun, Initial;
    s, calls := LineReached(r, f, h, o, b, p);
    LineSettles(r, run[j], id, calls);
  }

  lemma LineReached(r: Rules, f: Text, h: set<Fate>, o: nat, x: int, p: nat) returns (s: nat, calls: seq<Call>)
    requires Reached(r, f, h, o, x) && o <= p < x
    ensures LineAround(r, f, s, calls, p) && Resolved(r, calls, h)
  {
    hide Pieces, EndOf, OneMessage, Finished, LogicalLine;
    var runs :| Tiling(r, f, h, o, x, runs);
    var k;
    k, s := RunAt(f, o, runs, p);
    calls := runs[k];
  }

  lemma LineSettles(r: Rules, st: State, id: string, calls: seq<Call>)
    requires Resolved(r, calls, History(st, id))
    ensures calls != [] && Accounted(r, st, id, calls)
  {
    hide History, OneMessage, Among;
    var content, off := LogicalLine(r, calls), calls[|calls| - 1].off;
    if Aggregating(r) || content != [] {
      match Finish(r.filters, content) {
        case Some(sent) => InHistory(st, id, Sent(Out(sent, off)));
        case None => InHistory(st, id, Dropped(Out(content, off)));
      }
    }
  }

  /** No message of the file was refused. */
  ghost predicate NoneRefused(st: State, id: string)
  {
    forall i | 0 <= i < |st.ctl.w.refused| :: st.ctl.w.refused[i].id != id
  }

  /** What that gives when no filtering rule is configured and nothing of the file was refused:
      every byte is a line terminator, or lies in the text of a piece of a logical line that is,
      whole and unchanged, the content of an accepted message ending where the line ends. */
  lemma EveryByteIsShipped(c: Setup, run: seq<State>, steps: seq<Step>, id: string, i: nat, j: nat, p: nat)
    requires id in c.sources && IsRun(c, run, steps) && Initial(c, run[0]) && i <= j < |run|
    requires DiskMark(run[i], id).Some? && DiskMark(run[j], id).Some?
    requires DiskMark(run[i], id).value <= p < DiskMark(run[j], id).value
    requires c.sources[id].rules.filters == [] && NoneRefused(run[j], id)
    ensures var f := FileAt(run[j].files, id);
            p < |f| && (Terminator(f, p) || Shipped(c.sources[id].rules, f, run[j].ctl.w.accepted, id, p))
  {
    var s, calls := EveryByteHasAFate(c, run, steps, id, i, j, p);
    var f, r := FileAt(run[j].files, id), c.sources[id].rules;
    hide DiskMark, IsRun, Initial;
    PiecesBounds(f, s, calls);
    LineIsShipped(r, f, run[j], id, p, s, calls);
  }

  lemma LineIsShipped(r: Rules, f: Text, st: State, id: string, p: nat, s: nat, calls: seq<Call>)
    requires r.filters == [] && NoneRefused(st, id)
    requires LineAround(r, f, s, calls, p) && Accounted(r, st, id, calls)
    ensures Terminator(f, p) || Shipped(r, f, st.ctl.w.accepted, id, p)
  {
    hide PieceOf, Terminator, OneMessage, Strings.Join;
    var k, from := PieceAt(f, s, calls, p);
    PieceText(f, from, calls[k], p);
    hide Pieces;
    if !Terminator(f, p) {
      var content, ms := LogicalLine(r, calls), st.ctl.w.accepted;
      assert Finish(r.filters, content) == Some(content);
      var i :| 0 <= i < |ms| && ms[i].id == id && ms[i].content == content && ms[i].offset == EndOf(s, calls);
      var at := 0;
      if Aggregating(r) {
        at := JoinHolds(Texts(calls), k);
      }
      assert Carries(r, f, ms[i], p, s, calls, k, from, at);
    }
  }
}
