/**
 At-least-once delivery over whole runs: between two positions the registry file ever holds
 for a file, every byte was delivered, refused by the intake, blank, or dropped by a rule.
 */
module AtLeastOnce {
  import opened Basics
  import opened Decimal
  import opened LineProcessor
  import opened Messages
  import opened FileTailer
  import opened Coverage
  import opened Registry
  import opened Intake
  import opened Batcher
  import opened BatcherSteps
  import opened Pipeline
  import opened SourceInvariant

  function Get<T>(m: map<string, T>, id: string): Option<T>
  {
    if id in m then Some(m[id]) else None
  }

  /** Everything taken from the file and not yet acknowledged or refused, oldest first. */
  function Flight(k: Control, queue: seq<Message>, id: string): seq<Out>
  {
    Facts(InHand(k), id) + Facts(queue, id)
  }

  /** What the intake accepted from the file, and what it refused outright. */
  function Settled(w: World, id: string): set<Fate>
  {
    Elems(Facts(w.accepted, id)) + Elems(Facts(w.refused, id))
  }

  /** What the rules dropped of the file. */
  function LostOf(dropped: set<Loss>, id: string): set<Fate>
  {
    set d | d in dropped && d.id == id :: Dropped(d.out)
  }

  /** Everything that became of the file's lines so far. */
  function History(s: State, id: string): set<Fate>
  {
    Settled(s.ctl.w, id) + LostOf(s.dropped, id)
  }

  function ViewOf(s: State, id: string): View
  {
    View(FileAt(s.files, id), DiskMark(s, id),
         if s.up && s.snap.Some? then Some(Get(LoadFile(s.snap.value).offsets, id)) else None,
         s.up, Get(s.ctl.w.reg.offsets, id), Get(s.tails, id),
         Flight(s.ctl, s.queue, id), History(s, id))
  }

  /** The position the registry file holds for `id`. */
  function DiskMark(s: State, id: string): Option<int>
  {
    Get(LoadDisk(s.disk).offsets, id)
  }

  ghost predicate Plain(ms: seq<Message>, id: string)
  {
    forall i | 0 <= i < |ms| && ms[i].id == id :: ms[i].cursor == ""
  }

  ghost predicate PlainTail(t: Tail, id: string)
  {
    t.Tailing? && !t.box.Empty? ==> t.box.m.id == id && t.box.m.cursor == ""
  }

  /** A file source has a 64-bit size and never a cursor. */
  ghost predicate Clean(s: State, id: string)
  {
    && |FileAt(s.files, id)| <= INT64_MAX
    && id !in LoadDisk(s.disk).cursors
    && (s.up ==>
          && id !in s.ctl.w.reg.cursors
          && (s.snap.Some? ==> id !in LoadFile(s.snap.value).cursors)
          && Plain(InHand(s.ctl), id) && Plain(s.queue, id)
          && Elems(Facts(Unacked(s.ctl), id)) <= Settled(s.ctl.w, id)
          && (forall j | j in s.tails :: PlainTail(s.tails[j], j)))
  }

  ghost predicate Ok(c: Setup, s: State, id: string, o: nat)
    requires id in c.sources
  {
    Clean(s, id) && SourceOk(c.sources[id].rules, ViewOf(s, id), o)
  }

  // ---- the batcher's steps ----

  lemma {:induction false} AckAllAt(r: Reg, ms: seq<Message>, id: string)
    requires Plain(ms, id)
    ensures var facts, r' := Facts(ms, id), AckAll(r, ms);
            && (id in r'.cursors <==> id in r.cursors)
            && Get(r'.offsets, id) == if facts == [] then Get(r.offsets, id) else Some(facts[|facts| - 1].off)
  {
    if ms == [] {
    } else {
      AckAllAt(r, ms[..|ms| - 1], id);
    }
  }

  lemma AckAt(r: Reg, m: Message, id: string)
    requires m.id == id ==> m.cursor == ""
    ensures var r' := Ack(r, m);
            && (id in r'.cursors <==> id in r.cursors)
            && Get(r'.offsets, id) == if m.id == id then Some(m.offset) else Get(r.offsets, id)
  {
  }

  lemma FactsOfOne(m: Message, id: string)
    ensures Facts([m], id) == if m.id == id then [Out(m.content, m.offset)] else []
    ensures Facts([], id) == []
  {
    assert [m][..0] == [];
  }

  lemma PlainOne(m: Message, id: string)
    ensures Plain([m], id) <==> (m.id == id ==> m.cursor == "")
  {
    if Plain([m], id) {
      assert [m][0] == m;
    }
  }

  lemma PlainAppend(a: seq<Message>, b: seq<Message>, id: string)
    ensures Plain(a + b, id) <==> Plain(a, id) && Plain(b, id)
  {
    forall i | 0 <= i < |a + b|
      ensures (a + b)[i] == if i < |a| then a[i] else b[i - |a|]
    {
    }
    if Plain(a + b, id) {
      forall i | 0 <= i < |a| && a[i].id == id
        ensures a[i].cursor == ""
      {
        assert (a + b)[i] == a[i];
      }
      forall i | 0 <= i < |b| && b[i].id == id
        ensures b[i].cursor == ""
      {
        assert (a + b)[|a| + i] == b[i];
      }
    }
  }

  /** What such a state says about one source. */
  lemma CtlView(s: State, k: Control, queue: seq<Message>, id: string)
    ensures ViewOf(WithCtl(s, k, queue), id) ==
            ViewOf(s, id).(reg := Get(k.w.reg.offsets, id), flight := Flight(k, queue, id),
                           h := Settled(k.w, id) + LostOf(s.dropped, id))
  {
    hide Flight, Settled, LostOf, LoadFile, LoadDisk;
  }

  lemma CtlClean(s: State, k: Control, queue: seq<Message>, id: string)
    requires s.up && Clean(s, id) && id !in k.w.reg.cursors && Plain(InHand(k), id) && Plain(queue, id)
    requires Elems(Facts(Unacked(k), id)) <= Settled(k.w, id)
    ensures Clean(WithCtl(s, k, queue), id)
  {
    hide Plain, InHand, Unacked, Settled, LoadFile, LoadDisk, PlainTail, Facts, Elems;
  }

  lemma CleanParts(s: State, id: string)
    requires s.up && Clean(s, id)
    ensures id !in s.ctl.w.reg.cursors && Plain(InHand(s.ctl), id) && Plain(s.queue, id)
    ensures Elems(Facts(Unacked(s.ctl), id)) <= Settled(s.ctl.w, id)
  {
  }

  /** A step of the batcher that moves messages and settles none. */
  lemma MoveInHand(c: Setup, s: State, id: string, o: nat, k: Control, queue: seq<Message>)
    requires id in c.sources && s.up && Ok(c, s, id, o)
    requires Flight(k, queue, id) == Flight(s.ctl, s.queue, id)
    requires Plain(InHand(k), id) && Plain(queue, id)
    requires k.w.reg == s.ctl.w.reg && Settled(k.w, id) == Settled(s.ctl.w, id)
    requires Elems(Facts(Unacked(k), id)) <= Settled(k.w, id)
    ensures Ok(c, WithCtl(s, k, queue), id, o)
  {
    CtlView(s, k, queue, id);
    CleanParts(s, id);
    CtlClean(s, k, queue, id);
    CtlView(s, s.ctl, s.queue, id);
    assert WithCtl(s, s.ctl, s.queue) == s;
    hide SourceOk, ViewOf, Clean, Flight, Plain, InHand, Unacked, Settled, LostOf;
  }

  /** Taking a message off the channel leaves it in flight. */
  lemma ReceiveFacts(c: Config, k: Control, queue: seq<Message>, id: string)
    requires k.phase.Idle? && queue != []
    ensures var k' := StartReceive(c, k, queue[0]);
            && Flight(k', queue[1..], id) == Flight(k, queue, id)
            && (Plain(InHand(k), id) && Plain(queue, id) ==> Plain(InHand(k'), id) && Plain(queue[1..], id))
  {
    var m, rest := queue[0], queue[1..];
    var t := Tagged(c, m);
    ReceiveHand(c, k, m);
    TaggedIsPlain(c, m, id);
    hide InHand, StartReceive, Tagged;
    assert queue == [m] + rest;
    FactsAppend(InHand(k), [t], id);
    FactsAppend([m], rest, id);
    PlainAppend([m], rest, id);
    PlainAppend(InHand(k), [t], id);
    hide Facts, Plain;
    Associates(Facts(InHand(k), id), Facts([t], id), Facts(rest, id));
  }

  lemma TaggedIsPlain(c: Config, m: Message, id: string)
    ensures Facts([Tagged(c, m)], id) == Facts([m], id)
    ensures Plain([m], id) ==> Plain([Tagged(c, m)], id)
  {
    FactsOfOne(m, id);
    FactsOfOne(Tagged(c, m), id);
    PlainOne(m, id);
    PlainOne(Tagged(c, m), id);
    hide Facts, Plain;
  }

  lemma ReceiveKeeps(c: Setup, s: State, id: string, o: nat)
    requires id in c.sources && s.up && s.ctl.phase.Idle? && s.queue != [] && Ok(c, s, id, o)
    ensures Ok(c, WithCtl(s, StartReceive(c.batch, s.ctl, s.queue[0]), s.queue[1..]), id, o)
  {
    var k' := StartReceive(c.batch, s.ctl, s.queue[0]);
    ReceiveFacts(c.batch, s.ctl, s.queue, id);
    ReceiveHand(c.batch, s.ctl, s.queue[0]);
    NothingUnacked(k', id);
    CleanParts(s, id);
    hide SourceOk, Plain, Facts, InHand, StartReceive, Settled, Unacked, Flight, Clean, ViewOf;
    MoveInHand(c, s, id, o, k', s.queue[1..]);
  }

  lemma NothingUnacked(k: Control, id: string)
    ensures Unacked(k) == [] ==> Elems(Facts(Unacked(k), id)) == {}
  {
    NoElems();
  }

  lemma FlushKeeps(c: Setup, s: State, id: string, o: nat, next: Next)
    requires id in c.sources && s.up && s.ctl.phase.Idle? && !next.Join? && Ok(c, s, id, o)
    ensures Ok(c, WithCtl(s, StartFlush(c.batch, s.ctl, next), s.queue), id, o)
  {
    var k' := StartFlush(c.batch, s.ctl, next);
    FlushHand(c.batch, s.ctl, next);
    NothingUnacked(k', id);
    CleanParts(s, id);
    hide SourceOk, Plain, Facts, InHand, StartFlush, Settled, Unacked, Clean, ViewOf;
    MoveInHand(c, s, id, o, k', s.queue);
  }

  lemma SettledMore(w: World, w': World, a: seq<Message>, r: seq<Message>, id: string)
    requires w'.accepted == w.accepted + a && w'.refused == w.refused + r
    ensures Settled(w', id) == Settled(w, id) + (Elems(Facts(a, id)) + Elems(Facts(r, id)))
  {
    FactsAppend(w.accepted, a, id);
    FactsAppend(w.refused, r, id);
    ElemsAppend(Facts(w.accepted, id), Facts(a, id));
    ElemsAppend(Facts(w.refused, id), Facts(r, id));
  }

  /** Refused messages leave the hand; accepted ones stay in it until acknowledged. */
  lemma PostFacts(c: Config, k: Control, v: Verdict, id: string)
    requires k.phase.Posting?
    ensures var k', ms := FinishPost(c, k, v), k.b.msgs;
            var a, r := if v.Accepted? then ms else [], if v.Refused? then ms else [];
            && Facts(InHand(k), id) == Facts(r, id) + Facts(InHand(k'), id)
            && (Plain(InHand(k), id) ==> Plain(InHand(k'), id))
            && Unacked(k') == a && k'.w.reg == k.w.reg
            && Settled(k'.w, id) == Settled(k.w, id) + (Elems(Facts(a, id)) + Elems(Facts(r, id)))
  {
    var k', ms := FinishPost(c, k, v), k.b.msgs;
    var a, r := if v.Accepted? then ms else [], if v.Refused? then ms else [];
    PostHand(c, k, v);
    hide FinishPost;
    SettledMore(k.w, k'.w, a, r, id);
    InHandAfter(k, k', v);
    FactsAppend(r, InHand(k'), id);
    PlainAppend(r, InHand(k'), id);
    hide Facts, Plain, InHand, Settled;
  }

  lemma InHandAfter(k: Control, k': Control, v: Verdict)
    requires k.phase.Posting?
    requires (if v.Transient? then [] else k.b.msgs) + (k'.b.msgs + Joiner(k')) == InHand(k)
    requires Unacked(k') == if v.Accepted? then k.b.msgs else []
    ensures (if v.Refused? then k.b.msgs else []) + InHand(k') == InHand(k)
  {
    var rest := k'.b.msgs + Joiner(k');
    assert [] + rest == rest && [] + InHand(k') == InHand(k');
  }

  lemma PostKeeps(c: Setup, s: State, id: string, o: nat, v: Verdict)
    requires id in c.sources && s.up && s.ctl.phase.Posting? && Ok(c, s, id, o)
    ensures Ok(c, WithCtl(s, FinishPost(c.batch, s.ctl, v), s.queue), id, o)
  {
    PostFacts(c.batch, s.ctl, v, id);
    var k' := FinishPost(c.batch, s.ctl, v);
    NoElems();
    FactsOfOne(Message([], "", "", [], "", 0, ""), id);
    CleanParts(s, id);
    CtlView(s, k', s.queue, id);
    CtlView(s, s.ctl, s.queue, id);
    assert WithCtl(s, s.ctl, s.queue) == s;
    hide SourceOk, FinishPost, Facts, Plain, InHand, Unacked, Settled, LostOf, ViewOf, Clean, Elems;
    CtlClean(s, k', s.queue, id);
    if v.Refused? {
      RefusedKeeps(c, s, id, o, k', Facts(s.ctl.b.msgs, id));
    } else {
      KnownKeeps(c, s, id, o, k');
    }
  }

  /** Taking the oldest messages out of the hand takes them out of flight. */
  lemma FlightSplit(k: Control, k': Control, queue: seq<Message>, facts: seq<Out>, id: string)
    requires Facts(InHand(k), id) == facts + Facts(InHand(k'), id)
    ensures var all, rest, n := Flight(k, queue, id), Flight(k', queue, id), |facts|;
            n <= |all| && all[..n] == facts && all[n..] == rest
  {
    hide Facts, InHand;
    var rest := Facts(InHand(k'), id) + Facts(queue, id);
    assert Flight(k, queue, id) == facts + rest;
  }

  lemma ThreeSets<T>(a: set<T>, b: set<T>, c: set<T>)
    ensures (a + ({} + b)) + c == (a + c) + b
  {
  }

  /** The oldest messages in flight were refused. */
  lemma RefusedKeeps(c: Setup, s: State, id: string, o: nat, k: Control, facts: seq<Out>)
    requires id in c.sources && s.up && Ok(c, s, id, o) && k.w.reg == s.ctl.w.reg
    requires Facts(InHand(s.ctl), id) == facts + Facts(InHand(k), id)
    requires Settled(k.w, id) == Settled(s.ctl.w, id) + ({} + Elems(facts))
    requires Clean(WithCtl(s, k, s.queue), id)
    ensures Ok(c, WithCtl(s, k, s.queue), id, o)
  {
    CtlView(s, k, s.queue, id);
    CtlView(s, s.ctl, s.queue, id);
    assert WithCtl(s, s.ctl, s.queue) == s;
    FlightSplit(s.ctl, k, s.queue, facts, id);
    hide SourceOk, Facts, InHand, Settled, LostOf, ViewOf, Clean, Elems, Flight;
    var v := ViewOf(s, id);
    ThreeSets(Settled(s.ctl.w, id), Elems(facts), LostOf(s.dropped, id));
    SettleKeeps(c.sources[id].rules, v, o, |facts|, false);
  }

  /** More is known to be settled, and nothing else has changed. */
  lemma KnownKeeps(c: Setup, s: State, id: string, o: nat, k: Control)
    requires id in c.sources && s.up && Ok(c, s, id, o) && k.w.reg == s.ctl.w.reg
    requires Facts(InHand(s.ctl), id) == [] + Facts(InHand(k), id)
    requires Settled(s.ctl.w, id) <= Settled(k.w, id)
    requires Clean(WithCtl(s, k, s.queue), id)
    ensures Ok(c, WithCtl(s, k, s.queue), id, o)
  {
    CtlView(s, k, s.queue, id);
    CtlView(s, s.ctl, s.queue, id);
    assert WithCtl(s, s.ctl, s.queue) == s;
    assert [] + Facts(InHand(k), id) == Facts(InHand(k), id);
    hide SourceOk, Facts, InHand, Settled, LostOf, ViewOf, Clean;
    LearnKeeps(c.sources[id].rules, ViewOf(s, id), o, ViewOf(WithCtl(s, k, s.queue), id).h);
  }

  lemma NoElems()
    ensures Elems([]) == {}
  {
  }

  /** Acknowledging the oldest message takes it out of flight. */
  lemma AckFacts(c: Config, k: Control, id: string)
    requires k.phase.Acking? && k.phase.todo != []
    ensures var k', m := AckNext(c, k), k.phase.todo[0];
            && Facts(InHand(k), id) == Facts([m], id) + Facts(InHand(k'), id)
            && (Plain(InHand(k), id) ==> Plain(InHand(k'), id) && Plain([m], id))
            && k'.w == k.w.(reg := Ack(k.w.reg, m))
            && Elems(Facts(Unacked(k), id)) == Elems(Facts([m], id)) + Elems(Facts(Unacked(k'), id))
  {
    var k', m, rest := AckNext(c, k), k.phase.todo[0], k.phase.todo[1..];
    AckHand(c, k);
    assert Unacked(k) == [m] + rest;
    hide AckNext, Ack, InHand, Unacked;
    FactsAppend([m], rest, id);
    FactsAppend([m], InHand(k'), id);
    PlainAppend([m], InHand(k'), id);
    ElemsAppend(Facts([m], id), Facts(rest, id));
  }

  lemma AckKeeps(c: Setup, s: State, id: string, o: nat)
    requires id in c.sources && s.up && s.ctl.phase.Acking? && s.ctl.phase.todo != [] && Ok(c, s, id, o)
    ensures Ok(c, WithCtl(s, AckNext(c.batch, s.ctl), s.queue), id, o)
  {
    CleanParts(s, id);
    AckMoves(c.batch, s.ctl, id);
    hide SourceOk, AckNext, Facts, Plain, InHand, Unacked, Settled, ViewOf, Clean, Elems;
    var k', m := AckNext(c.batch, s.ctl), s.ctl.phase.todo[0];
    CtlClean(s, k', s.queue, id);
    if m.id == id {
      AckedKeeps(c, s, id, o, k', Out(m.content, m.offset));
    } else {
      MoveAck(c, s, id, o, k');
    }
  }

  /** What one acknowledgement does to the facts of a source. */
  lemma AckMoves(c: Config, k: Control, id: string)
    requires k.phase.Acking? && k.phase.todo != [] && Plain(InHand(k), id) && id !in k.w.reg.cursors
    requires Elems(Facts(Unacked(k), id)) <= Settled(k.w, id)
    ensures var k', m := AckNext(c, k), k.phase.todo[0];
            && Plain(InHand(k'), id) && id !in k'.w.reg.cursors && Settled(k'.w, id) == Settled(k.w, id)
            && Elems(Facts(Unacked(k'), id)) <= Settled(k'.w, id)
            && (if m.id == id then
                  var out := Out(m.content, m.offset);
                  && Facts(InHand(k), id) == [out] + Facts(InHand(k'), id) && Sent(out) in Settled(k'.w, id)
                  && Get(k'.w.reg.offsets, id) == Some(out.off)
                else
                  Facts(InHand(k), id) == Facts(InHand(k'), id)
                  && Get(k'.w.reg.offsets, id) == Get(k.w.reg.offsets, id))
  {
    var k', m := AckNext(c, k), k.phase.todo[0];
    AckFacts(c, k, id);
    PlainOne(m, id);
    AckAt(k.w.reg, m, id);
    SameSettled(k.w, k'.w, id);
    FactsOfOne(m, id);
    hide AckNext, Ack, Facts, Plain, InHand, Unacked, Settled;
    if m.id == id {
      OneElem(Out(m.content, m.offset));
      hide Elems;
    } else {
      assert [] + Facts(InHand(k'), id) == Facts(InHand(k'), id);
    }
  }

  lemma SameSettled(w: World, w': World, id: string)
    requires w'.accepted == w.accepted && w'.refused == w.refused
    ensures Settled(w', id) == Settled(w, id)
  {
  }

  lemma AckedKeeps(c: Setup, s: State, id: string, o: nat, k: Control, out: Out)
    requires id in c.sources && s.up && Ok(c, s, id, o)
    requires Facts(InHand(s.ctl), id) == [out] + Facts(InHand(k), id)
    requires Settled(k.w, id) == Settled(s.ctl.w, id) && Sent(out) in Settled(k.w, id)
    requires Get(k.w.reg.offsets, id) == Some(out.off)
    requires Clean(WithCtl(s, k, s.queue), id)
    ensures Ok(c, WithCtl(s, k, s.queue), id, o)
  {
    AckedView(s, id, k, out);
    hide SourceOk, Facts, InHand, Settled, ViewOf, Clean, Elems;
    SettleKeeps(c.sources[id].rules, ViewOf(s, id), o, 1, true);
  }

  lemma AckedView(s: State, id: string, k: Control, out: Out)
    requires s.up && Facts(InHand(s.ctl), id) == [out] + Facts(InHand(k), id)
    requires Settled(k.w, id) == Settled(s.ctl.w, id) && Sent(out) in Settled(k.w, id)
    requires Get(k.w.reg.offsets, id) == Some(out.off)
    ensures var v, v' := ViewOf(s, id), ViewOf(WithCtl(s, k, s.queue), id);
            && v.up && |v.flight| >= 1 && v.flight[..1] == [out] && v.h + Elems(v.flight[..1]) == v.h
            && v' == v.(flight := v.flight[1..], reg := Some(v.flight[0].off))
  {
    CtlView(s, k, s.queue, id);
    CtlView(s, s.ctl, s.queue, id);
    assert WithCtl(s, s.ctl, s.queue) == s;
    FlightSplit(s.ctl, k, s.queue, [out], id);
    OneElem(out);
    ViewParts(s, id);
    hide Facts, InHand, Settled, LostOf, ViewOf, Flight, Elems;
    var v := ViewOf(s, id);
    assert v.flight[0] == v.flight[..1][0];
  }

  lemma OneElem(out: Out)
    ensures Elems([out]) == {Sent(out)}
  {
  }

  /** Another source's message was acknowledged. */
  lemma MoveAck(c: Setup, s: State, id: string, o: nat, k: Control)
    requires id in c.sources && s.up && Ok(c, s, id, o)
    requires Facts(InHand(s.ctl), id) == Facts(InHand(k), id) && Settled(k.w, id) == Settled(s.ctl.w, id)
    requires Get(k.w.reg.offsets, id) == Get(s.ctl.w.reg.offsets, id) && Clean(WithCtl(s, k, s.queue), id)
    ensures Ok(c, WithCtl(s, k, s.queue), id, o)
  {
    CtlView(s, k, s.queue, id);
    CtlView(s, s.ctl, s.queue, id);
    assert WithCtl(s, s.ctl, s.queue) == s;
    hide SourceOk, Facts, InHand, Settled, LostOf, ViewOf, Clean;
  }

  lemma BatcherStepKeeps(c: Setup, s: State, bs: BatcherStep, id: string, o: nat)
    requires id in c.sources && s.up && BatcherEnabled(s.ctl, s.queue, s.closed, s.cancelled, bs) && Ok(c, s, id, o)
    ensures Ok(c, WithCtl(s, BatcherAfter(c.batch, s.ctl, s.queue, s.closed, s.cancelled, bs), QueueAfter(s.queue, bs)),
               id, o)
  {
    hide Ok, WithCtl, StartReceive, StartFlush, FinishPost, AckNext;
    match bs {
      case Receive => ReceiveKeeps(c, s, id, o);
      case Tick => FlushKeeps(c, s, id, o, Wait);
      case Drain => FlushKeeps(c, s, id, o, End);
      case Post(v) => PostKeeps(c, s, id, o, v);
      case AckOne => AckKeeps(c, s, id, o);
      case Abandon => AbandonKeeps(c, s, id, o);
    }
  }

  lemma AbandonKeeps(c: Setup, s: State, id: string, o: nat)
    requires id in c.sources && s.up && s.ctl.phase.Idle? && Ok(c, s, id, o)
    ensures Ok(c, WithCtl(s, s.ctl.(phase := Ended), s.queue), id, o)
  {
    var k' := s.ctl.(phase := Ended);
    assert InHand(k') == InHand(s.ctl) && Unacked(k') == Unacked(s.ctl);
    CleanParts(s, id);
    hide SourceOk, InHand, Unacked, Clean, ViewOf, Plain;
    MoveInHand(c, s, id, o, k', s.queue);
  }

  // ---- the tailers' steps ----

  /** A loss noted for one source is a drop in its history and in no other's. */
  lemma NotedHere(dropped: set<Loss>, id: string, drop: Option<Out>, other: string)
    ensures LostOf(Noted(dropped, id, drop), id) == LostOf(dropped, id) + Drops(drop)
    ensures other != id ==> LostOf(Noted(dropped, id, drop), other) == LostOf(dropped, other)
  {
  }

  lemma UnitedDrops(s: State, id: string, drop: Option<Out>)
    ensures Settled(s.ctl.w, id) + (LostOf(s.dropped, id) + Drops(drop)) == History(s, id) + Drops(drop)
  {
    hide Settled, LostOf, Drops;
  }

  /** A tailer's move, seen from its own source and from the others. */
  lemma TailView(s: State, j: string, t: Tail, drop: Option<Out>, id: string)
    ensures var s' := WithTail(s, j, t, drop);
            ViewOf(s', id) == if j == id then Moved(ViewOf(s, id), t, drop) else ViewOf(s, id)
  {
    NotedHere(s.dropped, j, drop, id);
    UnitedDrops(s, id, drop);
    hide Flight, Settled, LostOf, Noted, Drops, LoadFile, LoadDisk;
  }

  lemma TailClean(s: State, j: string, t: Tail, drop: Option<Out>, id: string)
    requires Clean(s, id) && PlainTail(t, j)
    ensures Clean(WithTail(s, j, t, drop), id)
  {
    hide Noted, LoadFile, LoadDisk, Plain, PlainTail, InHand, Unacked, Settled, Facts, Elems;
  }

  lemma ViewParts(s: State, id: string)
    ensures var v := ViewOf(s, id);
            && v.f == FileAt(s.files, id) && v.up == s.up && v.tail == Get(s.tails, id)
            && v.reg == Get(s.ctl.w.reg.offsets, id) && v.disk == DiskMark(s, id) && v.h == History(s, id)
  {
    hide Flight, History, LoadFile, DiskMark;
  }

  /** Messages a tailer offers carry its own identifier and no cursor. */
  lemma TailStaysPlain(src: Source, id: string, t: Tail, file: Option<Text>, full: bool, cancelled: bool, st: TailStep)
    requires TailEnabled(t, file, full, cancelled, st) && PlainTail(t, id)
    ensures PlainTail(TailAfter(src, id, t, file, full, cancelled, st), id)
  {
    hide LineSpec, LineProcessor.FlushSpec, IndexLF, TrimCR, OpenAt;
  }

  lemma PlainTailAt(s: State, id: string, j: string)
    requires s.up && Clean(s, id) && j in s.tails
    ensures PlainTail(s.tails[j], j)
  {
    hide PlainTail, Plain, LoadFile, LoadDisk, InHand, Unacked;
  }

  lemma FollowKeeps(c: Setup, s: State, j: string, ts: TailStep, id: string, o: nat)
    requires id in c.sources && s.up && j in c.sources && j in s.tails && Ok(c, s, id, o)
    requires TailEnabled(s.tails[j], FileOf(s, j), Full(c, s), s.cancelled, ts)
    ensures var src, t, file := c.sources[j], s.tails[j], FileOf(s, j);
            var s' := WithTail(s, j, TailAfter(src, j, t, file, Full(c, s), s.cancelled, ts),
                               TailDrop(src, t, file, Full(c, s), s.cancelled, ts));
            Ok(c, s', id, if j == id then BaseAfter(t, FileAt(s.files, id), ts, o) else o)
    ensures j == id && DiskMark(s, id).Some? ==> BaseAfter(s.tails[j], FileAt(s.files, id), ts, o) == o
  {
    var src, t, file, full := c.sources[j], s.tails[j], FileOf(s, j), Full(c, s);
    PlainTailAt(s, id, j);
    ViewParts(s, id);
    hide SourceOk, TailAfter, TailDrop, TailEnabled, BaseAfter;
    hide Clean, ViewOf, PlainTail, Full, Moved, WithTail, DiskMark;
    TailStaysPlain(src, j, t, file, full, s.cancelled, ts);
    var t', drop := TailAfter(src, j, t, file, full, s.cancelled, ts), TailDrop(src, t, file, full, s.cancelled, ts);
    TailView(s, j, t', drop, id);
    TailClean(s, j, t', drop, id);
    if j == id {
      TailStepKeeps(src, id, ViewOf(s, id), o, file, full, s.cancelled, ts);
    }
  }

  lemma StartTailKeeps(c: Setup, s: State, j: string, id: string, o: nat)
    requires id in c.sources && s.up && j !in s.tails && Ok(c, s, id, o)
    ensures Ok(c, WithTail(s, j, Waiting(Get(s.ctl.w.reg.offsets, j)), None), id, o)
  {
    var t := Waiting(Get(s.ctl.w.reg.offsets, j));
    TailView(s, j, t, None, id);
    ViewParts(s, id);
    TailClean(s, j, t, None, id);
    hide SourceOk, Clean, ViewOf, WithTail, History;
    if j == id {
      var v := ViewOf(s, id);
      assert v.h + Drops(None) == v.h;
      SourceInvariant.StartTailKeeps(c.sources[id].rules, v, o);
    }
  }

  // ---- sends ----

  lemma SentView(s: State, tails: map<string, Tail>, m: Message, id: string)
    ensures ViewOf(WithSent(s, tails, m), id) ==
            ViewOf(s, id).(tail := Get(tails, id), flight := ViewOf(s, id).flight + Facts([m], id))
  {
    FactsAppend(s.queue, [m], id);
    hide Facts, InHand, Settled, LostOf, LoadFile, LoadDisk;
    assert Facts(InHand(s.ctl), id) + (Facts(s.queue, id) + Facts([m], id)) ==
           (Facts(InHand(s.ctl), id) + Facts(s.queue, id)) + Facts([m], id);
  }

  lemma SentClean(s: State, tails: map<string, Tail>, m: Message, id: string)
    requires s.up && Clean(s, id) && Plain([m], id) && forall j | j in tails :: PlainTail(tails[j], j)
    ensures Clean(WithSent(s, tails, m), id)
  {
    PlainAppend(s.queue, [m], id);
    hide Facts, Plain, PlainTail, InHand, Unacked, Settled, LoadFile, LoadDisk, Elems;
  }

  lemma EmptiedPlain(s: State, j: string, id: string)
    requires s.up && Clean(s, id) && j in s.tails && s.tails[j].Tailing? && !s.tails[j].box.Empty?
    ensures var tails, m := s.tails[j := s.tails[j].(box := Empty)], s.tails[j].box.m;
            (forall i | i in tails :: PlainTail(tails[i], i)) && m.id == j && Plain([m], id)
  {
    PlainTailAt(s, id, j);
    PlainOne(s.tails[j].box.m, id);
    hide Plain, LoadFile, LoadDisk, InHand, Unacked;
  }

  lemma EnqueueKeeps(c: Setup, s: State, j: string, id: string, o: nat)
    requires id in c.sources && s.up && j in s.tails && s.tails[j].Tailing? && !s.tails[j].box.Empty? && Ok(c, s, id, o)
    ensures var t := s.tails[j];
            Ok(c, WithSent(s, s.tails[j := t.(box := Empty)], t.box.m), id, o)
  {
    var t := s.tails[j];
    var m, tails := t.box.m, s.tails[j := t.(box := Empty)];
    EmptiedPlain(s, j, id);
    SentClean(s, tails, m, id);
    EnqueueView(s, j, id);
    hide Clean, Plain, ViewOf, WithSent, PlainTail;
    if j == id {
      hide SourceOk;
      SourceInvariant.EnqueueKeeps(c.sources[id].rules, ViewOf(s, id), o);
    }
  }

  /** What sending a message changes for one source. */
  lemma EnqueueView(s: State, j: string, id: string)
    requires s.up && j in s.tails && s.tails[j].Tailing? && !s.tails[j].box.Empty? && s.tails[j].box.m.id == j
    ensures var t, v := s.tails[j], ViewOf(s, id);
            && ViewOf(WithSent(s, s.tails[j := t.(box := Empty)], t.box.m), id) ==
               (if j == id then v.(tail := Some(t.(box := Empty)), flight := v.flight + BoxOut(t)) else v)
            && (j == id ==> v.up && v.tail == Some(t))
  {
    var t, v := s.tails[j], ViewOf(s, id);
    FactsOfOne(t.box.m, id);
    SentView(s, s.tails[j := t.(box := Empty)], t.box.m, id);
    ViewParts(s, id);
    hide Facts, ViewOf, WithSent, History, DiskMark;
    assert v.flight + [] == v.flight;
  }

  lemma OtherKeeps(c: Setup, s: State, m: Message, id: string, o: nat)
    requires id in c.sources && s.up && m.id != id && Ok(c, s, id, o)
    ensures Ok(c, WithSent(s, s.tails, m), id, o)
  {
    FactsOfOne(m, id);
    PlainOne(m, id);
    SentView(s, s.tails, m, id);
    AllPlain(s, id);
    SentClean(s, s.tails, m, id);
    ViewParts(s, id);
    hide SourceOk, Clean, Plain, Facts, ViewOf, WithSent, PlainTail, History, DiskMark;
    assert ViewOf(s, id).flight + [] == ViewOf(s, id).flight;
  }

  lemma AllPlain(s: State, id: string)
    requires s.up && Clean(s, id)
    ensures forall j | j in s.tails :: PlainTail(s.tails[j], j)
  {
  }

  // ---- files, starts and crashes ----

  lemma GrowKeeps(c: Setup, s: State, j: string, more: Text, id: string, o: nat)
    requires id in c.sources && |FileAt(s.files, j)| + |more| <= INT64_MAX && Ok(c, s, id, o)
    ensures Ok(c, WithFile(s, j, FileAt(s.files, j) + more), id, o)
  {
    var s' := WithFile(s, j, FileAt(s.files, j) + more);
    FileView(s, j, FileAt(s.files, j) + more, id);
    FileClean(s, j, FileAt(s.files, j) + more, id);
    ViewParts(s, id);
    hide SourceOk, Clean, ViewOf, WithFile, History, DiskMark;
    if j == id {
      SourceInvariant.GrowKeeps(c.sources[id].rules, ViewOf(s, id), o, more);
    }
  }

  lemma FileView(s: State, j: string, f: Text, id: string)
    ensures ViewOf(WithFile(s, j, f), id) == if j == id then ViewOf(s, id).(f := f) else ViewOf(s, id)
  {
    hide Flight, Settled, LostOf, LoadFile, LoadDisk;
  }

  lemma FileClean(s: State, j: string, f: Text, id: string)
    requires Clean(s, id) && |f| <= INT64_MAX
    ensures Clean(WithFile(s, j, f), id)
  {
    hide Plain, PlainTail, InHand, Unacked, Settled, LoadFile, LoadDisk, Facts, Elems;
  }

  lemma StartView(s: State, id: string)
    requires Clean(s, id)
    ensures var v := ViewOf(s, id);
            ViewOf(Started(s), id) == v.(up := true, reg := v.disk, snap := None, tail := None, flight := [])
    ensures Clean(Started(s), id)
  {
    FactsOfOne(Message([], "", "", [], "", 0, ""), id);
    NoElems();
    hide LostOf, LoadFile, LoadDisk, Facts, Elems;
  }

  lemma StartKeeps(c: Setup, s: State, id: string, o: nat)
    requires id in c.sources && !s.up && Ok(c, s, id, o)
    ensures Ok(c, Started(s), id, o)
  {
    StartView(s, id);
    hide SourceOk, Clean, ViewOf, Started;
    SourceInvariant.StartKeeps(c.sources[id].rules, ViewOf(s, id), o);
  }

  lemma CrashKeeps(c: Setup, s: State, id: string, o: nat)
    requires id in c.sources && s.up && Ok(c, s, id, o)
    ensures Ok(c, s.(up := false), id, o)
  {
    var v, v' := ViewOf(s, id), ViewOf(s.(up := false), id);
    assert v'.f == v.f && v'.disk == v.disk && v'.h == v.h && !v'.up by {
      hide Flight, Settled, LostOf, LoadFile, LoadDisk;
    }
    hide Session, ViewOf, Plain, PlainTail, InHand, Unacked, LoadFile, LoadDisk;
  }

  lemma FlagKeeps(c: Setup, s: State, cancelled: bool, closed: bool, id: string, o: nat)
    requires id in c.sources && Ok(c, s, id, o)
    ensures Ok(c, s.(cancelled := cancelled, closed := closed), id, o)
  {
    var s' := s.(cancelled := cancelled, closed := closed);
    assert ViewOf(s', id) == ViewOf(s, id) && Clean(s', id) by {
      hide LostOf, Flight, Settled, LoadFile, LoadDisk, Plain, PlainTail, InHand, Unacked, Facts, Elems;
    }
    hide SourceOk, ViewOf, Clean;
  }

  // ---- registry flushes ----

  /** A temporary file said to be written holds the whole snapshot. */
  ghost predicate WroteOk(s: State)
  {
    s.up && s.wrote ==> s.snap.Some? && s.disk.tmp == Whole(s.snap.value)
  }

  lemma StepKeepsWrote(c: Setup, s: State, st: Step)
    requires Enabled(c, s, st) && WroteOk(s)
    ensures WroteOk(Apply(c, s, st))
  {
    hide Snapshot, TailEnabled, TailAfter, TailDrop, BatcherEnabled, BatcherAfter, FileAt, LoadDisk, LoadFile;
  }

  lemma {:induction false} RunWrote(c: Setup, run: seq<State>, steps: seq<Step>, i: nat)
    requires IsRun(c, run, steps) && Initial(c, run[0]) && i < |run|
    ensures WroteOk(run[i])
  {
    hide WroteOk, Enabled, Apply;
    if i == 0 {
      NotWritten(c, run[0]);
    } else {
      RunWrote(c, run, steps, i - 1);
      StepKeepsWrote(c, run[i - 1], steps[i - 1]);
    }
  }

  lemma NotWritten(c: Setup, s: State)
    requires Initial(c, s)
    ensures WroteOk(s)
  {
  }

  /** What a flush says about one source. */
  lemma FlushView(s: State, l: Flushing, id: string)
    ensures ViewOf(WithFlush(s, l), id) ==
            ViewOf(s, id).(disk := Get(LoadDisk(l.disk).offsets, id),
                           snap := if s.up && l.snap.Some? then Some(Get(LoadFile(l.snap.value).offsets, id)) else None)
  {
    hide Flight, Settled, LostOf, LoadFile, LoadDisk;
  }

  lemma FlushClean(s: State, l: Flushing, id: string)
    requires s.up && Clean(s, id) && id !in LoadDisk(l.disk).cursors
    requires l.snap.Some? ==> id !in LoadFile(l.snap.value).cursors
    ensures Clean(WithFlush(s, l), id)
  {
    hide Plain, PlainTail, InHand, Unacked, Settled, LoadFile, LoadDisk, Facts, Elems;
  }

  lemma NoCursors(s: State, id: string)
    requires s.up && Clean(s, id)
    ensures id !in LoadDisk(s.disk).cursors && id !in s.ctl.w.reg.cursors
    ensures s.snap.Some? ==> id !in LoadFile(s.snap.value).cursors
  {
    hide Plain, PlainTail, InHand, Unacked, LoadFile, LoadDisk;
  }

  lemma StoredFits(c: Setup, s: State, id: string, o: nat)
    requires id in c.sources && s.up && Ok(c, s, id, o)
    ensures id in s.ctl.w.reg.offsets ==> 0 <= s.ctl.w.reg.offsets[id] <= INT64_MAX
  {
    ViewParts(s, id);
    hide Ladder, TailOk, LoadFile, LoadDisk, Plain, PlainTail, InHand, Unacked, History, DiskMark;
  }

  lemma TakeKeeps(c: Setup, s: State, id: string, o: nat)
    requires id in c.sources && s.up && Ok(c, s, id, o)
    ensures Ok(c, WithFlush(s, Flushing(s.disk, Some(Snapshot(s.ctl.w.reg)), false)), id, o)
  {
    var l := Flushing(s.disk, Some(Snapshot(s.ctl.w.reg)), false);
    NoCursors(s, id);
    StoredFits(c, s, id, o);
    LoadSnapshotAt(s.ctl.w.reg, id);
    FlushView(s, l, id);
    ViewParts(s, id);
    hide SourceOk, ViewOf, Clean, LoadFile, LoadDisk, Snapshot, WithFlush, History;
    FlushClean(s, l, id);
    SnapshotKeeps(c.sources[id].rules, ViewOf(s, id), o);
  }

  lemma RenameKeeps(c: Setup, s: State, id: string, o: nat)
    requires id in c.sources && s.up && s.wrote && WroteOk(s) && Ok(c, s, id, o)
    ensures Ok(c, WithFlush(s, Flushing(Install(s.disk), None, false)), id, o)
    ensures Leq(DiskMark(s, id), DiskMark(WithFlush(s, Flushing(Install(s.disk), None, false)), id))
  {
    var l := Flushing(Install(s.disk), None, false);
    NoCursors(s, id);
    FlushView(s, FlushOf(s), id);
    assert WithFlush(s, FlushOf(s)) == s;
    FlushView(s, l, id);
    ViewParts(s, id);
    ViewParts(WithFlush(s, l), id);
    assert LoadDisk(l.disk) == LoadFile(s.snap.value);
    hide SourceOk, ViewOf, Clean, LoadFile, LoadDisk, DiskMark, History;
    FlushClean(s, l, id);
    SourceInvariant.RenameKeeps(c.sources[id].rules, ViewOf(s, id), o);
  }

  /** A flush that leaves the registry file alone, and the snapshot or nothing. */
  lemma WriteKeeps(c: Setup, s: State, l: Flushing, id: string, o: nat)
    requires id in c.sources && s.up && Ok(c, s, id, o)
    requires l.disk.target == s.disk.target && (l.snap == s.snap || l.snap.None?)
    ensures Ok(c, WithFlush(s, l), id, o)
  {
    NoCursors(s, id);
    FlushView(s, FlushOf(s), id);
    assert WithFlush(s, FlushOf(s)) == s;
    FlushView(s, l, id);
    assert LoadDisk(l.disk) == LoadDisk(s.disk);
    hide SourceOk, ViewOf, Clean, LoadFile, LoadDisk;
    FlushClean(s, l, id);
    if l.snap.None? {
      FailedFlushKeeps(c.sources[id].rules, ViewOf(s, id), o);
    }
  }

  lemma FlushStepKeeps(c: Setup, s: State, fs: FlushStep, id: string, o: nat)
    requires id in c.sources && s.up && FlushEnabled(s.snap, s.wrote, fs) && WroteOk(s) && Ok(c, s, id, o)
    ensures var s' := WithFlush(s, FlushAfter(FlushOf(s), s.ctl.w.reg, fs));
            Ok(c, s', id, o) && Leq(DiskMark(s, id), DiskMark(s', id))
  {
    hide Ok, Snapshot, LoadFile;
    var l := FlushAfter(FlushOf(s), s.ctl.w.reg, fs);
    match fs {
      case TakeSnapshot => TakeKeeps(c, s, id, o);
      case Rename => RenameKeeps(c, s, id, o);
      case _ => WriteKeeps(c, s, l, id, o);
    }
  }

  // ---- every step ----

  /** Where the claim about a source begins after a step: a file opened without an entry
      answers from its end on. */
  function Base(s: State, st: Step, id: string, o: nat): nat
  {
    if st.Follow? && st.id == id && id in s.tails then BaseAfter(s.tails[id], FileAt(s.files, id), st.ts, o) else o
  }

  /** Every step keeps the invariant of every source; the position it starts from only
      moves while the registry file has no entry, and that entry never moves back. */
  lemma StepKeeps(c: Setup, s: State, st: Step, id: string, o: nat)
    requires id in c.sources && Enabled(c, s, st) && Ok(c, s, id, o) && WroteOk(s)
    ensures Ok(c, Apply(c, s, st), id, Base(s, st, id, o))
    ensures DiskMark(s, id).Some? ==> Base(s, st, id, o) == o
    ensures Leq(DiskMark(s, id), DiskMark(Apply(c, s, st), id))
  {
    hide DiskMark, Ok, WroteOk, BaseAfter, Enabled, Apply, FileAt;
    if st.Flush? {
      FlushKeepsOk(c, s, st, id, o);
    } else {
      MarkKept(c, s, st, id);
      if st.StartTail? || st.Follow? || st.Enqueue? || st.Batching? {
        InsideKeeps(c, s, st, id, o);
      } else {
        OutsideKeeps(c, s, st, id, o);
      }
    }
  }

  lemma FlushKeepsOk(c: Setup, s: State, st: Step, id: string, o: nat)
    requires id in c.sources && Enabled(c, s, st) && Ok(c, s, id, o) && WroteOk(s) && st.Flush?
    ensures Ok(c, Apply(c, s, st), id, o) && Leq(DiskMark(s, id), DiskMark(Apply(c, s, st), id))
  {
    hide DiskMark, Ok, WroteOk, WithFlush, FlushAfter, FlushEnabled;
    FlushStepKeeps(c, s, st.fs, id, o);
  }

  /** The steps of the tailers and the batcher. */
  lemma InsideKeeps(c: Setup, s: State, st: Step, id: string, o: nat)
    requires id in c.sources && Enabled(c, s, st) && Ok(c, s, id, o)
    requires st.StartTail? || st.Follow? || st.Enqueue? || st.Batching?
    ensures Ok(c, Apply(c, s, st), id, Base(s, st, id, o))
    ensures DiskMark(s, id).Some? ==> Base(s, st, id, o) == o
  {
    hide DiskMark, Ok, BaseAfter, TailEnabled, TailAfter, TailDrop, BatcherEnabled, BatcherAfter;
    hide WithTail, WithSent, WithCtl, FileAt, Full;
    match st {
      case StartTail(j) => StartTailKeeps(c, s, j, id, o);
      case Follow(j, ts) => FollowKeeps(c, s, j, ts, id, o);
      case Enqueue(j) => EnqueueKeeps(c, s, j, id, o);
      case Batching(bs) => BatcherStepKeeps(c, s, bs, id, o);
    }
  }

  /** The steps outside the tailers, the batcher and the registry's flushes. */
  lemma OutsideKeeps(c: Setup, s: State, st: Step, id: string, o: nat)
    requires id in c.sources && Enabled(c, s, st) && Ok(c, s, id, o)
    requires st.Grow? || st.Start? || st.Other? || st.Cancel? || st.CloseQueue? || st.Crash?
    ensures Ok(c, Apply(c, s, st), id, o)
  {
    hide Ok, WithSent, WithFile, Started, FileAt;
    match st {
      case Grow(j, more) => GrowKeeps(c, s, j, more, id, o);
      case Start => StartKeeps(c, s, id, o);
      case Other(m) => OtherKeeps(c, s, m, id, o);
      case Cancel => FlagKeeps(c, s, true, s.closed, id, o);
      case CloseQueue => FlagKeeps(c, s, s.cancelled, true, id, o);
      case Crash => CrashKeeps(c, s, id, o);
    }
  }

  /** Only a flush touches the disk, and only its rename the registry file. */
  lemma TargetKept(c: Setup, s: State, st: Step)
    requires Enabled(c, s, st) && st != Flush(Rename)
    ensures Apply(c, s, st).disk.target == s.disk.target
    ensures !st.Flush? ==> Apply(c, s, st).disk == s.disk
  {
    hide Snapshot, TailEnabled, TailAfter, TailDrop, BatcherEnabled, BatcherAfter, FileAt, LoadDisk;
  }

  lemma MarkKept(c: Setup, s: State, st: Step, id: string)
    requires Enabled(c, s, st) && !st.Flush?
    ensures DiskMark(Apply(c, s, st), id) == DiskMark(s, id)
  {
    TargetKept(c, s, st);
    hide Apply, Enabled;
  }

  // ---- whole runs ----

  lemma InitialOk(c: Setup, s: State, id: string)
    requires id in c.sources && Initial(c, s)
    ensures var mark := DiskMark(s, id);
            Ok(c, s, id, if mark.Some? then mark.value else 0)
  {
    var v, mark := ViewOf(s, id), DiskMark(s, id);
    if mark.Some? {
      NothingReached(c.sources[id].rules, v.f, v.h, mark.value);
    }
  }

  lemma {:induction false} RunOk(c: Setup, run: seq<State>, steps: seq<Step>, id: string, i: nat) returns (o: nat)
    requires id in c.sources && IsRun(c, run, steps) && Initial(c, run[0]) && i < |run|
    ensures Ok(c, run[i], id, o)
  {
    hide Ok, Initial;
    if i == 0 {
      InitialOk(c, run[0], id);
      var mark := DiskMark(run[0], id);
      assert mark.Some? ==> mark.value >= 0 by {
        InitialMark(c, run[0], id);
      }
      o := if mark.Some? then mark.value else 0;
    } else {
      var before := RunOk(c, run, steps, id, i - 1);
      RunWrote(c, run, steps, i - 1);
      StepKeeps(c, run[i - 1], steps[i - 1], id, before);
      o := Base(run[i - 1], steps[i - 1], id, before);
    }
  }

  lemma InitialMark(c: Setup, s: State, id: string)
    requires id in c.sources && Initial(c, s)
    ensures var mark := DiskMark(s, id);
            mark.Some? ==> mark.value >= 0
  {
  }

  /** Once the registry file has an entry, the invariant keeps its starting position and the
      entry never moves back, whatever happens. */
  lemma {:induction false} RunKeeps(c: Setup, run: seq<State>, steps: seq<Step>, id: string, i: nat, j: nat, o: nat)
    requires id in c.sources && IsRun(c, run, steps) && Initial(c, run[0]) && i <= j < |run|
    requires Ok(c, run[i], id, o) && DiskMark(run[i], id).Some?
    ensures Ok(c, run[j], id, o)
    ensures Leq(DiskMark(run[i], id), DiskMark(run[j], id))
    decreases j
  {
    hide Ok, Base, DiskMark, WroteOk;
    if i == j {
    } else {
      RunKeeps(c, run, steps, id, i, j - 1, o);
      RunWrote(c, run, steps, j - 1);
      StepKeeps(c, run[j - 1], steps[j - 1], id, o);
    }
  }

  /** At-least-once: take any two moments of any run, with appends, reads, failures, flushes,
      shutdowns, crashes and restarts in any order. If the registry file holds a position for
      a file at the first, it holds one no smaller at the second, within the file, and the
      file from `o` to exactly the second position is tiled by logical lines, each of which is
      blank, was dropped by a rule when the processor reached it, or ends in a message that
      the intake accepted or refused. `o` is not past the first position; it is the position
      the registry file held at the very start of the run, if it held one. */
  lemma AtLeastOnce(c: Setup, run: seq<State>, steps: seq<Step>, id: string, i: nat, j: nat) returns (o: nat)
    requires id in c.sources && IsRun(c, run, steps) && Initial(c, run[0]) && i <= j < |run|
    requires DiskMark(run[i], id).Some?
    ensures var a, b, f := DiskMark(run[i], id), DiskMark(run[j], id), FileAt(run[j].files, id);
            && b.Some? && o <= a.value <= b.value <= |f|
            && Reached(c.sources[id].rules, f, History(run[j], id), o, b.value)
    ensures DiskMark(run[0], id).Some? ==> o == DiskMark(run[0], id).value
  {
    hide WroteOk, Reached, Initial, Ok, DiskMark, History;
    if DiskMark(run[0], id).Some? {
      InitialOk(c, run[0], id);
      InitialMark(c, run[0], id);
      o := DiskMark(run[0], id).value;
      RunKeeps(c, run, steps, id, 0, i, o);
    } else {
      o := RunOk(c, run, steps, id, i);
    }
    MarkReached(c, run[i], id, o);
    RunKeeps(c, run, steps, id, i, j, o);
    MarkReached(c, run[j], id, o);
  }

  lemma MarkReached(c: Setup, s: State, id: string, o: nat)
    requires id in c.sources && Ok(c, s, id, o) && DiskMark(s, id).Some?
    ensures var x, f := DiskMark(s, id).value, FileAt(s.files, id);
            o <= x <= |f| && Reached(c.sources[id].rules, f, History(s, id), o, x)
  {
    hide Session, History;
  }

  /** No run leaves the registry file torn: it is the initial one or a whole snapshot. */
  lemma {:induction false} TargetNeverTorn(c: Setup, run: seq<State>, steps: seq<Step>, i: nat)
    requires IsRun(c, run, steps) && Initial(c, run[0]) && i < |run|
    ensures run[i].disk.target == run[0].disk.target || run[i].disk.target.Whole?
  {
    hide Initial, Enabled;
    if i == 0 {
    } else {
      TargetNeverTorn(c, run, steps, i - 1);
      RunWrote(c, run, steps, i - 1);
      if steps[i - 1] == Flush(Rename) {
        RenameInstalls(c, run[i - 1]);
      } else {
        TargetKept(c, run[i - 1], steps[i - 1]);
      }
      hide Apply;
    }
  }

  lemma RenameInstalls(c: Setup, s: State)
    requires Enabled(c, s, Flush(Rename)) && WroteOk(s)
    ensures Apply(c, s, Flush(Rename)).disk.target.Whole?
  {
  }
}
