/**
 The batcher taken apart into the steps between which anything else may happen: starting a
 post, its outcome, each single acknowledgement, and what the batcher does afterwards.
 */
module BatcherSteps {
  import opened Basics
  import opened Messages
  import opened Registry
  import opened Intake
  import opened Batcher

  /** What a flush was started for: nothing more, a message waiting to join, or the end. */
  datatype Next = Wait | Join(m: Message) | End

  datatype Phase = Idle | Posting(next: Next) | Acking(todo: seq<Message>, next: Next) | Ended

  /** `late` says that the last message of the batch joined it after a post at the byte limit
      had failed, and `lates` the same of every batch posted. Both are history. */
  datatype Control = Control(b: Batch, phase: Phase, w: World, late: bool, lates: seq<bool>)

  /** A batcher that has just been started. */
  function Fresh(w: World): Control { Control(NO_BATCH, Idle, w, false, []) }

  /** Once a flush is over. */
  function Resume(c: Config, k: Control, next: Next): Control
  {
    match next
    case Wait => k.(phase := Idle)
    case End => k.(phase := Ended)
    case Join(m) =>
      var b := Push(k.b, m);
      k.(b := b, late := k.b.stuck, phase := if |b.msgs| >= c.maxSize then Posting(Wait) else Idle)
  }

  function StartFlush(c: Config, k: Control, next: Next): Control
  {
    if k.b.msgs == [] then Resume(c, k, next) else k.(phase := Posting(next))
  }

  function StartReceive(c: Config, k: Control, m: Message): Control
  {
    var m := Tagged(c, m);
    if |k.b.msgs| > 0 && k.b.bytes + |m.content| > c.maxBytes then k.(phase := Posting(Join(m)))
    else Resume(c, k, Join(m))
  }

  function FinishPost(c: Config, k: Control, v: Verdict): Control
    requires k.phase.Posting?
  {
    var w, lates, next := k.w.(posted := k.w.posted + [k.b.msgs]), k.lates + [k.late], k.phase.next;
    match v
    case Transient => Resume(c, k.(b := k.b.(stuck := true), w := w, lates := lates), next)
    case Refused =>
      var w := w.(refused := w.refused + k.b.msgs, settled := w.settled + k.b.msgs);
      Resume(c, k.(b := NO_BATCH, w := w, late := false, lates := lates), next)
    case Accepted =>
      var w := w.(accepted := w.accepted + k.b.msgs, settled := w.settled + k.b.msgs);
      Control(NO_BATCH, Acking(k.b.msgs, next), w, false, lates)
  }

  function AckNext(c: Config, k: Control): Control
    requires k.phase.Acking? && k.phase.todo != []
  {
    var todo, next := k.phase.todo, k.phase.next;
    var k1 := k.(w := k.w.(reg := Ack(k.w.reg, todo[0])));
    if |todo| == 1 then Resume(c, k1, next) else k1.(phase := Acking(todo[1..], next))
  }

  datatype BatcherStep = Receive | Tick | Drain | Post(v: Verdict) | AckOne | Abandon

  predicate BatcherEnabled(k: Control, queue: seq<Message>, closed: bool, cancelled: bool, st: BatcherStep)
  {
    match st
    case Receive => k.phase.Idle? && !k.b.stuck && queue != []
    case Tick => k.phase.Idle?
    case Drain => k.phase.Idle? && !k.b.stuck && closed && queue == []
    case Post(_) => k.phase.Posting?
    case AckOne => k.phase.Acking? && k.phase.todo != []
    case Abandon => k.phase.Idle? && k.b.stuck && cancelled
  }

  function BatcherAfter(c: Config, k: Control, queue: seq<Message>, closed: bool, cancelled: bool,
                        st: BatcherStep): Control
    requires BatcherEnabled(k, queue, closed, cancelled, st)
  {
    match st
    case Receive => StartReceive(c, k, queue[0])
    case Tick => StartFlush(c, k, Wait)
    case Drain => StartFlush(c, k, End)
    case Post(v) => FinishPost(c, k, v)
    case AckOne => AckNext(c, k)
    case Abandon => k.(phase := Ended)
  }

  function QueueAfter(queue: seq<Message>, st: BatcherStep): seq<Message>
  {
    if st.Receive? && queue != [] then queue[1..] else queue
  }

  // ---- the messages in hand ----

  /** Accepted by the intake and not yet acknowledged. */
  function Unacked(k: Control): seq<Message>
  {
    if k.phase.Acking? then k.phase.todo else []
  }

  function JoinerOf(next: Next): seq<Message>
  {
    if next.Join? then [next.m] else []
  }

  /** The message waiting for room in the batch. */
  function Joiner(k: Control): seq<Message>
  {
    match k.phase
    case Posting(next) => JoinerOf(next)
    case Acking(_, next) => JoinerOf(next)
    case _ => []
  }

  function InHand(k: Control): seq<Message> { Unacked(k) + (k.b.msgs + Joiner(k)) }

  lemma ResumeHand(c: Config, k: Control, next: Next)
    ensures var k' := Resume(c, k, next);
            && InHand(k') == k.b.msgs + JoinerOf(next) && Unacked(k') == [] && Joiner(k') == []
            && k'.b.msgs == k.b.msgs + JoinerOf(next) && k'.w == k.w && k'.lates == k.lates
  {
  }

  lemma ReceiveHand(c: Config, k: Control, m: Message)
    requires k.phase.Idle?
    ensures var k' := StartReceive(c, k, m);
            && InHand(k') == InHand(k) + [Tagged(c, m)] && Unacked(k') == [] && k'.w == k.w
            && k'.b.msgs + Joiner(k') == k.b.msgs + Joiner(k) + [Tagged(c, m)]
  {
    hide Resume;
    ResumeHand(c, k, Join(Tagged(c, m)));
  }

  lemma FlushHand(c: Config, k: Control, next: Next)
    requires k.phase.Idle? && !next.Join?
    ensures var k' := StartFlush(c, k, next);
            && InHand(k') == InHand(k) && Unacked(k') == [] && k'.w == k.w
            && k'.b.msgs + Joiner(k') == k.b.msgs + Joiner(k)
  {
    hide Resume;
    ResumeHand(c, k, next);
  }

  lemma PostHand(c: Config, k: Control, v: Verdict)
    requires k.phase.Posting?
    ensures var k', done := FinishPost(c, k, v), if v.Transient? then [] else k.b.msgs;
            && done + (k'.b.msgs + Joiner(k')) == InHand(k) == k.b.msgs + Joiner(k)
            && Unacked(k') == (if v.Accepted? then k.b.msgs else [])
            && k'.w.reg == k.w.reg && k'.w.settled == k.w.settled + done
            && k'.w.accepted == k.w.accepted + (if v.Accepted? then k.b.msgs else [])
            && k'.w.refused == k.w.refused + (if v.Refused? then k.b.msgs else [])
  {
    hide Resume;
    var w, lates := k.w.(posted := k.w.posted + [k.b.msgs]), k.lates + [k.late];
    var wr := w.(refused := w.refused + k.b.msgs, settled := w.settled + k.b.msgs);
    ResumeHand(c, k.(b := k.b.(stuck := true), w := w, lates := lates), k.phase.next);
    ResumeHand(c, k.(b := NO_BATCH, w := wr, late := false, lates := lates), k.phase.next);
  }

  lemma AckHand(c: Config, k: Control)
    requires k.phase.Acking? && k.phase.todo != []
    ensures var k', todo := AckNext(c, k), k.phase.todo;
            && [todo[0]] + InHand(k') == InHand(k) && Unacked(k') == todo[1..]
            && k'.b.msgs + Joiner(k') == k.b.msgs + Joiner(k)
            && k'.w == k.w.(reg := Ack(k.w.reg, todo[0]))
  {
    hide Resume, Ack;
    var todo := k.phase.todo;
    var k1 := k.(w := k.w.(reg := Ack(k.w.reg, todo[0])));
    ResumeHand(c, k1, k.phase.next);
    assert todo == [todo[0]] + todo[1..];
    Associates([todo[0]], todo[1..], k.b.msgs + Joiner(k));
    if |todo| == 1 {
      assert todo[1..] == [];
    }
  }

  // ---- together they are the program's flush and receive ----

  /** Acknowledge until nothing is left to acknowledge. */
  function AckRest(c: Config, k: Control): Control
    decreases |Unacked(k)|
  {
    if Unacked(k) == [] then k
    else
      AckHand(c, k);
      AckRest(c, AckNext(c, k))
  }

  lemma {:induction false} AckAllFirst(r: Reg, ms: seq<Message>)
    requires ms != []
    ensures AckAll(r, ms) == AckAll(Ack(r, ms[0]), ms[1..])
  {
    hide Ack;
    if |ms| == 1 {
      assert ms[..0] == [] && ms[1..] == [];
    } else {
      var front := ms[..|ms| - 1];
      AckAllFirst(r, front);
      assert front[1..] == ms[1..][..|ms| - 2];
    }
  }

  lemma {:induction false} AckRestIs(c: Config, k: Control)
    requires k.phase.Acking? && k.phase.todo != []
    ensures AckRest(c, k) == Resume(c, k.(w := k.w.(reg := AckAll(k.w.reg, k.phase.todo))), k.phase.next)
    decreases |k.phase.todo|
  {
    hide Resume, Ack;
    var todo := k.phase.todo;
    AckAllFirst(k.w.reg, todo);
    AckHand(c, k);
    if |todo| == 1 {
      assert todo[1..] == [];
    } else {
      AckRestIs(c, AckNext(c, k));
      var k1 := k.(w := k.w.(reg := AckAll(k.w.reg, todo)));
      ResumeForgets(c, k1, k1.(phase := Acking(todo[1..], k.phase.next)), k.phase.next);
    }
  }

  /** What comes after a flush does not depend on the phase it ends in. */
  lemma ResumeForgets(c: Config, k: Control, l: Control, next: Next)
    requires k == l.(phase := k.phase)
    ensures Resume(c, k, next) == Resume(c, l, next)
  {
  }

  /** A post and all its acknowledgements are one flush. */
  lemma PostIsFlush(c: Config, k: Control, v: Verdict)
    requires k.phase.Posting? && k.b.msgs != []
    ensures var (b, w) := FlushBatch(k.b, k.w, v);
            var late := if v.Transient? then k.late else false;
            AckRest(c, FinishPost(c, k, v)) ==
            Resume(c, Control(b, Idle, w, late, k.lates + [k.late]), k.phase.next)
  {
    hide Resume, AckAll;
    var (b, w) := FlushBatch(k.b, k.w, v);
    var next, end := k.phase.next, Control(b, Idle, w, if v.Transient? then k.late else false, k.lates + [k.late]);
    ResumeHand(c, end, next);
    ResumeForgets(c, end.(phase := k.phase), end, next);
    if v.Accepted? {
      var k1 := FinishPost(c, k, v);
      AckRestIs(c, k1);
      ResumeForgets(c, end.(phase := k1.phase), end, next);
    } else {
      ResumeHand(c, end.(phase := k.phase), next);
    }
  }

  /** A receive with the verdicts of the posts it may cause. */
  function ReceiveAll(c: Config, k: Control, m: Message, v1: Verdict, v2: Verdict): Control
  {
    var k1 := StartReceive(c, k, m);
    var k2 := if k1.phase.Posting? && k1.phase.next.Join? then AckRest(c, FinishPost(c, k1, v1)) else k1;
    if k2.phase.Posting? then AckRest(c, FinishPost(c, k2, v2)) else k2
  }

  /** The small steps of a receive, driven to the end, are the program's receive. */
  lemma StepsAreReceive(c: Config, k: Control, m: Message, v1: Verdict, v2: Verdict)
    requires k.phase.Idle?
    ensures var (b, w) := ReceiveSpec(c, k.b, k.w, m, v1, v2);
            var k' := ReceiveAll(c, k, m, v1, v2);
            k'.b == b && k'.w == w && k'.phase.Idle?
  {
    hide FlushBatch, Tagged, Push, FinishPost, AckRest;
    var k1, t := StartReceive(c, k, m), Tagged(c, m);
    var full := |k.b.msgs| > 0 && k.b.bytes + |t.content| > c.maxBytes;
    if full {
      PostIsFlush(c, k1, v1);
    }
    var k2 := if full then AckRest(c, FinishPost(c, k1, v1)) else k1;
    if k2.phase.Posting? {
      PushNotEmpty(if full then FlushBatch(k.b, k.w, v1).0 else k.b, t);
      PostIsFlush(c, k2, v2);
    }
  }

  lemma PushNotEmpty(b: Batch, m: Message)
    ensures Push(b, m).msgs != []
  {
  }

  // ---- bounds ----

  /** The bounds of what is being posted, and of a batch a message waits for. */
  ghost predicate ControlBounded(c: Config, k: Control)
  {
    match k.phase
    case Posting(next) =>
      && k.b.bytes == Bytes(k.b.msgs) && PostBounded(c, k.b.msgs)
      && (next.Join? ==>
            && Within(c, k.b.msgs) && |k.b.msgs| < c.maxSize && !k.b.stuck
            && k.b.bytes + |next.m.content| > c.maxBytes)
    case Acking(_, _) => k.b == NO_BATCH
    case _ => Bounded(c, k.b)
  }

  ghost predicate Oversized(c: Config, ms: seq<Message>)
  {
    |ms| >= 2 && Bytes(ms) > c.maxBytes
  }

  /** A batch of several messages is over the byte limit exactly when its last one joined after
      a post at the limit had failed; and so was every batch posted. */
  ghost predicate LateIsOversized(c: Config, k: Control)
  {
    && (k.late <==> Oversized(c, k.b.msgs))
    && |k.lates| == |k.w.posted|
    && forall i | 0 <= i < |k.lates| :: k.lates[i] <==> Oversized(c, k.w.posted[i])
  }

  ghost predicate AllBounded(c: Config, k: Control)
  {
    AllPostsBounded(c, k.w) && ControlBounded(c, k) && LateIsOversized(c, k)
  }

  /** A message may join a batch within bounds, unless that is not stuck and has no room. */
  ghost predicate Joinable(c: Config, k: Control, m: Message)
  {
    && k.b.bytes == Bytes(k.b.msgs) && Within(c, k.b.msgs) && |k.b.msgs| < c.maxSize
    && (if k.b.stuck then k.b.msgs != [] && k.b.bytes + |m.content| > c.maxBytes
        else k.b.msgs == [] || k.b.bytes + |m.content| <= c.maxBytes)
  }

  lemma JoinBounds(c: Config, k: Control, m: Message)
    requires Joinable(c, k, m) && AllPostsBounded(c, k.w)
    requires |k.lates| == |k.w.posted| && forall i | 0 <= i < |k.lates| :: k.lates[i] <==> Oversized(c, k.w.posted[i])
    ensures AllBounded(c, Resume(c, k, Join(m)))
  {
    hide AllPostsBounded;
    PushKeepsBounds(c, k.b, m);
    BytesSnoc(k.b.msgs, m);
  }

  lemma ReceiveBounds(c: Config, k: Control, m: Message)
    requires c.maxSize >= 1 && k.phase.Idle? && !k.b.stuck && AllBounded(c, k)
    ensures AllBounded(c, StartReceive(c, k, m))
  {
    var t := Tagged(c, m);
    if |k.b.msgs| > 0 && k.b.bytes + |t.content| > c.maxBytes {
    } else {
      JoinBounds(c, k, t);
    }
    hide Resume, Within, AllPostsBounded;
  }

  lemma FlushBounds(c: Config, k: Control, next: Next)
    requires c.maxSize >= 1 && k.phase.Idle? && !next.Join? && AllBounded(c, k)
    ensures AllBounded(c, StartFlush(c, k, next))
  {
    hide Within, AllPostsBounded, Oversized;
  }

  /** Resuming with what a post has left. */
  lemma AfterPostBounds(c: Config, k: Control, next: Next)
    requires c.maxSize >= 1 && AllPostsBounded(c, k.w) && LateIsOversized(c, k)
    requires if next.Join? then Joinable(c, k, next.m) else Bounded(c, k.b)
    ensures AllBounded(c, Resume(c, k, next))
  {
    if next.Join? {
      JoinBounds(c, k, next.m);
    }
    hide Within, AllPostsBounded, Oversized;
  }

  lemma PostBounds(c: Config, k: Control, v: Verdict)
    requires c.maxSize >= 1 && k.phase.Posting? && AllBounded(c, k)
    ensures AllBounded(c, FinishPost(c, k, v))
  {
    EmptyIsWithin(c);
    var w, lates, next := k.w.(posted := k.w.posted + [k.b.msgs]), k.lates + [k.late], k.phase.next;
    OneMorePosted(c, k.w, w, k.b.msgs);
    match v {
      case Transient =>
        AfterPostBounds(c, k.(b := k.b.(stuck := true), w := w, lates := lates), next);
      case Refused =>
        var wr := w.(refused := w.refused + k.b.msgs, settled := w.settled + k.b.msgs);
        OneMorePosted(c, k.w, wr, k.b.msgs);
        AfterPostBounds(c, k.(b := NO_BATCH, w := wr, late := false, lates := lates), next);
      case Accepted =>
    }
    hide Within, Resume;
  }

  lemma OneMorePosted(c: Config, w: World, w': World, ms: seq<Message>)
    requires AllPostsBounded(c, w) && PostBounded(c, ms) && w'.posted == w.posted + [ms]
    ensures AllPostsBounded(c, w')
  {
    hide PostBounded;
  }

  lemma AckBounds(c: Config, k: Control)
    requires c.maxSize >= 1 && k.phase.Acking? && k.phase.todo != [] && AllBounded(c, k)
    ensures AllBounded(c, AckNext(c, k))
  {
    EmptyIsWithin(c);
    var k1 := k.(w := k.w.(reg := Ack(k.w.reg, k.phase.todo[0])));
    AfterPostBounds(c, k1, k.phase.next);
    hide Within, Resume, Oversized;
  }
}
