/**
 The batcher: messages are taken off one channel in order, posted in bounded batches, and a
 batch the intake has not settled is kept and retried.
 */
module Batcher {
  import opened Basics
  import opened Messages
  import opened Registry
  import opened Intake

  datatype Config = Config(maxSize: int, maxBytes: int, globalTags: seq<string>)

  datatype Batch = Batch(msgs: seq<Message>, bytes: int, stuck: bool)

  const NO_BATCH := Batch([], 0, false)

  /** What posting affects: the registry, what the intake accepted or refused since the
      beginning, and what this process settled and posted. */
  datatype World = World(reg: Reg, accepted: seq<Message>, refused: seq<Message>,
                         settled: seq<Message>, posted: seq<seq<Message>>)

  function Tagged(c: Config, m: Message): Message { m.(tags := m.tags + c.globalTags) }

  function TagAll(c: Config, ms: seq<Message>): (r: seq<Message>)
    ensures |r| == |ms| && forall i | 0 <= i < |ms| :: r[i] == Tagged(c, ms[i])
  {
    seq(|ms|, i requires 0 <= i < |ms| => Tagged(c, ms[i]))
  }

  function Ack(r: Reg, m: Message): Reg
  {
    if m.cursor != "" then CursorAdvanced(r, m.id, m.cursor) else Advanced(r, m.id, m.offset)
  }

  function AckAll(r: Reg, ms: seq<Message>): Reg
  {
    if ms == [] then r else Ack(AckAll(r, ms[..|ms| - 1]), ms[|ms| - 1])
  }

  function Settle(w: World, ms: seq<Message>, v: Verdict): World
  {
    var w := w.(posted := w.posted + [ms]);
    match v
    case Accepted => w.(reg := AckAll(w.reg, ms), accepted := w.accepted + ms, settled := w.settled + ms)
    case Refused => w.(refused := w.refused + ms, settled := w.settled + ms)
    case Transient => w
  }

  function FlushBatch(b: Batch, w: World, v: Verdict): (Batch, World)
  {
    if b.msgs == [] then (b, w)
    else (if v.Transient? then b.(stuck := true) else NO_BATCH, Settle(w, b.msgs, v))
  }

  function Push(b: Batch, m: Message): Batch
  {
    b.(msgs := b.msgs + [m], bytes := b.bytes + |m.content|)
  }

  /** Taking one message off the channel; `v1` and `v2` are the verdicts of the two posts
      it may cause. */
  function ReceiveSpec(c: Config, b: Batch, w: World, m: Message, v1: Verdict, v2: Verdict): (Batch, World)
  {
    var m := Tagged(c, m);
    var (b1, w1) := if |b.msgs| > 0 && b.bytes + |m.content| > c.maxBytes then FlushBatch(b, w, v1) else (b, w);
    var b2 := Push(b1, m);
    if |b2.msgs| >= c.maxSize then FlushBatch(b2, w1, v2) else (b2, w1)
  }

  // ---- batch bounds ----

  function Bytes(ms: seq<Message>): nat
  {
    if ms == [] then 0 else Bytes(ms[..|ms| - 1]) + |ms[|ms| - 1].content|
  }

  lemma BytesSnoc(ms: seq<Message>, m: Message)
    ensures Bytes(ms + [m]) == Bytes(ms) + |m.content|
  {
    assert (ms + [m])[..|ms|] == ms;
  }

  ghost predicate Within(c: Config, ms: seq<Message>)
  {
    |ms| <= 1 || Bytes(ms) <= c.maxBytes
  }

  /** The bounds of a batch between two channel reads. */
  ghost predicate Bounded(c: Config, b: Batch)
  {
    && b.bytes == Bytes(b.msgs)
    && |b.msgs| <= c.maxSize
    && (!b.stuck ==> Within(c, b.msgs) && |b.msgs| < c.maxSize)
    && (b.stuck ==> b.msgs != [])
    && (b.msgs != [] ==> Within(c, b.msgs[..|b.msgs| - 1]))
  }

  /** The bounds of a payload: never over the message count, and within the byte cap but
      for its last message. */
  ghost predicate PostBounded(c: Config, ms: seq<Message>)
  {
    0 < |ms| <= c.maxSize && Within(c, ms[..|ms| - 1])
  }

  ghost predicate AllPostsBounded(c: Config, w: World)
  {
    forall i | 0 <= i < |w.posted| :: PostBounded(c, w.posted[i])
  }

  lemma FlushKeepsBounds(c: Config, b: Batch, w: World, v: Verdict)
    requires c.maxSize >= 1 && AllPostsBounded(c, w)
    requires b.bytes == Bytes(b.msgs) && |b.msgs| <= c.maxSize && (b.stuck ==> b.msgs != [])
    requires b.msgs != [] ==> Within(c, b.msgs[..|b.msgs| - 1])
    ensures var (b', w') := FlushBatch(b, w, v);
            && AllPostsBounded(c, w') && (b.msgs != [] ==> Bounded(c, b'))
  {
  }

  /** Appending to a batch within bounds leaves one that may exceed the byte cap by its
      last message only. */
  lemma PushKeepsBounds(c: Config, b: Batch, m: Message)
    requires b.bytes == Bytes(b.msgs) && |b.msgs| < c.maxSize && Within(c, b.msgs)
    ensures var b' := Push(b, m);
            && b'.bytes == Bytes(b'.msgs) && b'.msgs != [] && |b'.msgs| <= c.maxSize
            && Within(c, b'.msgs[..|b'.msgs| - 1])
            && (b.msgs == [] || b.bytes + |m.content| <= c.maxBytes ==> Within(c, b'.msgs))
  {
    BytesSnoc(b.msgs, m);
    assert (b.msgs + [m])[..|b.msgs|] == b.msgs;
  }

  /** The batch a message is about to join: still within bounds, and stuck unless the
      message fits. */
  ghost predicate Ready(c: Config, b: Batch, m: Message)
  {
    && b.bytes == Bytes(b.msgs) && |b.msgs| < c.maxSize && Within(c, b.msgs)
    && (b.stuck || b.msgs == [] || b.bytes + |m.content| <= c.maxBytes)
  }

  lemma MakeRoom(c: Config, b: Batch, w: World, m: Message, v: Verdict)
    requires c.maxSize >= 1 && Bounded(c, b) && !b.stuck && AllPostsBounded(c, w)
    ensures var (b', w') := if |b.msgs| > 0 && b.bytes + |m.content| > c.maxBytes
                            then FlushBatch(b, w, v) else (b, w);
            Ready(c, b', m) && AllPostsBounded(c, w')
  {
    FlushKeepsBounds(c, b, w, v);
    EmptyIsWithin(c);
  }

  lemma JoinBatch(c: Config, b: Batch, w: World, m: Message, v: Verdict)
    requires c.maxSize >= 1 && Ready(c, b, m) && AllPostsBounded(c, w)
    ensures var b' := Push(b, m);
            var (b'', w'') := if |b'.msgs| >= c.maxSize then FlushBatch(b', w, v) else (b', w);
            Bounded(c, b'') && AllPostsBounded(c, w'')
  {
    hide Within, PostBounded, Bytes, Settle;
    PushKeepsBounds(c, b, m);
    FlushKeepsBounds(c, Push(b, m), w, v);
  }

  lemma ReceiveKeepsBounds(c: Config, b: Batch, w: World, m: Message, v1: Verdict, v2: Verdict)
    requires c.maxSize >= 1 && Bounded(c, b) && !b.stuck && AllPostsBounded(c, w)
    ensures var (b', w') := ReceiveSpec(c, b, w, m, v1, v2);
            Bounded(c, b') && AllPostsBounded(c, w')
  {
    hide Bounded, Ready, AllPostsBounded, Push, FlushBatch;
    var m := Tagged(c, m);
    var (b1, w1) := if |b.msgs| > 0 && b.bytes + |m.content| > c.maxBytes then FlushBatch(b, w, v1) else (b, w);
    MakeRoom(c, b, w, m, v1);
    JoinBatch(c, b1, w1, m, v2);
  }

  lemma EmptyIsWithin(c: Config)
    ensures Within(c, []) && Bytes([]) == 0
  {
  }

  // ---- conservation ----

  lemma FlushConserves(b: Batch, w: World, v: Verdict)
    ensures var (b', w') := FlushBatch(b, w, v);
            w'.settled + b'.msgs == w.settled + b.msgs
  {
  }

  lemma ReceiveConserves(c: Config, b: Batch, w: World, m: Message, v1: Verdict, v2: Verdict)
    ensures var (b', w') := ReceiveSpec(c, b, w, m, v1, v2);
            w'.settled + b'.msgs == w.settled + b.msgs + [Tagged(c, m)]
  {
    hide FlushBatch, Tagged;
    var m := Tagged(c, m);
    var (b1, w1) := if |b.msgs| > 0 && b.bytes + |m.content| > c.maxBytes then FlushBatch(b, w, v1) else (b, w);
    FlushConserves(b, w, v1);
    var b2 := Push(b1, m);
    assert w1.settled + b2.msgs == (w1.settled + b1.msgs) + [m];
    FlushConserves(b2, w1, v2);
  }

  // ---- the loop ----

  /** What happens next: the loop reads, ticks or sees the cancellation, or a producer sends a
      message or closes the channel. A choice that is not enabled (reading while stuck, or an
      empty open channel) is a wait. */
  datatype Choice = Recv(v1: Verdict, v2: Verdict) | Tick(v: Verdict) | Done | Arrive(m: Message) | Close

  datatype Loop = Loop(b: Batch, w: World, inbox: seq<Message>, closed: bool, ended: bool)

  function LoopStep(c: Config, s: Loop, choice: Choice): Loop
  {
    match choice
    case Arrive(m) => if s.closed then s else s.(inbox := s.inbox + [m])
    case Close => s.(closed := true)
    case Tick(v) =>
      if s.ended then s
      else
        var (b, w) := FlushBatch(s.b, s.w, v);
        s.(b := b, w := w)
    case Done => if !s.ended && s.b.stuck then s.(ended := true) else s
    case Recv(v1, v2) =>
      if s.ended || s.b.stuck then s
      else if s.inbox != [] then
        var (b, w) := ReceiveSpec(c, s.b, s.w, s.inbox[0], v1, v2);
        s.(b := b, w := w, inbox := s.inbox[1..])
      else if s.closed then
        var (b, w) := FlushBatch(s.b, s.w, v1);
        s.(b := b, w := w, ended := true)
      else s
  }

  function LoopRun(c: Config, s: Loop, choices: seq<Choice>): Loop
  {
    if choices == [] then s
    else LoopStep(c, LoopRun(c, s, choices[..|choices| - 1]), choices[|choices| - 1])
  }

  /** The messages producers put in the channel, in order: those sent before it is closed. */
  function Arrivals(closed: bool, choices: seq<Choice>): seq<Message>
  {
    if choices == [] || closed then []
    else
      var before := Arrivals(closed, choices[..|choices| - 1]);
      var last := choices[|choices| - 1];
      if last.Arrive? && Close !in choices then before + [last.m] else before
  }

  ghost predicate LoopOk(c: Config, s: Loop)
  {
    && AllPostsBounded(c, s.w)
    && (!s.ended ==> Bounded(c, s.b))
  }

  /** Every message read so far, settled or held, then those still in the channel. */
  function Everything(c: Config, s: Loop): seq<Message>
  {
    s.w.settled + s.b.msgs + TagAll(c, s.inbox)
  }

  lemma {:induction false} LoopCloses(c: Config, s: Loop, choices: seq<Choice>)
    ensures LoopRun(c, s, choices).closed <==> s.closed || Close in choices
  {
    hide FlushBatch, ReceiveSpec;
    if choices == [] {
    } else {
      var before, last := choices[..|choices| - 1], choices[|choices| - 1];
      LoopCloses(c, s, before);
      assert choices == before + [last];
    }
  }

  /** Nothing is lost, duplicated or reordered, and every batch stays within its bounds, in
      every run of the loop: what was there and what arrived is settled, held or in the channel,
      in that order. */
  lemma {:induction false} LoopKeeps(c: Config, s: Loop, choices: seq<Choice>)
    requires c.maxSize >= 1 && LoopOk(c, s)
    ensures LoopOk(c, LoopRun(c, s, choices))
    ensures Everything(c, LoopRun(c, s, choices)) == Everything(c, s) + TagAll(c, Arrivals(s.closed, choices))
  {
    hide LoopOk, LoopStep, Everything;
    if choices == [] {
      assert Everything(c, s) + [] == Everything(c, s);
    } else {
      var before, choice := choices[..|choices| - 1], choices[|choices| - 1];
      var t := LoopRun(c, s, before);
      LoopKeeps(c, s, before);
      LoopCloses(c, s, before);
      LoopStepBounds(c, t, choice);
      LoopStepConserves(c, t, choice);
      ArrivalsStep(c, s.closed, before, choice, Everything(c, s));
      assert choices == before + [choice];
    }
  }

  lemma ArrivalsStep(c: Config, closed: bool, before: seq<Choice>, choice: Choice, held: seq<Message>)
    ensures var more := if choice.Arrive? && !closed && Close !in before then [Tagged(c, choice.m)] else [];
            held + TagAll(c, Arrivals(closed, before + [choice])) == (held + TagAll(c, Arrivals(closed, before))) + more
  {
    hide Tagged;
    assert (before + [choice])[..|before|] == before;
    if closed {
      assert TagAll(c, []) == [];
    } else {
      ArrivalsLast(before, choice);
      var a := Arrivals(closed, before);
      if choice.Arrive? && Close !in before {
        assert TagAll(c, a + [choice.m]) == TagAll(c, a) + [Tagged(c, choice.m)];
      }
    }
  }

  lemma ArrivalsLast(before: seq<Choice>, choice: Choice)
    ensures Arrivals(false, before + [choice]) ==
            if choice.Arrive? && Close !in before then Arrivals(false, before) + [choice.m] else Arrivals(false, before)
  {
    assert (before + [choice])[..|before|] == before;
  }

  lemma LoopStepBounds(c: Config, s: Loop, choice: Choice)
    requires c.maxSize >= 1 && LoopOk(c, s)
    ensures LoopOk(c, LoopStep(c, s, choice))
  {
    hide PostBounded, Within, Settle, ReceiveSpec;
    if !s.ended {
      match choice {
        case Tick(v) =>
          FlushKeepsBounds(c, s.b, s.w, v);
        case Recv(v1, v2) =>
          FlushKeepsBounds(c, s.b, s.w, v1);
          if !s.b.stuck && s.inbox != [] {
            ReceiveKeepsBounds(c, s.b, s.w, s.inbox[0], v1, v2);
          }
        case _ =>
      }
    }
  }

  lemma LoopStepConserves(c: Config, s: Loop, choice: Choice)
    ensures Everything(c, LoopStep(c, s, choice)) ==
            Everything(c, s) + if choice.Arrive? && !s.closed then [Tagged(c, choice.m)] else []
  {
    assert Everything(c, s) + [] == Everything(c, s);
    match choice {
      case Tick(v) =>
        FlushConserves(s.b, s.w, v);
      case Recv(v1, v2) =>
        RecvConserves(c, s, v1, v2);
      case Arrive(m) =>
        assert TagAll(c, s.inbox + [m]) == TagAll(c, s.inbox) + [Tagged(c, m)];
      case _ =>
    }
    hide FlushBatch, ReceiveSpec, Tagged, TagAll;
  }

  lemma RecvConserves(c: Config, s: Loop, v1: Verdict, v2: Verdict)
    ensures Everything(c, LoopStep(c, s, Recv(v1, v2))) == Everything(c, s)
  {
    hide FlushBatch, ReceiveSpec, Tagged;
    FlushConserves(s.b, s.w, v1);
    if s.inbox != [] {
      ReceiveConserves(c, s.b, s.w, s.inbox[0], v1, v2);
      TagFirst(c, s.inbox);
      var (b, w) := ReceiveSpec(c, s.b, s.w, s.inbox[0], v1, v2);
      hide TagAll;
      OneOver(w.settled + b.msgs, s.w.settled + s.b.msgs, Tagged(c, s.inbox[0]), TagAll(c, s.inbox[1..]));
    }
  }

  lemma TagFirst(c: Config, ms: seq<Message>)
    requires ms != []
    ensures TagAll(c, ms) == [Tagged(c, ms[0])] + TagAll(c, ms[1..])
  {
  }

  lemma OneOver<T>(x: seq<T>, held: seq<T>, m: T, rest: seq<T>)
    requires x == held + [m]
    ensures x + rest == held + ([m] + rest)
  {
  }

  /** A scheduled select with the endpoints as they would answer each post. */
  datatype Turn =
    | RecvTurn(first: seq<Endpoint>, second: seq<Endpoint>)
    | TickTurn(eps: seq<Endpoint>)
    | DoneTurn
    | ArriveTurn(m: Message)
    | CloseTurn

  function ToChoice(maxTries: nat, t: Turn): Choice
  {
    match t
    case RecvTurn(first, second) => Recv(PostVerdict(maxTries, first), PostVerdict(maxTries, second))
    case TickTurn(eps) => Tick(PostVerdict(maxTries, eps))
    case DoneTurn => Done
    case ArriveTurn(m) => Arrive(m)
    case CloseTurn => Close
  }

  function ToChoices(maxTries: nat, turns: seq<Turn>): seq<Choice>
  {
    if turns == [] then []
    else ToChoices(maxTries, turns[..|turns| - 1]) + [ToChoice(maxTries, turns[|turns| - 1])]
  }

  class LogBatcher {
    const c: Config
    const client: Client
    const registry: Store
    var batch: seq<Message>
    var bytesAccum: int
    var stuck: bool
    var inbox: seq<Message>
    var closed: bool

    /** What the intake has seen; never read by the batcher. */
    ghost var accepted: seq<Message>
    ghost var refused: seq<Message>
    ghost var settled: seq<Message>
    ghost var posted: seq<seq<Message>>

    constructor (c: Config, client: Client, registry: Store, inbox: seq<Message>)
      ensures this.c == c && this.client == client && this.registry == registry && this.inbox == inbox
      ensures !closed && Held() == NO_BATCH && Seen() == World(registry.State(), [], [], [], [])
    {
      this.c, this.client, this.registry, this.inbox := c, client, registry, inbox;
      batch, bytesAccum, stuck, closed := [], 0, false, false;
      accepted, refused, settled, posted := [], [], [], [];
    }

    ghost function Held(): Batch
      reads this
    {
      Batch(batch, bytesAccum, stuck)
    }

    ghost function Seen(): World
      reads this, registry
    {
      World(registry.State(), accepted, refused, settled, posted)
    }

    /** Post the batch once and say whether it is settled. */
    method Send(eps: seq<Endpoint>) returns (done: bool)
      modifies registry, `accepted, `refused, `settled, `posted
      ensures var v := PostVerdict(client.maxTries, eps);
              && done == !v.Transient?
              && Seen() == Settle(old(Seen()), batch, v)
    {
      var status, ok, _ := client.PostAll(eps);
      posted := posted + [batch];
      if ok {
        ghost var r0 := registry.State();
        for i := 0 to |batch|
          modifies registry
          invariant registry.State() == AckAll(r0, batch[..i])
        {
          var m := batch[i];
          assert batch[..i + 1][..i] == batch[..i];
          if m.cursor != "" {
            registry.AdvanceCursor(m.id, m.cursor);
          } else {
            registry.Advance(m.id, m.offset);
          }
        }
        assert batch[..|batch|] == batch;
        accepted, settled := accepted + batch, settled + batch;
        return true;
      }
      if Permanent(status) {
        refused, settled := refused + batch, settled + batch;
        return true;
      }
      return false;
    }

    method Flush(eps: seq<Endpoint>)
      modifies this, registry
      ensures (Held(), Seen()) == FlushBatch(old(Held()), old(Seen()), PostVerdict(client.maxTries, eps))
      ensures inbox == old(inbox) && closed == old(closed)
    {
      if |batch| == 0 {
        return;
      }
      var done := Send(eps);
      stuck := !done;
      if !stuck {
        batch, bytesAccum := [], 0;
      }
    }

    method Receive(m: Message, first: seq<Endpoint>, second: seq<Endpoint>)
      requires !stuck
      modifies this, registry
      ensures (Held(), Seen()) ==
              ReceiveSpec(c, old(Held()), old(Seen()), m,
                          PostVerdict(client.maxTries, first), PostVerdict(client.maxTries, second))
      ensures inbox == old(inbox) && closed == old(closed)
    {
      var m := m.(tags := m.tags + c.globalTags);
      if |batch| > 0 && bytesAccum + |m.content| > c.maxBytes {
        Flush(first);
      }
      batch := batch + [m];
      bytesAccum := bytesAccum + |m.content|;
      if |batch| >= c.maxSize {
        Flush(second);
      }
    }

    ghost function LoopState(ended: bool): Loop
      reads this, registry
    {
      Loop(Held(), Seen(), inbox, closed, ended)
    }

    /** One turn of the loop, or of a producer. */
    method TakeTurn(turn: Turn, ended0: bool) returns (ended: bool)
      modifies this, registry
      ensures LoopState(ended) == LoopStep(c, old(LoopState(ended0)), ToChoice(client.maxTries, turn))
    {
      hide FlushBatch, ReceiveSpec, PostVerdict;
      ended := ended0;
      match turn {
        case ArriveTurn(m) =>
          if !closed {
            inbox := inbox + [m];
          }
        case CloseTurn =>
          closed := true;
        case TickTurn(eps) =>
          if !ended {
            Flush(eps);
          }
        case DoneTurn =>
          ended := ended || stuck;
        case RecvTurn(first, second) =>
          if !ended && !stuck {
            if |inbox| > 0 {
              var m := inbox[0];
              inbox := inbox[1..];
              Receive(m, first, second);
            } else if closed {
              Flush(first);
              ended := true;
            }
          }
      }
    }

    /** The loop, under any schedule of ticks, reads, arrivals, closing and cancellation. */
    method Run(turns: seq<Turn>) returns (ended: bool)
      modifies this, registry
      ensures LoopState(ended) == LoopRun(c, old(LoopState(false)), ToChoices(client.maxTries, turns))
    {
      hide LoopStep, Seen, Held, ToChoice;
      ended := false;
      ghost var start := LoopState(false);
      for i := 0 to |turns|
        invariant LoopState(ended) == LoopRun(c, start, ToChoices(client.maxTries, turns[..i]))
      {
        assert turns[..i + 1][..i] == turns[..i];
        ghost var so := ToChoices(client.maxTries, turns[..i]);
        assert (so + [ToChoice(client.maxTries, turns[i])])[..|so|] == so;
        ended := TakeTurn(turns[i], ended);
      }
      assert turns[..|turns|] == turns;
    }
  }
}
