/**
 The machine's small steps against the program's loop: cutting line after line, with each
 message taken by the channel before the next cut, is one `Emit`.
 */
module Refinement {
  import opened Basics
  import opened LineProcessor
  import opened Messages
  import opened FileTailer
  import opened Pipeline

  function BoxMessages(box: Outbox): seq<Message>
  {
    match box
    case Empty => []
    case Offering(m) => [m]
    case Blocked(m) => [m]
  }

  /** The tailer after its steps, and the messages the channel took meanwhile. */
  datatype Drive = Drive(t: Tail, sent: seq<Message>)

  function Taken(t: Tail): Drive
    requires t.Tailing?
  {
    Drive(t.(box := Empty), BoxMessages(t.box))
  }

  /** Steps `CutLine` and `CapLine`, each followed by `Enqueue`, until neither is enabled. */
  function DriveCuts(src: Source, id: string, t: Tail, now: int): (d: Drive)
    requires t.Tailing?
    decreases |t.partial|
  {
    if IndexLF(t.partial) < |t.partial| then
      var one := Taken(CutStep(src, id, t, now));
      var more := DriveCuts(src, id, one.t, now);
      Drive(more.t, one.sent + more.sent)
    else if |t.partial| > MAX_LINE_BYTES then Taken(CapStep(src, id, t, now))
    else Drive(t, [])
  }

  function OutSeq(out: Option<Out>): seq<Out> { if out.None? then [] else [out.value] }

  lemma ProcCallsFirst(r: Rules, p: Pending, c: Call, calls: seq<Call>, now: int)
    ensures var (q, out) := LineSpec(r, p, c.line, c.off, now);
            var (z, outs) := ProcCalls(r, q, calls, now);
            ProcCalls(r, p, [c] + calls, now) == (z, OutSeq(out) + outs)
  {
    hide LineSpec, ProcCalls;
    ProcCallsAppend(r, p, [c], calls, now);
    NoCalls(r, p, now);
    ProcCallsSnoc(r, p, [], c, now);
    assert [] + [c] == [c];
    var out := LineSpec(r, p, c.line, c.off, now).1;
    if out.Some? {
      assert [] + [out.value] == [out.value];
    }
  }

  lemma {:induction false} ToMessagesAppend(src: Source, id: string, a: seq<Out>, b: seq<Out>)
    ensures ToMessages(src, id, a + b) == ToMessages(src, id, a) + ToMessages(src, id, b)
  {
  }

  lemma BoxIsOut(src: Source, id: string, out: Option<Out>)
    ensures BoxMessages(BoxOf(src, id, out)) == ToMessages(src, id, OutSeq(out))
  {
  }

  /** The cap on what the line cuts left over. */
  function Capped(c: Cutting): Cutting
  {
    if |c.rest| > MAX_LINE_BYTES
      then Cutting(c.calls + [Call(c.rest, c.offset + |c.rest|)], c.offset + |c.rest|, []) else c
  }

  /** A pass with nothing new to read. */
  lemma EmitIs(agg: bool, offset: nat, partial: Text)
    ensures EmitCalls(agg, offset, partial, []) == Capped(Cut(agg, offset, partial))
  {
    hide Cut;
    assert partial + [] == partial;
  }

  lemma CappedCons(c: Call, d: Cutting)
    ensures Capped(Cutting([c] + d.calls, d.offset, d.rest)) ==
            Cutting([c] + Capped(d).calls, Capped(d).offset, Capped(d).rest)
  {
    var last := Call(d.rest, d.offset + |d.rest|);
    assert ([c] + d.calls) + [last] == [c] + (d.calls + [last]);
  }

  lemma CutOnce(agg: bool, offset: nat, partial: Text)
    requires IndexLF(partial) < |partial|
    ensures var i := IndexLF(partial);
            var d, line := Cut(agg, offset + i + 1, partial[i + 1..]), TrimCR(partial[..i]);
            Cut(agg, offset, partial) ==
            if line == [] && !agg then d else Cutting([Call(line, offset + i + 1)] + d.calls, d.offset, d.rest)
  {
    hide IndexLF, TrimCR, Cut;
    CutFirst(agg, offset, partial);
  }

  lemma EmitFirst(agg: bool, offset: nat, partial: Text)
    requires IndexLF(partial) < |partial|
    ensures var i := IndexLF(partial);
            var e, rest := EmitCalls(agg, offset, partial, []), EmitCalls(agg, offset + i + 1, partial[i + 1..], []);
            var line := TrimCR(partial[..i]);
            e == Cutting(if line == [] && !agg then rest.calls else [Call(line, offset + i + 1)] + rest.calls,
              rest.offset, rest.rest)
  {
    hide IndexLF, TrimCR, Cut, EmitCalls, Capped;
    var i := IndexLF(partial);
    CutOnce(agg, offset, partial);
    EmitIs(agg, offset, partial);
    EmitIs(agg, offset + i + 1, partial[i + 1..]);
    CappedCons(Call(TrimCR(partial[..i]), offset + i + 1), Cut(agg, offset + i + 1, partial[i + 1..]));
  }

  lemma EmitLast(agg: bool, offset: nat, partial: Text)
    requires IndexLF(partial) == |partial|
    ensures EmitCalls(agg, offset, partial, []) ==
            if |partial| > MAX_LINE_BYTES then Cutting([Call(partial, offset + |partial|)], offset + |partial|, [])
            else Cutting([], offset, partial)
  {
    hide IndexLF, TrimCR, Cut;
    CutFirst(agg, offset, partial);
    assert partial + [] == partial;
  }

  /** What one pass of `emit` leaves and sends. */
  ghost predicate IsEmit(src: Source, id: string, t: Tail, now: int, d: Drive)
    requires t.Tailing?
  {
    var e := EmitCalls(Aggregating(src.rules), t.offset, t.partial, []);
    var (p, outs) := ProcCalls(src.rules, t.pending, e.calls, now);
    d == Drive(Tailing(e.offset, e.rest, p, Empty), ToMessages(src, id, outs))
  }

  /** One cut before a pass is a pass. */
  lemma CutThenEmit(src: Source, id: string, t: Tail, now: int, d: Drive)
    requires t.Tailing? && IndexLF(t.partial) < |t.partial|
    requires var one := Taken(CutStep(src, id, t, now)); IsEmit(src, id, one.t, now, d)
    ensures var one := Taken(CutStep(src, id, t, now)); IsEmit(src, id, t, now, Drive(d.t, one.sent + d.sent))
  {
    hide LineSpec, TrimCR, ProcCalls, ToMessages, IndexLF, EmitCalls, BoxOf;
    var agg, i, one := Aggregating(src.rules), IndexLF(t.partial), Taken(CutStep(src, id, t, now));
    EmitFirst(agg, t.offset, t.partial);
    var line, calls := TrimCR(t.partial[..i]), EmitCalls(agg, one.t.offset, one.t.partial, []).calls;
    if line == [] && !agg {
      assert one.sent + d.sent == d.sent;
    } else {
      ProcCallsFirst(src.rules, t.pending, Call(line, t.offset + i + 1), calls, now);
      var out := LineSpec(src.rules, t.pending, line, t.offset + i + 1, now).1;
      BoxIsOut(src, id, out);
      ToMessagesAppend(src, id, OutSeq(out), ProcCalls(src.rules, one.t.pending, calls, now).1);
    }
  }

  lemma CapIsEmit(src: Source, id: string, t: Tail, now: int)
    requires t.Tailing? && IndexLF(t.partial) == |t.partial| > MAX_LINE_BYTES
    ensures IsEmit(src, id, t, now, Taken(CapStep(src, id, t, now)))
  {
    hide LineSpec, ProcCalls, ToMessages, IndexLF, EmitCalls, BoxOf;
    EmitLast(Aggregating(src.rules), t.offset, t.partial);
    var c := Call(t.partial, t.offset + |t.partial|);
    ProcCallsFirst(src.rules, t.pending, c, [], now);
    assert [c] + [] == [c];
    var (q, out) := LineSpec(src.rules, t.pending, c.line, c.off, now);
    NoCalls(src.rules, q, now);
    assert OutSeq(out) + [] == OutSeq(out);
    BoxIsOut(src, id, out);
  }

  /** Driving the small steps to quiescence is one pass of `emit`: the same offset, the same
      partial line, the same pending lines, the same messages in the same order. */
  lemma {:induction false} StepsAreEmit(src: Source, id: string, t: Tail, now: int)
    requires t.Tailing? && t.box.Empty?
    ensures var d := DriveCuts(src, id, t, now);
            IsEmit(src, id, t, now, d) && Quiet(d.t)
    decreases |t.partial|
  {
    hide LineSpec, ProcCalls, ToMessages, IndexLF, EmitCalls, CapStep;
    if IndexLF(t.partial) < |t.partial| {
      var one := Taken(CutStep(src, id, t, now));
      StepsAreEmit(src, id, one.t, now);
      hide CutStep, IsEmit;
      CutThenEmit(src, id, t, now, DriveCuts(src, id, one.t, now));
    } else if |t.partial| > MAX_LINE_BYTES {
      CapIsEmit(src, id, t, now);
      EmitLast(Aggregating(src.rules), t.offset, t.partial);
      EmptyIsQuiet();
    } else {
      EmitLast(Aggregating(src.rules), t.offset, t.partial);
      NoCalls(src.rules, t.pending, now);
      NoMessages(src, id);
    }
  }

  lemma NoMessages(src: Source, id: string)
    ensures ToMessages(src, id, []) == []
  {
  }

  lemma EmptyIsQuiet()
    ensures IndexLF([]) == 0
  {
  }
}
