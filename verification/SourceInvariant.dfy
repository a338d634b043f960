/**
 What the pipeline state says about one file source, and the transitions of that view: the
 invariant behind at-least-once delivery, kept by each of them.
 */
module SourceInvariant {
  import opened Basics
  import opened Decimal
  import opened LineProcessor
  import opened Messages
  import opened FileTailer
  import opened Coverage
  import opened Pipeline

  /** The file, the positions on disk, in a snapshot being written and in memory, the
      tailer, the messages in the batch and the channel, and the history of messages ever
      settled and of messages dropped by the rules. */
  datatype View = View(f: Text, disk: Option<int>, snap: Option<Option<int>>, up: bool,
                       reg: Option<int>, tail: Option<Tail>, flight: seq<Out>, h: set<Fate>)

  function BoxOut(t: Tail): seq<Out>
  {
    if t.Tailing? && !t.box.Empty? then [Out(t.box.m.content, t.box.m.offset)] else []
  }

  /** `flight` and then the message the tailer is sending. */
  function Outs(v: View): seq<Out>
  {
    v.flight + if v.tail.Some? then BoxOut(v.tail.value) else []
  }

  ghost predicate Marked(r: Rules, v: View, o: nat, mark: Option<int>)
  {
    mark.Some? ==> Reached(r, v.f, v.h, o, mark.value)
  }

  ghost predicate Leq(a: Option<int>, b: Option<int>)
  {
    a.Some? ==> b.Some? && a.value <= b.value
  }

  /** No message in flight is behind `mark`. */
  ghost predicate Ahead(mark: Option<int>, outs: seq<Out>)
  {
    mark.Some? ==> forall k | 0 <= k < |outs| :: mark.value <= outs[k].off
  }

  /** The unread line is the file's, and everything before the front is settled, in flight,
      or held back by the processor. */
  ghost predicate Front(r: Rules, v: View, o: nat, offset: nat, partial: Text, p: Pending)
  {
    && offset + |partial| <= |v.f| && partial == v.f[offset..offset + |partial|]
    && exists z: nat, calls: seq<Call> ::
         && FrontAt(r, v.f, v.h + Elems(Outs(v)), o, z, calls, offset, p)
         && Beyond(z, v.reg, Outs(v))
  }

  ghost predicate Beyond(z: nat, reg: Option<int>, outs: seq<Out>)
  {
    && (reg.Some? ==> reg.value <= z)
    && (forall k | 0 <= k < |outs| :: outs[k].off <= z)
  }

  ghost predicate TailOk(r: Rules, v: View, o: nat)
  {
    match v.tail
    case None => v.flight == []
    case Some(Waiting(start)) => v.flight == [] && start == v.reg
    case Some(Tailing(offset, partial, p, box)) => Front(r, v, o, offset, partial, p)
    case Some(Stopped) => true
  }

  ghost predicate Session(r: Rules, v: View, o: nat)
  {
    && Marked(r, v, o, v.reg) && Leq(v.disk, v.reg)
    && (v.snap.Some? ==> Marked(r, v, o, v.snap.value) && Leq(v.disk, v.snap.value) && Leq(v.snap.value, v.reg))
    && Ladder(r, v.f, v.h, o, Outs(v)) && Ahead(v.reg, Outs(v))
    && TailOk(r, v, o)
  }

  /** The invariant for one source, from position `o` on. */
  ghost predicate SourceOk(r: Rules, v: View, o: nat)
  {
    && Marked(r, v, o, v.disk)
    && (v.up ==> Session(r, v, o))
  }

  // ---- the file grows ----

  lemma MarkedGrows(r: Rules, v: View, o: nat, mark: Option<int>, more: Text)
    requires Marked(r, v, o, mark)
    ensures Marked(r, v.(f := v.f + more), o, mark)
  {
    if mark.Some? {
      ReachedMore(r, v.f, more, v.h, v.h, o, mark.value);
    }
  }

  lemma FrontGrows(r: Rules, v: View, o: nat, offset: nat, partial: Text, p: Pending, more: Text)
    requires Front(r, v, o, offset, partial, p)
    ensures Front(r, v.(f := v.f + more), o, offset, partial, p)
  {
    hide FrontAt, Beyond, Elems;
    var h := v.h + Elems(Outs(v));
    var z: nat, calls: seq<Call> :| FrontAt(r, v.f, h, o, z, calls, offset, p) && Beyond(z, v.reg, Outs(v));
    FrontAtGrows(r, v.f, more, h, o, z, calls, offset, p);
    assert (v.f + more)[offset..offset + |partial|] == v.f[offset..offset + |partial|];
    assert Outs(v.(f := v.f + more)) == Outs(v);
  }

  lemma FrontAtGrows(r: Rules, f: Text, more: Text, h: set<Fate>, o: nat, z: nat, calls: seq<Call>,
                     offset: nat, p: Pending)
    requires FrontAt(r, f, h, o, z, calls, offset, p)
    ensures FrontAt(r, f + more, h, o, z, calls, offset, p)
  {
    ReachedMore(r, f, more, h, h, o, z);
    PiecesGrow(f, more, z, calls);
    hide Reached, Pieces, Holding;
  }

  lemma GrowKeeps(r: Rules, v: View, o: nat, more: Text)
    requires SourceOk(r, v, o)
    ensures SourceOk(r, v.(f := v.f + more), o)
  {
    hide Front, Ladder, Reached, Marked;
    MarkedGrows(r, v, o, v.disk, more);
    if v.up {
      MarkedGrows(r, v, o, v.reg, more);
      if v.snap.Some? {
        MarkedGrows(r, v, o, v.snap.value, more);
      }
      LadderMore(r, v.f, more, v.h, o, Outs(v));
      if v.tail.Some? && v.tail.value.Tailing? {
        var t := v.tail.value;
        FrontGrows(r, v, o, t.offset, t.partial, t.pending, more);
      }
    }
  }

  // ---- the registry ----

  lemma StartKeeps(r: Rules, v: View, o: nat)
    requires SourceOk(r, v, o)
    ensures SourceOk(r, v.(up := true, reg := v.disk, snap := None, tail := None, flight := []), o)
  {
    assert Outs(v.(up := true, reg := v.disk, snap := None, tail := None, flight := [])) == [];
  }

  lemma SnapshotKeeps(r: Rules, v: View, o: nat)
    requires SourceOk(r, v, o) && v.up
    ensures SourceOk(r, v.(snap := Some(v.reg)), o)
  {
    hide Ladder, Reached;
    assert Outs(v.(snap := Some(v.reg))) == Outs(v);
    FrontDependsOn(r, v, v.(snap := Some(v.reg)), o);
  }

  lemma RenameKeeps(r: Rules, v: View, o: nat)
    requires SourceOk(r, v, o) && v.up && v.snap.Some?
    ensures SourceOk(r, v.(disk := v.snap.value, snap := None), o)
    ensures Leq(v.disk, v.snap.value)
  {
    hide Ladder, Reached;
    assert Outs(v.(disk := v.snap.value, snap := None)) == Outs(v);
    FrontDependsOn(r, v, v.(disk := v.snap.value, snap := None), o);
  }

  lemma FailedFlushKeeps(r: Rules, v: View, o: nat)
    requires SourceOk(r, v, o)
    ensures SourceOk(r, v.(snap := None), o)
  {
    hide Ladder, Reached;
    assert Outs(v.(snap := None)) == Outs(v);
    FrontDependsOn(r, v, v.(snap := None), o);
  }

  /** The front only depends on the file, the messages and the position in memory. */
  lemma FrontDependsOn(r: Rules, v: View, w: View, o: nat)
    requires v.f == w.f && v.h == w.h && v.reg == w.reg && v.flight == w.flight && v.tail == w.tail
    ensures TailOk(r, v, o) == TailOk(r, w, o)
  {
    hide FrontAt, Beyond;
    assert Outs(v) == Outs(w);
  }

  // ---- the tailer ----

  lemma StartTailKeeps(r: Rules, v: View, o: nat)
    requires SourceOk(r, v, o) && v.up && v.tail.None?
    ensures SourceOk(r, v.(tail := Some(Waiting(v.reg))), o)
  {
    assert Outs(v.(tail := Some(Waiting(v.reg)))) == Outs(v);
  }

  lemma FrontOpens(r: Rules, f: Text, h: set<Fate>, o: nat, z: nat)
    requires Reached(r, f, h, o, z)
    ensures FrontAt(r, f, h + Elems([]), o, z, [], z, NOTHING)
  {
    assert h + Elems([]) == h;
    assert Texts([]) == [];
    NoPieces(f, z);
    HoldingNothing(r, NOTHING);
  }

  /** A tailer that waits may open its file at `z` when everything before `z` is answered for. */
  lemma OpensAt(r: Rules, v: View, o: nat, z: nat)
    requires v.up && v.flight == [] && z <= |v.f| && Reached(r, v.f, v.h, o, z)
    requires v.reg.Some? ==> v.reg.value <= z
    ensures var v' := v.(tail := Some(Tailing(z, [], NOTHING, Empty)));
            TailOk(r, v', o) && Outs(v') == []
  {
    FrontOpens(r, v.f, v.h, o, z);
    hide Reached, FrontAt, Elems;
    var v' := v.(tail := Some(Tailing(z, [], NOTHING, Empty)));
    assert Outs(v') == [] && Beyond(z, v.reg, []);
  }

  lemma WaitsEmpty(r: Rules, v: View, o: nat)
    requires SourceOk(r, v, o) && v.up && v.tail.Some? && v.tail.value.Waiting?
    ensures v.flight == [] && Outs(v) == []
    ensures v.reg.Some? ==> Reached(r, v.f, v.h, o, v.reg.value)
    ensures v.reg.None? ==> v.disk.None? && (v.snap.Some? ==> v.snap.value.None?)
  {
    hide Reached, FrontAt, Ladder;
  }

  lemma InsideFile(r: Rules, f: Text, h: set<Fate>, o: nat, x: int)
    requires Reached(r, f, h, o, x)
    ensures 0 <= x <= |f|
  {
  }

  /** Opening a file with an entry resumes at the entry. */
  lemma OpenKeeps(r: Rules, v: View, o: nat)
    requires SourceOk(r, v, o) && v.up && v.tail.Some? && v.tail.value.Waiting? && v.reg.Some?
    ensures SourceOk(r, v.(tail := Some(Tailing(OpenAt(v.reg, v.f), [], NOTHING, Empty))), o)
  {
    WaitsEmpty(r, v, o);
    InsideFile(r, v.f, v.h, o, v.reg.value);
    OpensAt(r, v, o, v.reg.value);
    TailSwapped(r, v, o, Some(Tailing(v.reg.value, [], NOTHING, Empty)));
    hide SourceOk;
  }

  /** Another tailer that keeps its own part, with the same messages under way. */
  lemma TailSwapped(r: Rules, v: View, o: nat, tail: Option<Tail>)
    requires SourceOk(r, v, o) && v.up && TailOk(r, v.(tail := tail), o) && Outs(v.(tail := tail)) == Outs(v)
    ensures SourceOk(r, v.(tail := tail), o)
  {
    hide Reached, Ladder, TailOk, Outs;
  }

  /** Opening a file without an entry starts at its end, with nothing yet to answer for. */
  lemma OpenNewKeeps(r: Rules, v: View, o: nat)
    requires SourceOk(r, v, o) && v.up && v.tail.Some? && v.tail.value.Waiting? && v.reg.None?
    ensures SourceOk(r, v.(tail := Some(Tailing(OpenAt(v.reg, v.f), [], NOTHING, Empty))), |v.f|)
    ensures v.disk.None?
  {
    WaitsEmpty(r, v, o);
    NothingReached(r, v.f, v.h, |v.f|);
    OpensAt(r, v, |v.f|, |v.f|);
    NoLadder(r, v.f, v.h, |v.f|);
    hide Reached, Ladder, TailOk;
  }

  lemma NoLadder(r: Rules, f: Text, h: set<Fate>, o: nat)
    ensures Ladder(r, f, h, o, [])
  {
  }

  lemma ReadKeeps(r: Rules, v: View, o: nat, n: nat)
    requires SourceOk(r, v, o) && v.up && v.tail.Some? && v.tail.value.Tailing?
    requires v.tail.value.offset + |v.tail.value.partial| + n <= |v.f|
    ensures var t := v.tail.value;
            var at := t.offset + |t.partial|;
            SourceOk(r, v.(tail := Some(t.(partial := t.partial + v.f[at..at + n]))), o)
  {
    hide Ladder, Reached, FrontAt, Beyond;
    var t := v.tail.value;
    var at := t.offset + |t.partial|;
    var v' := v.(tail := Some(t.(partial := t.partial + v.f[at..at + n])));
    assert Outs(v') == Outs(v);
    SliceJoin(v.f, t.offset, at, at + n);
  }

  /** Stopping loses at most the message being offered, which is the newest. */
  lemma StopKeeps(r: Rules, v: View, o: nat)
    requires SourceOk(r, v, o) && v.up
    ensures SourceOk(r, v.(tail := Some(Stopped)), o)
  {
    hide Reached, FrontAt, Beyond, Elems;
    var v' := v.(tail := Some(Stopped));
    assert Outs(v') == v.flight;
    forall k | 0 <= k < |v.flight|
      ensures Reached(r, v.f, v.h + Elems(v.flight[..k + 1]), o, v.flight[k].off)
      ensures v.flight[k] == Outs(v)[k]
    {
      assert Outs(v)[..k + 1] == v.flight[..k + 1];
    }
  }

  lemma ElemsSnoc(outs: seq<Out>, out: Out)
    ensures Elems(outs + [out]) == Elems(outs) + {Sent(out)}
  {
  }

  /** A message at the front is ahead of everything in flight. */
  lemma OffersAtFront(r: Rules, v: View, o: nat, out: Option<Out>, z: nat, z': nat)
    requires Ladder(r, v.f, v.h, o, v.flight) && Ahead(v.reg, v.flight) && Beyond(z, v.reg, v.flight)
    requires z <= z' && (out.Some? ==> out.value.off == z')
    requires Reached(r, v.f, With(v.h + Elems(v.flight), out), o, z')
    ensures var outs := v.flight + if out.Some? then [out.value] else [];
            && Ladder(r, v.f, v.h, o, outs) && Ahead(v.reg, outs) && Beyond(z', v.reg, outs)
            && v.h + Elems(outs) == With(v.h + Elems(v.flight), out)
  {
    hide Reached;
    if out.Some? {
      ElemsSnoc(v.flight, out.value);
      assert v.h + Elems(v.flight + [out.value]) == With(v.h + Elems(v.flight), out);
      LadderSnoc(r, v.f, v.h, o, v.flight, out.value);
    } else {
      assert v.flight + [] == v.flight;
    }
  }

  /** The tailer has moved its front past what it had, perhaps with a message to send. */
  lemma FrontMoves(r: Rules, v: View, o: nat, t: Tail, out: Option<Out>, z: nat, z': nat, calls': seq<Call>)
    requires SourceOk(r, v, o) && v.up && v.tail.Some? && v.tail.value.Tailing? && v.tail.value.box.Empty?
    requires t.Tailing? && BoxOut(t) == if out.Some? then [out.value] else []
    requires Beyond(z, v.reg, Outs(v)) && z <= z' && (out.Some? ==> out.value.off == z')
    requires FrontAt(r, v.f, With(v.h + Elems(Outs(v)), out), o, z', calls', t.offset, t.pending)
    requires t.offset + |t.partial| <= |v.f| && t.partial == v.f[t.offset..t.offset + |t.partial|]
    ensures SourceOk(r, v.(tail := Some(t)), o)
  {
    hide Ladder, Reached, Beyond, FrontAt, SourceOk, TailOk, Elems;
    var v' := v.(tail := Some(t));
    TailParts(r, v, o);
    assert Outs(v) == v.flight && v.h + Elems(Outs(v)) == v.h + Elems(v.flight);
    FrontReached(r, v.f, With(v.h + Elems(v.flight), out), o, z', calls', t.offset, t.pending);
    OffersAtFront(r, v, o, out, z, z');
    TailReplaced(r, v, o, t, z', calls');
  }

  lemma TailParts(r: Rules, v: View, o: nat)
    requires SourceOk(r, v, o) && v.up
    ensures Ladder(r, v.f, v.h, o, Outs(v)) && Ahead(v.reg, Outs(v))
  {
  }

  lemma TailReplaced(r: Rules, v: View, o: nat, t: Tail, z: nat, calls: seq<Call>)
    requires SourceOk(r, v, o) && v.up && t.Tailing?
    requires var v' := v.(tail := Some(t));
             && Ladder(r, v.f, v.h, o, Outs(v')) && Ahead(v.reg, Outs(v')) && Beyond(z, v.reg, Outs(v'))
             && FrontAt(r, v.f, v.h + Elems(Outs(v')), o, z, calls, t.offset, t.pending)
    requires t.offset + |t.partial| <= |v.f| && t.partial == v.f[t.offset..t.offset + |t.partial|]
    ensures SourceOk(r, v.(tail := Some(t)), o)
  {
    hide Ladder, Reached, Beyond, FrontAt, Ahead;
  }

  lemma FrontReached(r: Rules, f: Text, h: set<Fate>, o: nat, z: nat, calls: seq<Call>, offset: nat, p: Pending)
    requires FrontAt(r, f, h, o, z, calls, offset, p)
    ensures Reached(r, f, h, o, z)
  {
  }

  lemma BoxOutOf(src: Source, id: string, out: Option<Out>, offset: nat, partial: Text, p: Pending)
    ensures BoxOut(Tailing(offset, partial, p, BoxOf(src, id, out))) == if out.Some? then [out.value] else []
  {
  }

  /** Knowing more of the history keeps the invariant. */
  lemma LearnKeeps(r: Rules, v: View, o: nat, h': set<Fate>)
    requires SourceOk(r, v, o) && v.h <= h'
    ensures SourceOk(r, v.(h := h'), o)
  {
    hide Ladder, Reached, Ahead, FrontAt, Beyond;
    var v' := v.(h := h');
    MarksKeep(r, v, v', o);
    if v.up {
      assert Outs(v') == Outs(v) && Outs(v)[0..] == Outs(v);
      assert v.h + Elems(Outs(v)[..0]) <= h';
      LadderDrop(r, v.f, v.h, h', o, Outs(v), 0);
      if v.tail.Some? && v.tail.value.Tailing? {
        var t := v.tail.value;
        var z, calls := TheFront(r, v, o);
        FrontKnowing(r, v.f, v.h + Elems(Outs(v)), h' + Elems(Outs(v)), o, z, calls, t.offset, t.pending);
      }
    }
  }

  lemma FrontKnowing(r: Rules, f: Text, h: set<Fate>, h': set<Fate>, o: nat, z: nat, calls: seq<Call>,
                     offset: nat, p: Pending)
    requires FrontAt(r, f, h, o, z, calls, offset, p) && h <= h'
    ensures FrontAt(r, f, h', o, z, calls, offset, p)
  {
    hide Reached;
    ReachedKnowing(r, f, h, h', o, z);
  }

  /** The view after a step that leaves the tailer at `t` and drops `drop`. */
  function Moved(v: View, t: Tail, drop: Option<Out>): View
  {
    v.(tail := Some(t), h := v.h + Drops(drop))
  }

  /** The tailer has moved its front, perhaps dropping a message or offering one. */
  lemma MoveKeeps(r: Rules, v: View, o: nat, t: Tail, drop: Option<Out>, out: Option<Out>,
                  z: nat, z': nat, calls': seq<Call>)
    requires SourceOk(r, v, o) && v.up && v.tail.Some? && v.tail.value.Tailing? && v.tail.value.box.Empty?
    requires t.Tailing? && BoxOut(t) == if out.Some? then [out.value] else []
    requires Beyond(z, v.reg, Outs(v)) && z <= z' && (out.Some? ==> out.value.off == z')
    requires FrontAt(r, v.f, After(v.h + Elems(Outs(v)), drop, out), o, z', calls', t.offset, t.pending)
    requires t.offset + |t.partial| <= |v.f| && t.partial == v.f[t.offset..t.offset + |t.partial|]
    ensures SourceOk(r, Moved(v, t, drop), o)
  {
    hide SourceOk, FrontAt, Beyond;
    var w := v.(h := v.h + Drops(drop));
    LearnKeeps(r, v, o, w.h);
    assert Outs(w) == Outs(v);
    assert With(w.h + Elems(Outs(w)), out) == After(v.h + Elems(Outs(v)), drop, out);
    FrontMoves(r, w, o, t, out, z, z', calls');
  }

  lemma CutKeeps(src: Source, id: string, v: View, o: nat, now: int)
    requires SourceOk(src.rules, v, o) && v.up && v.tail.Some? && v.tail.value.Tailing? && v.tail.value.box.Empty?
    requires IndexLF(v.tail.value.partial) < |v.tail.value.partial|
    ensures var t := v.tail.value;
            SourceOk(src.rules, Moved(v, CutStep(src, id, t, now), CutDrop(src, t, now)), o)
  {
    hide Ladder, Reached, LineSpec, LineDrop, FrontAt, Beyond, PieceOf, SourceOk, IndexLF, TrimCR;
    var r, t := src.rules, v.tail.value;
    var z, calls := TheFront(r, v, o);
    var t' := CutStep(src, id, t, now);
    var i, n := IndexLF(t.partial), |t.partial|;
    var c := Call(TrimCR(t.partial[..i]), t.offset + i + 1);
    CutIsPiece(v.f, t.offset, n);
    var h := v.h + Elems(Outs(v));
    if c.line == [] && !Aggregating(r) {
      BlankMoves(r, v.f, h, o, z, calls, t.offset, t.pending, c);
      FrontIsPast(r, v.f, h, o, z, calls, t.offset, t.pending);
      assert After(h, None, None) == h;
      MoveKeeps(r, v, o, t', None, None, z, c.off, []);
    } else {
      var out := LineSpec(r, t.pending, c.line, c.off, now).1;
      var z', calls' := LineMoves(r, v.f, h, o, z, calls, t.offset, t.pending, c, now);
      BoxOutOf(src, id, out, t'.offset, t'.partial, t'.pending);
      MoveKeeps(r, v, o, t', CutDrop(src, t, now), out, z, z', calls');
    }
  }

  /** Where the claim begins after a move: a file opened without an entry answers from its end. */
  function BaseAfter(t: Tail, f: Text, st: TailStep, o: nat): nat
  {
    if st.Open? && t == Waiting(None) then |f| else o
  }

  /** Every move of the source's tailer keeps its invariant. */
  lemma TailStepKeeps(src: Source, id: string, v: View, o: nat, file: Option<Text>, full: bool, cancelled: bool,
                      st: TailStep)
    requires SourceOk(src.rules, v, o) && v.up && v.tail.Some? && (file.Some? ==> file.value == v.f)
    requires TailEnabled(v.tail.value, file, full, cancelled, st)
    ensures var t := v.tail.value;
            SourceOk(src.rules, Moved(v, TailAfter(src, id, t, file, full, cancelled, st),
                                      TailDrop(src, t, file, full, cancelled, st)), BaseAfter(t, v.f, st, o))
    ensures v.disk.Some? ==> BaseAfter(v.tail.value, v.f, st, o) == o
  {
    hide SourceOk, OpenAt, CutStep, CapStep, IdleStep, CutDrop, CapDrop, IdleDrop, Quiet;
    assert v.h + {} == v.h;
    if st.CutLine? || st.CapLine? || st.IdleFlush? {
      ProcessKeeps(src, id, v, o, file, full, cancelled, st);
      DiskStays(v, o, st);
    } else {
      SilentKeeps(src, id, v, o, file, full, cancelled, st);
    }
    hide TailAfter, TailDrop, TailEnabled, Moved;
  }

  lemma DiskStays(v: View, o: nat, st: TailStep)
    requires v.tail.Some? && !st.Open?
    ensures BaseAfter(v.tail.value, v.f, st, o) == o
  {
  }

  lemma ProcessKeeps(src: Source, id: string, v: View, o: nat, file: Option<Text>, full: bool, cancelled: bool,
                     st: TailStep)
    requires SourceOk(src.rules, v, o) && v.up && v.tail.Some?
    requires TailEnabled(v.tail.value, file, full, cancelled, st) && (st.CutLine? || st.CapLine? || st.IdleFlush?)
    ensures var t := v.tail.value;
            SourceOk(src.rules, Moved(v, TailAfter(src, id, t, file, full, cancelled, st),
                                      TailDrop(src, t, file, full, cancelled, st)), o)
  {
    hide SourceOk, CutStep, CapStep, IdleStep, CutDrop, CapDrop, IdleDrop, Moved, IndexLF;
    match st {
      case CutLine(now) => CutKeeps(src, id, v, o, now);
      case CapLine(now) => CapKeeps(src, id, v, o, now);
      case IdleFlush(now) => IdleKeeps(src, id, v, o, now);
    }
  }

  /** The moves that drop and send nothing. */
  lemma SilentKeeps(src: Source, id: string, v: View, o: nat, file: Option<Text>, full: bool, cancelled: bool,
                    st: TailStep)
    requires SourceOk(src.rules, v, o) && v.up && v.tail.Some? && (file.Some? ==> file.value == v.f)
    requires TailEnabled(v.tail.value, file, full, cancelled, st) && !st.CutLine? && !st.CapLine? && !st.IdleFlush?
    ensures var t := v.tail.value;
            SourceOk(src.rules, v.(tail := Some(TailAfter(src, id, t, file, full, cancelled, st))),
                     BaseAfter(t, v.f, st, o))
    ensures TailDrop(src, v.tail.value, file, full, cancelled, st).None?
    ensures v.disk.Some? ==> BaseAfter(v.tail.value, v.f, st, o) == o
  {
    hide SourceOk, OpenAt, IndexLF, CutStep, CapStep, IdleStep, CutDrop, CapDrop, IdleDrop;
    match st {
      case Open => OpenStepKeeps(src, id, v, o, file, full, cancelled);
      case Read(n) => ReadKeeps(src.rules, v, o, n);
      case Block => BlockKeeps(src.rules, v, o);
      case Drop => StopKeeps(src.rules, v, o);
      case Quit => StopKeeps(src.rules, v, o);
      case _ =>
    }
  }

  lemma OpenStepKeeps(src: Source, id: string, v: View, o: nat, file: Option<Text>, full: bool, cancelled: bool)
    requires SourceOk(src.rules, v, o) && v.up && v.tail.Some? && (file.Some? ==> file.value == v.f)
    requires TailEnabled(v.tail.value, file, full, cancelled, Open)
    ensures var t := v.tail.value;
            SourceOk(src.rules, v.(tail := Some(TailAfter(src, id, t, file, full, cancelled, Open))),
                     BaseAfter(t, v.f, Open, o))
    ensures v.disk.Some? ==> BaseAfter(v.tail.value, v.f, Open, o) == o
  {
    WaitingHere(src.rules, v, o);
    hide SourceOk, OpenAt;
    if v.reg.Some? {
      OpenKeeps(src.rules, v, o);
    } else {
      OpenNewKeeps(src.rules, v, o);
    }
  }

  lemma WaitingHere(r: Rules, v: View, o: nat)
    requires SourceOk(r, v, o) && v.up
    ensures v.tail.Some? && v.tail.value.Waiting? ==> v.tail.value.start == v.reg
  {
    hide Ladder, Reached, FrontAt;
  }

  lemma FrontIsPast(r: Rules, f: Text, h: set<Fate>, o: nat, z: nat, calls: seq<Call>, offset: nat, p: Pending)
    requires FrontAt(r, f, h, o, z, calls, offset, p)
    ensures z <= offset
  {
    PiecesBounds(f, z, calls);
  }

  lemma TheFront(r: Rules, v: View, o: nat) returns (z: nat, calls: seq<Call>)
    requires SourceOk(r, v, o) && v.up && v.tail.Some? && v.tail.value.Tailing?
    ensures var t := v.tail.value;
            && FrontAt(r, v.f, v.h + Elems(Outs(v)), o, z, calls, t.offset, t.pending)
            && Beyond(z, v.reg, Outs(v))
            && t.offset + |t.partial| <= |v.f| && t.partial == v.f[t.offset..t.offset + |t.partial|]
  {
    hide FrontAt, Beyond;
    var t := v.tail.value;
    z, calls :| FrontAt(r, v.f, v.h + Elems(Outs(v)), o, z, calls, t.offset, t.pending)
                && Beyond(z, v.reg, Outs(v));
  }

  lemma CapKeeps(src: Source, id: string, v: View, o: nat, now: int)
    requires SourceOk(src.rules, v, o) && v.up && v.tail.Some? && v.tail.value.Tailing? && v.tail.value.box.Empty?
    requires IndexLF(v.tail.value.partial) == |v.tail.value.partial| > MAX_LINE_BYTES
    ensures var t := v.tail.value;
            SourceOk(src.rules, Moved(v, CapStep(src, id, t, now), CapDrop(src, t, now)), o)
  {
    hide Ladder, Reached, LineSpec, LineDrop, FrontAt, Beyond, SourceOk;
    var r, t := src.rules, v.tail.value;
    var z, calls := TheFront(r, v, o);
    var t' := CapStep(src, id, t, now);
    var c := Call(t.partial, t.offset + |t.partial|);
    assert PieceOf(v.f, t.offset, c);
    var out := LineSpec(r, t.pending, c.line, c.off, now).1;
    var z', calls' := LineMoves(r, v.f, v.h + Elems(Outs(v)), o, z, calls, t.offset, t.pending, c, now);
    BoxOutOf(src, id, out, t'.offset, t'.partial, t'.pending);
    MoveKeeps(r, v, o, t', CapDrop(src, t, now), out, z, z', calls');
  }

  lemma IdleKeeps(src: Source, id: string, v: View, o: nat, now: int)
    requires SourceOk(src.rules, v, o) && v.up && v.tail.Some? && v.tail.value.Tailing? && v.tail.value.box.Empty?
    ensures var t := v.tail.value;
            SourceOk(src.rules, Moved(v, IdleStep(src, id, t, now), IdleDrop(src, t, now)), o)
  {
    hide Ladder, Reached, FlushSpec, FlushDrop, FrontAt, Beyond, SourceOk;
    var r, t := src.rules, v.tail.value;
    var z, calls := TheFront(r, v, o);
    var t' := IdleStep(src, id, t, now);
    var out := FlushSpec(r, t.pending, now, false).1;
    var z', calls' := FlushMoves(r, v.f, v.h + Elems(Outs(v)), o, z, calls, t.offset, t.pending, now, false);
    BoxOutOf(src, id, out, t'.offset, t'.partial, t'.pending);
    MoveKeeps(r, v, o, t', IdleDrop(src, t, now), out, z, z', calls');
  }

  /** Sending the offered message puts it last in the channel. */
  lemma EnqueueKeeps(r: Rules, v: View, o: nat)
    requires SourceOk(r, v, o) && v.up && v.tail.Some? && v.tail.value.Tailing?
    ensures var t := v.tail.value;
            SourceOk(r, v.(tail := Some(t.(box := Empty)), flight := v.flight + BoxOut(t)), o)
  {
    hide Ladder, Reached, FrontAt, Beyond;
    var t := v.tail.value;
    assert Outs(v.(tail := Some(t.(box := Empty)), flight := v.flight + BoxOut(t))) == Outs(v);
  }

  lemma BlockKeeps(r: Rules, v: View, o: nat)
    requires SourceOk(r, v, o) && v.up && v.tail.Some? && v.tail.value.Tailing? && v.tail.value.box.Offering?
    ensures var t := v.tail.value;
            SourceOk(r, v.(tail := Some(t.(box := Blocked(t.box.m)))), o)
  {
    hide Ladder, Reached, FrontAt, Beyond;
    var t := v.tail.value;
    assert Outs(v.(tail := Some(t.(box := Blocked(t.box.m))))) == Outs(v);
  }

  // ---- the batcher ----

  /** The first `n` messages in flight are settled; if they were accepted the registry
      moves to the last of them, else it stays. */
  lemma SettleKeeps(r: Rules, v: View, o: nat, n: nat, accepted: bool)
    requires SourceOk(r, v, o) && v.up && n <= |v.flight|
    ensures SourceOk(r, v.(h := v.h + Elems(v.flight[..n]), flight := v.flight[n..],
                           reg := if accepted && n > 0 then Some(v.flight[n - 1].off) else v.reg), o)
  {
    hide Ladder, Reached, FrontAt, TailOk, Ahead;
    var h' := v.h + Elems(v.flight[..n]);
    var reg' := if accepted && n > 0 then Some(v.flight[n - 1].off) else v.reg;
    var v' := v.(h := h', flight := v.flight[n..], reg := reg');
    assert Outs(v)[..n] == v.flight[..n] && Outs(v') == Outs(v)[n..];
    LadderDrop(r, v.f, v.h, h', o, Outs(v), n);
    assert n > 0 ==> Outs(v)[n - 1] == v.flight[n - 1];
    MarksKeep(r, v, v', o);
    MarkFollows(r, v, v', o, n);
    SettleKeepsTail(r, v, v', o, n);
  }

  /** The position in memory, moved to a message just settled, is still behind the rest. */
  lemma MarkFollows(r: Rules, v: View, v': View, o: nat, n: nat)
    requires Ladder(r, v.f, v.h, o, Outs(v)) && Ahead(v.reg, Outs(v))
    requires n <= |Outs(v)| && Outs(v') == Outs(v)[n..]
    requires v'.reg == v.reg || (n > 0 && v'.reg == Some(Outs(v)[n - 1].off))
    ensures Ahead(v'.reg, Outs(v')) && Leq(v.reg, v'.reg)
  {
    hide Reached;
  }

  lemma SettleKeepsTail(r: Rules, v: View, v': View, o: nat, n: nat)
    requires TailOk(r, v, o) && n <= |v.flight| && v'.tail == v.tail && v'.f == v.f
    requires v'.h == v.h + Elems(v.flight[..n]) && v'.flight == v.flight[n..]
    requires v'.reg == v.reg || (n > 0 && v'.reg == Some(v.flight[n - 1].off))
    ensures TailOk(r, v', o)
  {
    OutsSplit(v, v', n);
    hide FrontAt, Outs, Elems, Beyond;
    if v.tail.Some? && v.tail.value.Tailing? {
      var t := v.tail.value;
      var z: nat, calls: seq<Call> :| FrontAt(r, v.f, v.h + Elems(Outs(v)), o, z, calls, t.offset, t.pending)
                                      && Beyond(z, v.reg, Outs(v));
      BeyondDrops(z, v.reg, v'.reg, Outs(v), Outs(v'), n);
    }
  }

  lemma BeyondDrops(z: nat, reg: Option<int>, reg': Option<int>, outs: seq<Out>, outs': seq<Out>, n: nat)
    requires Beyond(z, reg, outs) && n <= |outs| && outs' == outs[n..]
    requires reg' == reg || (n > 0 && reg' == Some(outs[n - 1].off))
    ensures Beyond(z, reg', outs')
  {
  }

  lemma OutsSplit(v: View, v': View, n: nat)
    requires n <= |v.flight| && v'.flight == v.flight[n..] && v'.tail == v.tail
    requires v'.h == v.h + Elems(v.flight[..n])
    ensures n <= |Outs(v)| && Outs(v') == Outs(v)[n..] && v.h + Elems(Outs(v)) == v'.h + Elems(Outs(v'))
    ensures n > 0 ==> Outs(v)[n - 1] == v.flight[n - 1]
  {
    assert v.flight == v.flight[..n] + v.flight[n..];
    var box := if v.tail.Some? then BoxOut(v.tail.value) else [];
    Associates(v.flight[..n], v.flight[n..], box);
    assert Elems(v.flight[..n] + Outs(v')) == Elems(v.flight[..n]) + Elems(Outs(v'));
  }

  lemma MarksKeep(r: Rules, v: View, v': View, o: nat)
    requires v.f == v'.f && v.h <= v'.h && v.disk == v'.disk && v.snap == v'.snap
    ensures Marked(r, v, o, v.disk) ==> Marked(r, v', o, v.disk)
    ensures Marked(r, v, o, v.reg) ==> Marked(r, v', o, v.reg)
    ensures v.snap.Some? && Marked(r, v, o, v.snap.value) ==> Marked(r, v', o, v.snap.value)
  {
    forall m: Option<int> | Marked(r, v, o, m)
      ensures Marked(r, v', o, m)
    {
      if m.Some? {
        ReachedKnowing(r, v.f, v.h, v'.h, o, m.value);
      }
    }
  }
}
