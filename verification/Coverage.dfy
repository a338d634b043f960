/**
 What it means that the bytes of a file were delivered, and how one more line, message or
 acknowledgement extends the delivered part.
 */
module Coverage {
  import opened Basics
  import opened LineProcessor
  import opened Messages
  import opened FileTailer
  import Strings

  function Texts(calls: seq<Call>): (ts: seq<Text>)
    ensures |ts| == |calls| && forall i | 0 <= i < |calls| :: ts[i] == calls[i].line
  {
    seq(|calls|, i requires 0 <= i < |calls| => calls[i].line)
  }

  /** What became of a logical line: a message was sent for it, or the rules dropped it. */
  datatype Fate = Sent(out: Out) | Dropped(out: Out)

  function Elems(outs: seq<Out>): set<Fate> { set o | o in outs :: Sent(o) }

  lemma ElemsAppend(a: seq<Out>, b: seq<Out>)
    ensures Elems(a + b) == Elems(a) + Elems(b)
  {
  }

  function Drops(drop: Option<Out>): set<Fate>
  {
    if drop.Some? then {Dropped(drop.value)} else {}
  }

  /** What the rules make of `content`, which ends at `off`, is in the history: the message
      they leave, or the fact that they dropped it. */
  ghost predicate Finished(r: Rules, content: Text, off: nat, h: set<Fate>)
  {
    match Finish(r.filters, content)
    case Some(c) => Sent(Out(c, off)) in h
    case None => Dropped(Out(content, off)) in h
  }

  /** The logical line a run of pieces makes up. */
  function LogicalLine(r: Rules, run: seq<Call>): Text
    requires run != []
  {
    if Aggregating(r) then Strings.Join(Texts(run), LF) else run[0].line
  }

  /** A run of pieces that is one logical line and is done with: a blank line outside
      aggregation, or one whose message or drop is in the history. */
  ghost predicate Resolved(r: Rules, run: seq<Call>, h: set<Fate>)
  {
    && run != []
    && OneMessage(r, Texts(run))
    && (Aggregating(r) || |run| == 1)
    && ((!Aggregating(r) && run[0].line == []) || Finished(r, LogicalLine(r, run), EndOf(0, run), h))
  }

  /** The runs are consecutive pieces of the file from `s` to exactly `x`, all done with. */
  ghost predicate Tiling(r: Rules, f: Text, h: set<Fate>, s: nat, x: int, runs: seq<seq<Call>>)
  {
    && Pieces(f, s, Flatten(runs)) && EndOf(s, Flatten(runs)) == x
    && forall k | 0 <= k < |runs| :: Resolved(r, runs[k], h)
  }

  /** Position `x` has been reached from `o`: one tiling of logical lines leads there. */
  ghost predicate Reached(r: Rules, f: Text, h: set<Fate>, o: nat, x: int)
  {
    o <= x <= |f| && exists runs :: Tiling(r, f, h, o, x, runs)
  }

  lemma NothingReached(r: Rules, f: Text, h: set<Fate>, o: nat)
    requires o <= |f|
    ensures Reached(r, f, h, o, o)
  {
    NoPieces(f, o);
    assert Tiling(r, f, h, o, o, []);
  }

  lemma ReachedMore(r: Rules, f: Text, more: Text, h: set<Fate>, h': set<Fate>, o: nat, x: int)
    requires Reached(r, f, h, o, x) && h <= h'
    ensures Reached(r, f + more, h', o, x)
  {
    hide OneMessage, LogicalLine, PieceOf;
    var runs :| Tiling(r, f, h, o, x, runs);
    PiecesGrow(f, more, o, Flatten(runs));
    assert Tiling(r, f + more, h', o, x, runs);
  }

  lemma ReachedKnowing(r: Rules, f: Text, h: set<Fate>, h': set<Fate>, o: nat, x: int)
    requires Reached(r, f, h, o, x) && h <= h'
    ensures Reached(r, f, h', o, x)
  {
    ReachedMore(r, f, [], h, h', o, x);
    assert f + [] == f;
  }

  /** A run that is done with carries the reached position to its end. */
  lemma ReachedRun(r: Rules, f: Text, h: set<Fate>, o: nat, z: nat, run: seq<Call>)
    requires Reached(r, f, h, o, z) && Pieces(f, z, run) && Resolved(r, run, h)
    ensures Reached(r, f, h, o, EndOf(z, run))
  {
    hide Resolved;
    var runs :| Tiling(r, f, h, o, z, runs);
    PiecesBounds(f, z, run);
    FlattenSnoc(runs, run);
    PiecesAppend(f, o, Flatten(runs), run);
    RunNotEmpty(r, run, h);
    assert Tiling(r, f, h, o, EndOf(z, run), runs + [run]);
  }

  lemma RunNotEmpty(r: Rules, run: seq<Call>, h: set<Fate>)
    requires Resolved(r, run, h)
    ensures run != []
  {
  }

  // ---- messages in flight ----

  /** Delivering the messages in flight one after the other reaches their offsets, which
      never decrease. */
  ghost predicate Ladder(r: Rules, f: Text, h: set<Fate>, o: nat, outs: seq<Out>)
  {
    && (forall k | 0 <= k < |outs| :: Reached(r, f, h + Elems(outs[..k + 1]), o, outs[k].off))
    && (forall j, k | 0 <= j < k < |outs| :: outs[j].off <= outs[k].off)
  }

  lemma LadderMore(r: Rules, f: Text, more: Text, h: set<Fate>, o: nat, outs: seq<Out>)
    requires Ladder(r, f, h, o, outs)
    ensures Ladder(r, f + more, h, o, outs)
  {
    forall k | 0 <= k < |outs|
      ensures Reached(r, f + more, h + Elems(outs[..k + 1]), o, outs[k].off)
    {
      ReachedMore(r, f, more, h + Elems(outs[..k + 1]), h + Elems(outs[..k + 1]), o, outs[k].off);
    }
  }

  lemma LadderSnoc(r: Rules, f: Text, h: set<Fate>, o: nat, outs: seq<Out>, out: Out)
    requires Ladder(r, f, h, o, outs)
    requires Reached(r, f, h + Elems(outs + [out]), o, out.off)
    requires forall k | 0 <= k < |outs| :: outs[k].off <= out.off
    ensures Ladder(r, f, h, o, outs + [out])
  {
    hide Reached, Elems;
    var all := outs + [out];
    forall k | 0 <= k < |all|
      ensures Reached(r, f, h + Elems(all[..k + 1]), o, all[k].off)
    {
      if k < |outs| {
        assert all[..k + 1] == outs[..k + 1];
      } else {
        assert all[..k + 1] == all;
      }
    }
  }

  /** Settling the first `n` messages in flight. */
  lemma LadderDrop(r: Rules, f: Text, h: set<Fate>, h': set<Fate>, o: nat, outs: seq<Out>, n: nat)
    requires Ladder(r, f, h, o, outs) && n <= |outs| && h + Elems(outs[..n]) <= h'
    ensures Ladder(r, f, h', o, outs[n..])
    ensures n > 0 ==> Reached(r, f, h', o, outs[n - 1].off)
  {
    hide Reached, Elems;
    var left := outs[n..];
    forall k | 0 <= k < |left|
      ensures Reached(r, f, h' + Elems(left[..k + 1]), o, left[k].off)
    {
      assert outs[..n + k + 1] == outs[..n] + left[..k + 1];
      ElemsAppend(outs[..n], left[..k + 1]);
      ReachedKnowing(r, f, h + Elems(outs[..n + k + 1]), h' + Elems(left[..k + 1]), o, left[k].off);
    }
    if n > 0 {
      ReachedKnowing(r, f, h + Elems(outs[..n]), h', o, outs[n - 1].off);
    }
  }

  // ---- the tailer's side ----

  /** Everything up to `z` is accounted for by `h`, and the pieces from `z` to `offset` are the
      lines the processor holds back, so far one logical line. */
  ghost predicate FrontAt(r: Rules, f: Text, h: set<Fate>, o: nat, z: nat, calls: seq<Call>,
                          offset: nat, p: Pending)
  {
    && Reached(r, f, h, o, z)
    && Pieces(f, z, calls) && EndOf(z, calls) == offset
    && p.lines == Texts(calls) && Holding(r, p)
    && (calls != [] ==> Aggregating(r) && p.off == offset)
  }

  /** The buffer is one logical line, within the cap unless it is a single line. */
  ghost predicate Holding(r: Rules, p: Pending)
  {
    OneMessage(r, p.lines) && p.size == Size(p.lines) && (p.size <= MAX_LINE_BYTES || |p.lines| == 1)
  }

  lemma HoldingNothing(r: Rules, p: Pending)
    requires p.lines == [] && p.size == 0
    ensures Holding(r, p)
  {
  }

  lemma HoldingMore(r: Rules, p: Pending, raw: Text, off: nat, now: int)
    requires Holding(r, p) && (Starts(r, raw) ==> p.lines == [])
    ensures var q := Buffer(p, raw, off, now);
            OneMessage(r, q.lines) && q.size == Size(q.lines)
  {
    SizeSnoc(p.lines, raw);
    assert (p.lines + [raw])[..|p.lines|] == p.lines;
  }

  lemma OneLine(r: Rules, line: Text)
    ensures OneMessage(r, [line])
  {
  }

  lemma PiecesSnoc(f: Text, z: nat, calls: seq<Call>, c: Call)
    requires Pieces(f, z, calls) && PieceOf(f, EndOf(z, calls), c)
    ensures Pieces(f, z, calls + [c]) && EndOf(z, calls + [c]) == c.off
    ensures Texts(calls + [c]) == Texts(calls) + [c.line]
  {
    assert Pieces(f, c.off, []);
    assert [c][1..] == [];
    PiecesAppend(f, z, calls, [c]);
  }

  /** A blank line outside aggregation moves the front past it. */
  lemma BlankMoves(r: Rules, f: Text, h: set<Fate>, o: nat, z: nat, calls: seq<Call>,
                   offset: nat, p: Pending, c: Call)
    requires FrontAt(r, f, h, o, z, calls, offset, p) && PieceOf(f, offset, c)
    requires !Aggregating(r) && c.line == []
    ensures FrontAt(r, f, h, o, c.off, [], c.off, p)
  {
    hide OneMessage, PieceOf;
    PiecesSnoc(f, z, [], c);
    assert [] + [c] == [c];
    OneLine(r, c.line);
    assert Texts([c]) == [c.line];
    ReachedRun(r, f, h, o, z, [c]);
    NoPieces(f, c.off);
  }

  /** The history once `out` is on its way. */
  function With(h: set<Fate>, out: Option<Out>): set<Fate>
  {
    if out.Some? then h + {Sent(out.value)} else h
  }

  /** The history after the rules have seen a logical line. */
  function After(h: set<Fate>, drop: Option<Out>, out: Option<Out>): set<Fate>
  {
    With(h + Drops(drop), out)
  }

  /** Closing the buffered run: the front moves to its end. */
  lemma ReleaseMoves(r: Rules, f: Text, h: set<Fate>, o: nat, z: nat, calls: seq<Call>, a: Aggregate)
    requires Reached(r, f, h, o, z) && Pieces(f, z, calls) && calls != [] && Aggregating(r)
    requires a.lines == Texts(calls) && a.off == EndOf(z, calls) && OneMessage(r, a.lines)
    ensures var out, drop := Release(r, Some(a)), DropOf(r, Some(a));
            && Reached(r, f, After(h, drop, out), o, a.off)
            && (out.Some? ==> out.value.off == a.off)
  {
    hide OneMessage, PieceOf, Pieces, Reached;
    var out, drop := Release(r, Some(a)), DropOf(r, Some(a));
    ReachedKnowing(r, f, h, After(h, drop, out), o, z);
    assert Resolved(r, calls, After(h, drop, out));
    ReachedRun(r, f, After(h, drop, out), o, z, calls);
  }

  /** A line outside aggregation is a logical line of its own. */
  lemma PlainLineMoves(r: Rules, f: Text, h: set<Fate>, o: nat, z: nat, c: Call)
    requires Reached(r, f, h, o, z) && PieceOf(f, z, c) && !Aggregating(r)
    ensures var out := FinishLine(r, c.line, c.off);
            var drop := if out.None? then Some(Out(c.line, c.off)) else None;
            Reached(r, f, After(h, drop, out), o, c.off)
  {
    hide OneMessage, PieceOf, Reached;
    var out := FinishLine(r, c.line, c.off);
    var h' := After(h, if out.None? then Some(Out(c.line, c.off)) else None, out);
    ReachedKnowing(r, f, h, h', o, z);
    NoPieces(f, z);
    PiecesSnoc(f, z, [], c);
    assert [] + [c] == [c];
    OneLine(r, c.line);
    assert Texts([c]) == [c.line];
    assert Resolved(r, [c], h');
    ReachedRun(r, f, h', o, z, [c]);
  }

  /** One call of the processor with the next piece of the file. */
  lemma LineMoves(r: Rules, f: Text, h: set<Fate>, o: nat, z: nat, calls: seq<Call>,
                  offset: nat, p: Pending, c: Call, now: int) returns (z': nat, calls': seq<Call>)
    requires FrontAt(r, f, h, o, z, calls, offset, p) && PieceOf(f, offset, c)
    ensures var (q, out) := LineSpec(r, p, c.line, c.off, now);
            && FrontAt(r, f, After(h, LineDrop(r, p, c.line, c.off, now), out), o, z', calls', c.off, q)
            && z <= z' && (out.Some? ==> out.value.off == z')
  {
    hide Strings.Join, Reached, OneMessage, PieceOf, Pieces, Size, Starts, Finish;
    PiecesSnoc(f, z, calls, c);
    PiecesBounds(f, z, calls);
    NoPieces(f, c.off);
    assert offset < c.off by {
      PieceIsLonger(f, offset, c);
    }
    assert After(h, None, None) == h;
    if !Aggregating(r) {
      PlainLineMoves(r, f, h, o, z, c);
      z', calls' := c.off, [];
    } else if Starts(r, c.line) && |p.lines| > 0 {
      ReleaseMoves(r, f, h, o, z, calls, Aggregate(p.lines, p.off, AtStart));
      NoPieces(f, offset);
      PiecesSnoc(f, offset, [], c);
      assert [] + [c] == [c];
      HoldingNothing(r, Reset(p));
      HoldingMore(r, Reset(p), c.line, c.off, now);
      z', calls' := offset, [c];
    } else {
      HoldingMore(r, p, c.line, c.off, now);
      var q := Buffer(p, c.line, c.off, now);
      if q.size > MAX_LINE_BYTES {
        ReleaseMoves(r, f, h, o, z, calls + [c], Aggregate(q.lines, c.off, AtCap));
        HoldingNothing(r, Reset(q));
        z', calls' := c.off, [];
      } else {
        z', calls' := z, calls + [c];
      }
    }
  }

  lemma PieceIsLonger(f: Text, s: nat, c: Call)
    requires PieceOf(f, s, c)
    ensures s < c.off
  {
  }

  /** One flush of the processor. */
  lemma FlushMoves(r: Rules, f: Text, h: set<Fate>, o: nat, z: nat, calls: seq<Call>,
                   offset: nat, p: Pending, now: int, force: bool) returns (z': nat, calls': seq<Call>)
    requires FrontAt(r, f, h, o, z, calls, offset, p)
    ensures var (q, out) := FlushSpec(r, p, now, force);
            && FrontAt(r, f, After(h, FlushDrop(r, p, now, force), out), o, z', calls', offset, q)
            && z <= z' && (out.Some? ==> out.value.off == z')
  {
    hide Strings.Join, Reached, OneMessage, PieceOf, Pieces, Size, Finish;
    var (q, a) := Expire(r, p, now, force);
    PiecesBounds(f, z, calls);
    NoPieces(f, offset);
    assert After(h, None, None) == h;
    if a.Some? {
      ReleaseMoves(r, f, h, o, z, calls, a.value);
      HoldingNothing(r, Reset(p));
      z', calls' := offset, [];
    } else {
      z', calls' := z, calls;
    }
  }
}
