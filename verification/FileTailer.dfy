/**
 Following one file: the bytes read are cut into lines, an over-long line is shipped in
 pieces, and each line goes through the source's processor to the message channel.
 */
module FileTailer {
  import opened Basics
  import opened LineProcessor
  import opened Messages
  import Strings

  const READ_CHUNK: nat := 32 * 1024

  function IndexLF(b: Text): (i: nat)
    ensures i <= |b| && (i < |b| ==> b[i] == LF)
    ensures forall k | 0 <= k < i :: b[k] != LF
  {
    var i := Strings.Index(b, LF);
    assert forall k | 0 <= k < i :: b[k] == b[..i][k];
    i
  }

  function TrimCR(b: Text): (t: Text)
    ensures t <= b
    ensures t == [] || t[|t| - 1] != CR
    ensures forall k | |t| <= k < |b| :: b[k] == CR
  {
    if b == [] || b[|b| - 1] != CR then b else TrimCR(b[..|b| - 1])
  }

  ghost predicate NoLF(b: Text) { forall k | 0 <= k < |b| :: b[k] != LF }

  /** One call of the processor: a raw line and the file offset just past it. */
  datatype Call = Call(line: Text, off: nat)

  /** The processor calls made, the new offset and the bytes still waiting for a newline. */
  datatype Cutting = Cutting(calls: seq<Call>, offset: nat, rest: Text)

  /** Cut every complete line off `partial`, which begins at file position `offset`. Empty
      lines are skipped unless they belong to an aggregate. */
  function Cut(agg: bool, offset: nat, partial: Text): Cutting
    decreases |partial|
  {
    var i := IndexLF(partial);
    if i == |partial| then Cutting([], offset, partial)
    else
      var line := TrimCR(partial[..i]);
      var c := Cut(agg, offset + i + 1, partial[i + 1..]);
      if line == [] && !agg then c else c.(calls := [Call(line, offset + i + 1)] + c.calls)
  }

  lemma CutFirst(agg: bool, offset: nat, partial: Text)
    ensures var i, c := IndexLF(partial), Cut(agg, offset, partial);
            if i == |partial| then c == Cutting([], offset, partial)
            else
              var line, d := TrimCR(partial[..i]), Cut(agg, offset + i + 1, partial[i + 1..]);
              c.offset == d.offset && c.rest == d.rest &&
              c.calls == if line == [] && !agg then d.calls else [Call(line, offset + i + 1)] + d.calls
  {
  }

  /** One read: the line cuts, then the cap on an unterminated line. */
  function EmitCalls(agg: bool, offset: nat, partial: Text, data: Text): Cutting
  {
    var c := Cut(agg, offset, partial + data);
    if |c.rest| > MAX_LINE_BYTES then
      Cutting(c.calls + [Call(c.rest, c.offset + |c.rest|)], c.offset + |c.rest|, [])
    else c
  }

  /** A succession of reads. */
  function EmitAll(agg: bool, offset: nat, partial: Text, chunks: seq<Text>): Cutting
    decreases |chunks|
  {
    if chunks == [] then Cutting([], offset, partial)
    else
      var e := EmitCalls(agg, offset, partial, chunks[0]);
      var r := EmitAll(agg, e.offset, e.rest, chunks[1..]);
      r.(calls := e.calls + r.calls)
  }

  /** The reads that bring a tailer to the end of the file. */
  function Chunks(unread: Text): (chunks: seq<Text>)
    ensures Flatten(chunks) == unread
    decreases |unread|
  {
    if unread == [] then []
    else
      var n := Min(READ_CHUNK, |unread|);
      assert unread == unread[..n] + unread[n..];
      [unread[..n]] + Chunks(unread[n..])
  }

  // ---- independence of read boundaries ----

  lemma IndexLFUnique(b: Text, i: nat)
    requires i < |b| && b[i] == LF && forall k | 0 <= k < i :: b[k] != LF
    ensures IndexLF(b) == i
  {
  }

  /** What the cuts of the lines after the first become with the first one in front. */
  function InFront(agg: bool, first: Call, c: Cutting): Cutting
  {
    if first.line == [] && !agg then c else c.(calls := [first] + c.calls)
  }

  lemma CutInFront(agg: bool, offset: nat, b: Text, i: nat)
    requires i == IndexLF(b) < |b|
    ensures Cut(agg, offset, b) ==
            InFront(agg, Call(TrimCR(b[..i]), offset + i + 1), Cut(agg, offset + i + 1, b[i + 1..]))
  {
    hide IndexLF, TrimCR;
  }

  lemma InFrontOfBoth(agg: bool, first: Call, c: Cutting, d: Cutting)
    ensures InFront(agg, first, Cutting(c.calls + d.calls, d.offset, d.rest)) ==
            Cutting(InFront(agg, first, c).calls + d.calls, d.offset, d.rest)
    ensures InFront(agg, first, c).offset == c.offset && InFront(agg, first, c).rest == c.rest
  {
    Associates([first], c.calls, d.calls);
  }

  lemma NoLineToCut(agg: bool, offset: nat, a: Text, b: Text)
    requires IndexLF(a) == |a|
    ensures Cut(agg, offset, a) == Cutting([], offset, a)
    ensures [] + Cut(agg, offset, a + b).calls == Cut(agg, offset, a + b).calls
  {
    hide IndexLF, TrimCR;
  }

  lemma {:induction false} CutAppend(agg: bool, offset: nat, a: Text, b: Text)
    ensures var c := Cut(agg, offset, a);
            var d := Cut(agg, c.offset, c.rest + b);
            Cut(agg, offset, a + b) == Cutting(c.calls + d.calls, d.offset, d.rest)
    decreases |a|
  {
    hide IndexLF, TrimCR, Cut, InFront;
    var i := IndexLF(a);
    if i == |a| {
      NoLineToCut(agg, offset, a, b);
    } else {
      var first, rest := Call(TrimCR(a[..i]), offset + i + 1), a[i + 1..];
      FirstLineAppended(a, b, i);
      CutInFront(agg, offset, a, i);
      CutInFront(agg, offset, a + b, i);
      CutAppend(agg, offset + i + 1, rest, b);
      var c := Cut(agg, offset + i + 1, rest);
      InFrontOfBoth(agg, first, c, Cut(agg, c.offset, c.rest + b));
    }
  }

  lemma FirstLineAppended(a: Text, b: Text, i: nat)
    requires i < |a| && IndexLF(a) == i
    ensures IndexLF(a + b) == i && (a + b)[..i] == a[..i] && (a + b)[i + 1..] == a[i + 1..] + b
  {
    IndexLFUnique(a + b, i);
  }

  lemma {:induction false} CutRest(agg: bool, offset: nat, b: Text)
    ensures var c := Cut(agg, offset, b);
            && NoLF(c.rest) && |c.rest| <= |b| && c.rest == b[|b| - |c.rest|..]
            && c.offset + |c.rest| == offset + |b|
    decreases |b|
  {
    hide IndexLF, TrimCR, Cut;
    CutFirst(agg, offset, b);
    var i := IndexLF(b);
    if i == |b| {
      hide NoLF;
      LFFree(b);
    } else {
      hide NoLF;
      var more := b[i + 1..];
      CutRest(agg, offset + i + 1, more);
      var n := |Cut(agg, offset + i + 1, more).rest|;
      assert more[|more| - n..] == b[|b| - n..];
    }
  }

  lemma LFFree(b: Text)
    ensures IndexLF(b) == |b| ==> NoLF(b)
  {
    hide IndexLF;
  }

  /** No run of bytes without a newline is longer than the cap. */
  ghost predicate ShortLines(b: Text)
  {
    forall i, j | 0 <= i <= j <= |b| && NoLF(b[i..j]) :: j - i <= MAX_LINE_BYTES
  }

  lemma ShortSuffix(b: Text, n: nat)
    requires n <= |b| && ShortLines(b)
    ensures ShortLines(b[n..])
  {
    var s := b[n..];
    forall i, j | 0 <= i <= j <= |s| && NoLF(s[i..j])
      ensures j - i <= MAX_LINE_BYTES
    {
      assert b[n + i..n + j] == s[i..j];
    }
  }

  /** When no line exceeds the cap, the calls made do not depend on how the stream was
      split into reads: they are those of one pass over the whole stream. */
  lemma {:induction false} ReadBoundariesDoNotMatter(agg: bool, offset: nat, partial: Text, chunks: seq<Text>)
    requires NoLF(partial) && ShortLines(partial + Flatten(chunks))
    ensures EmitAll(agg, offset, partial, chunks) == Cut(agg, offset, partial + Flatten(chunks))
    decreases |chunks|
  {
    hide IndexLF, TrimCR, ShortLines;
    if chunks == [] {
      assert partial + [] == partial;
    } else {
      var b, more := partial + chunks[0], Flatten(chunks[1..]);
      assert partial + Flatten(chunks) == b + more;
      var c := Cut(agg, offset, b);
      CutRest(agg, offset, b);
      ShortRest(b, more, c.rest);
      CutAppend(agg, offset, b, more);
      ReadBoundariesDoNotMatter(agg, c.offset, c.rest, chunks[1..]);
    }
  }

  lemma ShortRest(b: Text, more: Text, rest: Text)
    requires ShortLines(b + more) && |rest| <= |b| && rest == b[|b| - |rest|..] && NoLF(rest)
    ensures |rest| <= MAX_LINE_BYTES && ShortLines(rest + more)
  {
    var n := |b| - |rest|;
    assert (b + more)[n..|b|] == rest;
    ShortSuffix(b + more, n);
    assert (b + more)[n..] == rest + more;
  }

  // ---- the calls tile the file ----

  /** `c` is the piece of file `f` from position `s`: a terminated line, or an unterminated
      run longer than the cap. */
  ghost predicate PieceOf(f: Text, s: nat, c: Call)
  {
    s < c.off <= |f| &&
    ( (f[c.off - 1] == LF && NoLF(f[s..c.off - 1]) && c.line == TrimCR(f[s..c.off - 1]))
      || (NoLF(f[s..c.off]) && c.off - s > MAX_LINE_BYTES && c.line == f[s..c.off]))
  }

  /** Consecutive pieces of `f`, the first beginning at `s`. */
  ghost predicate Pieces(f: Text, s: nat, calls: seq<Call>)
    decreases |calls|
  {
    calls == [] || (PieceOf(f, s, calls[0]) && Pieces(f, calls[0].off, calls[1..]))
  }

  function EndOf(s: nat, calls: seq<Call>): nat
  {
    if calls == [] then s else calls[|calls| - 1].off
  }

  lemma EndOfRest(s: nat, calls: seq<Call>)
    requires calls != []
    ensures EndOf(s, calls) == EndOf(calls[0].off, calls[1..])
  {
  }

  lemma EndOfNone(s: nat)
    ensures EndOf(s, []) == s
  {
  }

  lemma {:induction false} PiecesAppend(f: Text, s: nat, a: seq<Call>, b: seq<Call>)
    requires Pieces(f, s, a) && Pieces(f, EndOf(s, a), b)
    ensures Pieces(f, s, a + b) && EndOf(s, a + b) == EndOf(EndOf(s, a), b)
    decreases |a|
  {
    hide PieceOf, EndOf;
    EndOfNone(s);
    if a == [] {
      assert a + b == b;
    } else {
      EndOfRest(s, a);
      PiecesAppend(f, a[0].off, a[1..], b);
      assert a + b == [a[0]] + (a[1..] + b);
      PiecesCons(f, s, a[0], a[1..] + b);
    }
  }

  lemma {:induction false} PiecesGrow(f: Text, more: Text, s: nat, calls: seq<Call>)
    requires Pieces(f, s, calls)
    ensures Pieces(f + more, s, calls)
    decreases |calls|
  {
    if calls == [] {
    } else {
      var c := calls[0];
      assert (f + more)[s..c.off - 1] == f[s..c.off - 1];
      assert (f + more)[s..c.off] == f[s..c.off];
      PiecesGrow(f, more, c.off, calls[1..]);
    }
  }

  lemma {:induction false} PiecesBounds(f: Text, s: nat, calls: seq<Call>)
    requires Pieces(f, s, calls)
    ensures s <= EndOf(s, calls) && (calls != [] ==> s < EndOf(s, calls) <= |f|)
    decreases |calls|
  {
    if calls == [] {
    } else {
      PiecesBounds(f, calls[0].off, calls[1..]);
    }
  }

  /** One cut of a buffered prefix of the unread file is a piece of the file. */
  lemma CutIsPiece(f: Text, offset: nat, n: nat)
    requires offset + n <= |f| && IndexLF(f[offset..offset + n]) < n
    ensures var partial := f[offset..offset + n];
            var i := IndexLF(partial);
            && PieceOf(f, offset, Call(TrimCR(partial[..i]), offset + i + 1))
            && partial[i + 1..] == f[offset + i + 1..offset + n]
  {
    hide TrimCR, IndexLF;
    var partial := f[offset..offset + n];
    var i := IndexLF(partial);
    SubSlice(f, offset, offset + n, 0, i);
    SubSlice(f, offset, offset + n, i + 1, n);
    assert partial[..i] == partial[0..i];
    assert f[offset + i] == partial[i];
    forall k | offset <= k < offset + i
      ensures f[k] != LF
    {
      assert partial[k - offset] == f[k];
    }
  }

  lemma PiecesCons(f: Text, s: nat, c: Call, calls: seq<Call>)
    requires PieceOf(f, s, c) && Pieces(f, c.off, calls)
    ensures Pieces(f, s, [c] + calls) && EndOf(s, [c] + calls) == EndOf(c.off, calls)
  {
    hide PieceOf;
    assert ([c] + calls)[1..] == calls;
  }

  lemma {:induction false} CutTiles(f: Text, offset: nat, hi: nat)
    requires offset <= hi <= |f|
    ensures var c := Cut(true, offset, f[offset..hi]);
            && Pieces(f, offset, c.calls) && EndOf(offset, c.calls) == c.offset
            && offset <= c.offset <= hi
            && c.rest == f[c.offset..hi] && NoLF(c.rest)
    decreases hi - offset
  {
    hide IndexLF, TrimCR, PieceOf, Pieces, EndOf, Cut, NoLF;
    var partial := f[offset..hi];
    var i := IndexLF(partial);
    CutFirst(true, offset, partial);
    if i == hi - offset {
      NoPieces(f, offset);
      CutRest(true, offset, partial);
    } else {
      CutIsPiece(f, offset, hi - offset);
      var next := offset + i + 1;
      assert partial[i + 1..] == f[next..hi];
      CutTiles(f, next, hi);
      PiecesCons(f, offset, Call(TrimCR(partial[..i]), next), Cut(true, next, f[next..hi]).calls);
    }
  }

  lemma NoPieces(f: Text, s: nat)
    ensures Pieces(f, s, []) && EndOf(s, []) == s
  {
  }

  /** One read of the file up to position `hi`. */
  lemma ReadTiles(f: Text, offset: nat, mid: nat, hi: nat)
    requires offset <= mid <= hi <= |f|
    ensures var c := EmitCalls(true, offset, f[offset..mid], f[mid..hi]);
            && Pieces(f, offset, c.calls) && EndOf(offset, c.calls) == c.offset
            && offset <= c.offset <= hi
            && c.rest == f[c.offset..hi] && |c.rest| <= MAX_LINE_BYTES
  {
    hide IndexLF, TrimCR, Cut, Pieces, EndOf;
    SliceJoin(f, offset, mid, hi);
    var c := Cut(true, offset, f[offset..hi]);
    CutTiles(f, offset, hi);
    if |c.rest| > MAX_LINE_BYTES {
      var last := Call(c.rest, hi);
      CapIsPiece(f, c.offset, hi);
      PiecesAppend(f, offset, c.calls, [last]);
      assert f[hi..hi] == [];
    }
  }

  lemma CapIsPiece(f: Text, s: nat, hi: nat)
    requires s <= hi <= |f| && NoLF(f[s..hi]) && hi - s > MAX_LINE_BYTES
    ensures Pieces(f, s, [Call(f[s..hi], hi)]) && EndOf(s, [Call(f[s..hi], hi)]) == hi
  {
    hide TrimCR;
    NoPieces(f, hi);
    assert [] + [Call(f[s..hi], hi)] == [Call(f[s..hi], hi)];
    assert [Call(f[s..hi], hi)][1..] == [];
  }

  /** However the file is read, and however long its lines are: the pieces handed to the
      processor tile the file from the starting offset, what is left over is the unread
      line, and it never exceeds the cap. */
  lemma {:induction false} EmitTiles(f: Text, offset: nat, mid: nat, hi: nat, chunks: seq<Text>)
    requires offset <= mid <= hi <= |f| && mid - offset <= MAX_LINE_BYTES
    requires Flatten(chunks) == f[mid..hi]
    ensures var c := EmitAll(true, offset, f[offset..mid], chunks);
            && Pieces(f, offset, c.calls) && EndOf(offset, c.calls) == c.offset
            && offset <= c.offset <= hi
            && c.rest == f[c.offset..hi] && |c.rest| <= MAX_LINE_BYTES
    decreases |chunks|
  {
    hide EmitCalls, Pieces, EndOf;
    if chunks == [] {
      NoPieces(f, offset);
      assert |f[mid..hi]| == 0;
    } else {
      var mid' := mid + |chunks[0]|;
      SplitRead(f, mid, hi, chunks);
      var e := EmitCalls(true, offset, f[offset..mid], chunks[0]);
      ReadTiles(f, offset, mid, mid');
      EmitTiles(f, e.offset, mid', hi, chunks[1..]);
      PiecesAppend(f, offset, e.calls, EmitAll(true, e.offset, e.rest, chunks[1..]).calls);
    }
  }

  lemma SplitRead(f: Text, mid: nat, hi: nat, chunks: seq<Text>)
    requires mid <= hi <= |f| && chunks != [] && Flatten(chunks) == f[mid..hi]
    ensures var n := |chunks[0]|;
            && n <= hi - mid && chunks[0] == f[mid..mid + n] && Flatten(chunks[1..]) == f[mid + n..hi]
  {
    var n, more := |chunks[0]|, Flatten(chunks[1..]);
    assert |Flatten(chunks)| == n + |more|;
    SubSlice(f, mid, hi, 0, n);
    SubSlice(f, mid, hi, n, hi - mid);
    assert chunks[0] == (chunks[0] + more)[0..n];
    assert more == (chunks[0] + more)[n..hi - mid];
  }

  function NonBlank(calls: seq<Call>): seq<Call>
  {
    if calls == [] then []
    else if calls[0].line == [] then NonBlank(calls[1..])
    else [calls[0]] + NonBlank(calls[1..])
  }

  lemma {:induction false} NonBlankAppend(a: seq<Call>, b: seq<Call>)
    ensures NonBlank(a + b) == NonBlank(a) + NonBlank(b)
  {
    if a == [] {
      assert a + b == b;
    } else {
      assert (a + b)[1..] == a[1..] + b;
      NonBlankAppend(a[1..], b);
    }
  }

  lemma {:induction false} CutSkipsOnlyBlanks(offset: nat, partial: Text)
    ensures var all := Cut(true, offset, partial);
            Cut(false, offset, partial) == all.(calls := NonBlank(all.calls))
    decreases |partial|
  {
    hide IndexLF, TrimCR;
    var i := IndexLF(partial);
    if i == |partial| {
    } else {
      CutSkipsOnlyBlanks(offset + i + 1, partial[i + 1..]);
      var line, rest := TrimCR(partial[..i]), Cut(true, offset + i + 1, partial[i + 1..]);
      assert ([Call(line, offset + i + 1)] + rest.calls)[1..] == rest.calls;
    }
  }

  lemma ReadSkipsOnlyBlanks(offset: nat, partial: Text, data: Text)
    ensures var all := EmitCalls(true, offset, partial, data);
            EmitCalls(false, offset, partial, data) == all.(calls := NonBlank(all.calls))
  {
    hide IndexLF, TrimCR;
    CutSkipsOnlyBlanks(offset, partial + data);
    var c := Cut(true, offset, partial + data);
    var last := Call(c.rest, c.offset + |c.rest|);
    NonBlankAppend(c.calls, [last]);
    assert [last][1..] == [];
  }

  /** Without aggregation the calls are the same tiling with the blank lines left out. */
  lemma {:induction false} EmitSkipsOnlyBlanks(offset: nat, partial: Text, chunks: seq<Text>)
    ensures var all := EmitAll(true, offset, partial, chunks);
            EmitAll(false, offset, partial, chunks) == all.(calls := NonBlank(all.calls))
    decreases |chunks|
  {
    hide IndexLF, TrimCR;
    if chunks == [] {
    } else {
      ReadSkipsOnlyBlanks(offset, partial, chunks[0]);
      var e := EmitCalls(true, offset, partial, chunks[0]);
      EmitSkipsOnlyBlanks(e.offset, e.rest, chunks[1..]);
      NonBlankAppend(e.calls, EmitAll(true, e.offset, e.rest, chunks[1..]).calls);
    }
  }

  // ---- processor calls and sends ----

  /** The buffer and the messages left by a succession of processor calls. */
  function ProcCalls(r: Rules, p: Pending, calls: seq<Call>, now: int): (Pending, seq<Out>)
  {
    if calls == [] then (p, [])
    else
      var (q, outs) := ProcCalls(r, p, calls[..|calls| - 1], now);
      var c := calls[|calls| - 1];
      var (q', out) := LineSpec(r, q, c.line, c.off, now);
      (q', if out.Some? then outs + [out.value] else outs)
  }

  lemma ProcCallsSnoc(r: Rules, p: Pending, calls: seq<Call>, c: Call, now: int)
    ensures var (q, outs) := ProcCalls(r, p, calls, now);
            var (q', out) := LineSpec(r, q, c.line, c.off, now);
            ProcCalls(r, p, calls + [c], now) ==
            (q', if out.Some? then outs + [out.value] else outs)
  {
    assert (calls + [c])[..|calls|] == calls;
  }

  lemma {:induction false} ProcCallsPrefix(r: Rules, p: Pending, a: seq<Call>, b: seq<Call>, now: int)
    ensures ProcCalls(r, p, a, now).1 <= ProcCalls(r, p, a + b, now).1
  {
    if b == [] {
      assert a + b == a;
    } else {
      assert (a + b)[..|a + b| - 1] == a + b[..|b| - 1];
      ProcCallsPrefix(r, p, a, b[..|b| - 1], now);
    }
  }

  /** What a rotation ships: the unterminated last line, then the buffered aggregate. */
  function RotateSpec(r: Rules, p: Pending, offset: nat, partial: Text, now: int): (Pending, seq<Out>)
  {
    var (q, last) := if partial == [] then (p, None) else LineSpec(r, p, partial, offset + |partial|, now);
    var (q', out) := FlushSpec(r, q, now, true);
    var outs := if last.Some? then [last.value] else [];
    (q', if out.Some? then outs + [out.value] else outs)
  }

  lemma {:induction false} ProcCallsAppend(r: Rules, p: Pending, a: seq<Call>, b: seq<Call>, now: int)
    ensures var (q, outs) := ProcCalls(r, p, a, now);
            var (q', more) := ProcCalls(r, q, b, now);
            ProcCalls(r, p, a + b, now) == (q', outs + more)
  {
    hide LineSpec;
    if b == [] {
      assert a + b == a;
      assert ProcCalls(r, p, a, now).1 + [] == ProcCalls(r, p, a, now).1;
    } else {
      assert (a + b)[..|a + b| - 1] == a + b[..|b| - 1];
      ProcCallsAppend(r, p, a, b[..|b| - 1], now);
      var (q, outs) := ProcCalls(r, p, a, now);
      var (q1, more) := ProcCalls(r, q, b[..|b| - 1], now);
      var out := LineSpec(r, q1, b[|b| - 1].line, b[|b| - 1].off, now).1;
      if out.Some? {
        assert outs + (more + [out.value]) == (outs + more) + [out.value];
      }
    }
  }

  lemma NoCalls(r: Rules, p: Pending, now: int)
    ensures ProcCalls(r, p, [], now) == (p, [])
  {
  }

  class Tailer {
    const src: Source
    const id: string
    const proc: Processor
    var offset: nat
    var partial: Text

    /** The message channel. `room` is how many more sends succeed before the channel
        is full with shutdown requested. */
    var sent: seq<Message>
    var room: nat

    constructor (src: Source, id: string, proc: Processor, offset: nat, room: nat)
      requires proc.rules == src.rules
      ensures this.src == src && this.id == id && this.proc == proc && this.offset == offset
      ensures partial == [] && sent == [] && this.room == room && Valid()
    {
      this.src, this.id, this.proc, this.offset := src, id, proc, offset;
      partial, sent, this.room := [], [], room;
    }

    ghost predicate Valid() { proc.rules == src.rules }

    /** The outcome of trying to send `outs` on a channel that held `before` with `had`
        places left: the channel now holds `now`, with `left` places. */
    ghost predicate Outcome(before: seq<Message>, had: nat, outs: seq<Out>, ok: bool,
                            now: seq<Message>, left: nat)
    {
      if |outs| <= had then ok && left == had - |outs| && now == before + ToMessages(src, id, outs)
      else !ok && left == 0 && now == before + ToMessages(src, id, outs[..had])
    }

    ghost predicate Sent(before: seq<Message>, had: nat, outs: seq<Out>, ok: bool)
      reads this`sent, this`room
    {
      Outcome(before, had, outs, ok, sent, room)
    }

    method Send(out: Out) returns (ok: bool)
      modifies this`sent, this`room
      ensures ok == (old(room) > 0)
      ensures ok ==> sent == old(sent) + [ToMessage(src, id, out)] && room == old(room) - 1
      ensures !ok ==> sent == old(sent) && room == old(room)
    {
      ok := room > 0;
      if ok {
        sent, room := sent + [ToMessage(src, id, out)], room - 1;
      }
    }

    /** Send what the processor released, if anything. */
    method Ship(out: Option<Out>, ghost before: seq<Message>, ghost had: nat, ghost outs: seq<Out>)
      returns (ok: bool)
      requires Sent(before, had, outs, true)
      modifies this`sent, this`room
      ensures Sent(before, had, if out.Some? then outs + [out.value] else outs, ok)
    {
      ok := true;
      if out.Some? {
        ok := Send(out.value);
        ToMessagesSnoc(src, id, outs, out.value);
        assert (outs + [out.value])[..|outs|] == outs;
      }
    }

    /** Feed one line to the processor and send what it releases. */
    method Feed(line: Text, off: nat, now: int, ghost before: seq<Message>, ghost had: nat, ghost outs: seq<Out>)
      returns (ok: bool, ghost more: seq<Out>)
      requires Valid() && Sent(before, had, outs, true)
      modifies this`sent, this`room, proc
      ensures Valid()
      ensures var (p, out) := LineSpec(src.rules, old(proc.State()), line, off, now);
              && proc.State() == p && more == (if out.Some? then outs + [out.value] else outs)
              && Sent(before, had, more, ok)
    {
      hide LineSpec, Outcome, ToMessages;
      var out := proc.Line(line, off, now);
      ok := Ship(out, before, had, outs);
      more := if out.Some? then outs + [out.value] else outs;
    }

    /** Cut every complete line off the buffer and feed it to the processor, until a message
        cannot be sent. */
    method CutLines(now: int) returns (ok: bool)
      requires Valid()
      modifies this, proc
      ensures var c := Cut(Aggregating(src.rules), old(offset), old(partial));
              var (p, outs) := ProcCalls(src.rules, old(proc.State()), c.calls, now);
              && Sent(old(sent), old(room), outs, ok)
              && (ok ==> offset == c.offset && partial == c.rest && proc.State() == p)
    {
      hide LineSpec, TrimCR, ProcCalls, ToMessages, Sent, IndexLF, Cut;
      ghost var agg, r, p0 := Aggregating(src.rules), src.rules, proc.State();
      ghost var c := Cut(agg, offset, partial);
      ghost var done: seq<Call>, outs: seq<Out>, left := [], [], c.calls;
      NoCalls(r, p0, now);
      NothingSent();
      while IndexLF(partial) < |partial|
        invariant Cut(agg, offset, partial) == Cutting(left, c.offset, c.rest)
        invariant c.calls == done + left
        invariant ProcCalls(r, p0, done, now) == (proc.State(), outs)
        invariant Sent(old(sent), old(room), outs, true)
        decreases |partial|
      {
        CutFirst(agg, offset, partial);
        var i := IndexLF(partial);
        var line := TrimCR(partial[..i]);
        offset := offset + i + 1;
        partial := partial[i + 1..];
        if |line| == 0 && src.rules.start.None? {
          continue;
        }
        ghost var call, more := Call(line, offset), Cut(agg, offset, partial).calls;
        Associates(done, [call], more);
        ProcCallsSnoc(r, p0, done, call, now);
        ok, outs := Feed(line, offset, now, old(sent), old(room), outs);
        done, left := done + [call], more;
        if !ok {
          SentStops(r, p0, done, left, c.calls, now, old(sent), old(room));
          return;
        }
      }
      CutFirst(agg, offset, partial);
      assert done == c.calls;
      ok := true;
    }

    method Emit(data: Text, now: int) returns (ok: bool)
      requires Valid()
      modifies this, proc
      ensures var e := EmitCalls(Aggregating(src.rules), old(offset), old(partial), data);
              var (p, outs) := ProcCalls(src.rules, old(proc.State()), e.calls, now);
              && Sent(old(sent), old(room), outs, ok)
              && (ok ==> offset == e.offset && partial == e.rest && proc.State() == p)
    {
      hide LineSpec, ProcCalls, ToMessages, Sent, EmitCalls, Cut;
      ghost var agg, r, p0 := Aggregating(src.rules), src.rules, proc.State();
      ghost var e := EmitCalls(agg, offset, partial, data);
      ghost var capped := CappedCall(agg, offset, partial, data);
      partial := partial + data;
      ghost var c := Cut(agg, offset, partial);
      ghost var outs := ProcCalls(r, p0, c.calls, now).1;
      ok := CutLines(now);
      if !ok {
        SentStops(r, p0, c.calls, capped, e.calls, now, old(sent), old(room));
        return;
      }
      if |partial| > MAX_LINE_BYTES {
        offset := offset + |partial|;
        ProcCallsSnoc(r, p0, c.calls, Call(partial, offset), now);
        ok, outs := Feed(partial, offset, now, old(sent), old(room), outs);
        partial := [];
      } else {
        assert e.calls == c.calls;
      }
    }

    /** The call for an over-long unterminated line, if the read leaves one. */
    lemma CappedCall(agg: bool, offset: nat, partial: Text, data: Text) returns (capped: seq<Call>)
      ensures var c, e := Cut(agg, offset, partial + data), EmitCalls(agg, offset, partial, data);
              && e.calls == c.calls + capped
              && if |c.rest| > MAX_LINE_BYTES then
                   capped == [Call(c.rest, e.offset)] && e.offset == c.offset + |c.rest| && e.rest == []
                 else capped == [] && e == c
    {
      var c := Cut(agg, offset, partial + data);
      capped := if |c.rest| > MAX_LINE_BYTES then [Call(c.rest, c.offset + |c.rest|)] else [];
    }

    /** Read everything currently available. When no line exceeds the cap, the outcome is
        that of one pass over the unread file, whatever the size of the reads. */
    method CatchUp(f: Text, now: int) returns (ok: bool)
      requires Valid()
      requires offset + |partial| <= |f| && partial == f[offset..offset + |partial|]
      requires |partial| <= MAX_LINE_BYTES && NoLF(partial)
      modifies this, proc
      ensures var e := EmitAll(Aggregating(src.rules), old(offset), old(partial),
                               Chunks(f[old(offset) + |old(partial)|..]));
              var (p, outs) := ProcCalls(src.rules, old(proc.State()), e.calls, now);
              && Sent(old(sent), old(room), outs, ok)
              && (ok ==> offset == e.offset && partial == e.rest && proc.State() == p)
              && (ShortLines(f[old(offset)..]) ==>
                    e == Cut(Aggregating(src.rules), old(offset), f[old(offset)..]))
    {
      hide LineSpec, ProcCalls, ToMessages, Outcome, EmitCalls, EmitAll, Chunks, Cut, ShortLines, NoLF;
      ghost var agg, r, p0 := Aggregating(src.rules), src.rules, proc.State();
      var at := offset + |partial|;
      ghost var all := EmitAll(agg, offset, partial, Chunks(f[at..]));
      OnePass(agg, f, offset, at);
      ghost var done: seq<Call> := [];
      NoCalls(r, p0, now);
      NothingSent();
      while at < |f|
        invariant at <= |f|
        invariant var e := EmitAll(agg, offset, partial, Chunks(f[at..]));
                  all == Cutting(done + e.calls, e.offset, e.rest)
        invariant ProcCalls(r, p0, done, now).0 == proc.State()
        invariant Sent(old(sent), old(room), ProcCalls(r, p0, done, now).1, true)
      {
        ghost var was, had, o, b := sent, room, offset, partial;
        var data := f[at..at + Min(READ_CHUNK, |f| - at)];
        ghost var e := EmitCalls(agg, offset, partial, data);
        ghost var more := EmitAll(agg, e.offset, e.rest, Chunks(f[at + |data|..]));
        FirstChunk(agg, f, offset, partial, at);
        assert all.calls == (done + e.calls) + more.calls;
        ProcCallsAppend(r, p0, done, e.calls, now);
        ok := Emit(data, now);
        SentJoin(old(sent), old(room), ProcCalls(r, p0, done, now).1, was, had,
                 ProcCalls(r, ProcCalls(r, p0, done, now).0, e.calls, now).1, ok);
        done := done + e.calls;
        if !ok {
          SentStops(r, p0, done, more.calls, all.calls, now, old(sent), old(room));
          return;
        }
        at := at + |data|;
      }
      NoChunks(agg, f, offset, partial);
      assert done + [] == done;
      ok := true;
    }

    lemma OnePass(agg: bool, f: Text, offset: nat, at: nat)
      requires offset <= at <= |f| && NoLF(f[offset..at])
      ensures ShortLines(f[offset..]) ==>
                EmitAll(agg, offset, f[offset..at], Chunks(f[at..])) == Cut(agg, offset, f[offset..])
    {
      assert f[offset..at] + f[at..] == f[offset..];
      if ShortLines(f[offset..]) {
        ReadBoundariesDoNotMatter(agg, offset, f[offset..at], Chunks(f[at..]));
      }
    }

    lemma FirstChunk(agg: bool, f: Text, offset: nat, partial: Text, at: nat)
      requires at < |f|
      ensures var data := f[at..at + Min(READ_CHUNK, |f| - at)];
              var e, all := EmitCalls(agg, offset, partial, data), EmitAll(agg, offset, partial, Chunks(f[at..]));
              var more := EmitAll(agg, e.offset, e.rest, Chunks(f[at + |data|..]));
              |data| > 0 && all == Cutting(e.calls + more.calls, more.offset, more.rest)
    {
      var n := Min(READ_CHUNK, |f| - at);
      assert f[at..at + n] == f[at..][..n] && f[at + n..] == f[at..][n..];
      assert Chunks(f[at..])[1..] == Chunks(f[at + n..]);
    }

    lemma NoChunks(agg: bool, f: Text, offset: nat, partial: Text)
      ensures EmitAll(agg, offset, partial, Chunks(f[|f|..])) == Cutting([], offset, partial)
    {
      assert f[|f|..] == [];
    }

    /** Two successions of sends in a row are one. */
    lemma SentJoin(before: seq<Message>, had: nat, outs: seq<Out>,
                   was: seq<Message>, left: nat, more: seq<Out>, ok: bool)
      requires Outcome(before, had, outs, true, was, left)
      requires Sent(was, left, more, ok)
      ensures Sent(before, had, outs + more, ok)
    {
      hide ToMessages;
      var sent := if |more| <= left then more else more[..left];
      ToMessagesAppend(src, id, outs, sent);
      Associates(before, ToMessages(src, id, outs), ToMessages(src, id, sent));
      if |more| > left {
        assert (outs + more)[..had] == outs + more[..left];
      }
    }

    lemma NothingSent()
      ensures Sent(sent, room, [], true)
    {
    }

    /** Once a send is refused, what was sent is what the whole succession would have sent. */
    lemma SentStops(r: Rules, p: Pending, done: seq<Call>, more: seq<Call>, all: seq<Call>, now: int,
                    before: seq<Message>, had: nat)
      requires all == done + more
      requires Sent(before, had, ProcCalls(r, p, done, now).1, false)
      ensures Sent(before, had, ProcCalls(r, p, all, now).1, false)
    {
      ProcCallsPrefix(r, p, done, more, now);
      var a, b := ProcCalls(r, p, done, now).1, ProcCalls(r, p, all, now).1;
      assert a[..had] == b[..had];
    }

    /** Ship what is buffered of a file about to disappear, and start over at zero. */
    method Rotate(now: int) returns (ok: bool)
      requires Valid()
      modifies this, proc
      ensures var (p, outs) := RotateSpec(src.rules, old(proc.State()), old(offset), old(partial), now);
              && Sent(old(sent), old(room), outs, ok)
              && (ok ==> offset == 0 && partial == [] && proc.State() == p)
    {
      hide LineSpec, FlushSpec, ToMessages, Sent;
      ghost var outs: seq<Out> := [];
      NothingSent();
      if |partial| > 0 {
        offset := offset + |partial|;
        ghost var first := LineSpec(src.rules, proc.State(), partial, offset, now).1;
        ok, outs := Feed(partial, offset, now, old(sent), old(room), outs);
        assert outs == if first.Some? then [first.value] else [];
        if !ok {
          OneMore(old(sent), old(room), outs, FlushSpec(src.rules, proc.State(), now, true).1);
          return;
        }
        partial := [];
      }
      var out := proc.Flush(now, true);
      ok := Ship(out, old(sent), old(room), outs);
      if ok {
        offset := 0;
      }
    }

    lemma OneMore(before: seq<Message>, had: nat, outs: seq<Out>, out: Option<Out>)
      requires Sent(before, had, outs, false)
      ensures Sent(before, had, if out.Some? then outs + [out.value] else outs, false)
    {
      if out.Some? {
        assert (outs + [out.value])[..had] == outs[..had];
      }
    }
  }
}
