/**
 Sending a process list: the encoders, the frame, the chunks of one send, and the second,
 independent reader that takes the list apart again.
 */
module Collector {
  import opened Basics
  import opened Wire
  import opened Payload

  const COLLECTOR_PROC: byte := 12
  const MAX_PER_MESSAGE: nat := 100

  datatype Info = Info(os: seq<byte>, platform: seq<byte>, totalMemory: i64)

  // ---- encoders ----

  method WriteCommand(c: Command) returns (b: seq<byte>)
    ensures b == EncodeAll(CommandFields(c))
  {
    hide EncodeAll, Str, Uint, Extend;
    var w := new PBuf();
    for i := 0 to |c.args|
      invariant w.Valid() && w.fields == StrAll(1, c.args[..i])
    {
      w.PutStr(1, c.args[i]);
      assert c.args[..i + 1][..i] == c.args[..i];
    }
    assert c.args[..|c.args|] == c.args;
    w.PutStr(3, c.cwd);
    w.PutUint(6, Extend(c.ppid));
    w.PutStr(8, c.exe);
    w.PutStr(9, c.name);
    assert w.fields == CommandFields(c);
    b := w.b;
  }

  method WriteUser(u: User) returns (b: seq<byte>)
    ensures b == EncodeAll(UserFields(u))
  {
    hide EncodeAll, Str, Uint, Unsigned32;
    var w := new PBuf();
    w.PutStr(1, u.name);
    w.PutUint(2, Unsigned32(u.uid));
    w.PutUint(3, Unsigned32(u.gid));
    assert w.fields == UserFields(u);
    b := w.b;
  }

  method WriteMemory(m: Memory) returns (b: seq<byte>)
    ensures b == EncodeAll(MemoryFields(m))
  {
    hide EncodeAll, Uint;
    var w := new PBuf();
    w.PutUint(1, m.rss);
    w.PutUint(2, m.vms);
    w.PutUint(3, m.swap);
    w.PutUint(4, m.shared);
    assert w.fields == MemoryFields(m);
    b := w.b;
  }

  method WriteCPU(c: CPU) returns (b: seq<byte>)
    ensures b == EncodeAll(CPUFields(c))
  {
    hide EncodeAll, Uint, F32, Extend, Seconds;
    var w := new PBuf();
    w.PutF32(2, c.totalPct);
    w.PutF32(3, c.userPct);
    w.PutF32(4, c.systemPct);
    w.PutUint(5, Extend(c.threads));
    w.PutUint(8, Seconds(c.userTime));
    w.PutUint(9, Seconds(c.systemTime));
    ghost var f2, f3, f4 := F32(2, c.totalPct), F32(3, c.userPct), F32(4, c.systemPct);
    ghost var f5, f8, f9 := Uint(5, Extend(c.threads)), Uint(8, Seconds(c.userTime)), Uint(9, Seconds(c.systemTime));
    assert [] + f2 == f2;
    Regroup(f2 + f3, f4, f5, f8, f9);
    Associates(f2, f3, f4 + (f5 + (f8 + f9)));
    b := w.b;
  }

  method WriteIO(io: IO) returns (b: seq<byte>)
    ensures b == EncodeAll(IOFields(io))
  {
    hide EncodeAll, F32;
    var w := new PBuf();
    w.PutF32(1, io.readRate);
    w.PutF32(2, io.writeRate);
    w.PutF32(3, io.readBytesRate);
    w.PutF32(4, io.writeBytesRate);
    assert w.fields == IOFields(io);
    b := w.b;
  }

  method WriteProcess(p: Proc) returns (b: seq<byte>)
    ensures b == EncodeProcess(p)
  {
    hide EncodeAll, Uint, Str, Extend, CommandFields, UserFields, MemoryFields, CPUFields, IOFields, TailFields;
    var command := WriteCommand(p.command);
    var user := WriteUser(p.user);
    var memory := WriteMemory(p.memory);
    var cpu := WriteCPU(p.cpu);
    var io := WriteIO(p.io);
    var w := new PBuf();
    w.PutUint(2, Extend(p.pid));
    w.PutMsg(4, command);
    w.PutMsg(5, user);
    w.PutMsg(7, memory);
    w.PutMsg(8, cpu);
    ghost var head := w.fields;
    WriteTail(w, p, io);
    var f4, f5, f7, f8 := Str(4, command), Str(5, user), Str(7, memory), Str(8, cpu);
    assert head == (((Uint(2, Extend(p.pid)) + f4) + f5) + f7) + f8;
    Regroup(Uint(2, Extend(p.pid)), f4, f5, f7, f8);
    ProcessFieldsAre(p, f4, f5, f7, f8);
    b := w.b;
  }

  /** The fields of a process message from number 9 on. */
  method WriteTail(w: PBuf, p: Proc, io: seq<byte>)
    requires w.Valid() && io == EncodeAll(IOFields(p.io))
    modifies w
    ensures w.Valid() && w.fields == old(w.fields) + TailFields(p)
  {
    hide EncodeAll, Uint, Str, Extend, IOFields;
    ghost var was := w.fields;
    w.PutUint(9, Extend(p.createTime));
    w.PutUint(11, Extend(p.openFd));
    w.PutUint(12, Extend(p.state));
    w.PutMsg(13, io);
    ghost var f9, f11, f12, f13 :=
      Uint(9, Extend(p.createTime)), Uint(11, Extend(p.openFd)), Uint(12, Extend(p.state)), Str(13, io);
    Regroup(was, f9, f11, f12, f13);
    ghost var mid := w.fields;
    w.PutUint(16, p.voluntary);
    w.PutUint(17, p.involuntary);
    w.PutUint(20, Extend(p.nsPid));
    ghost var f16, f17, f20 := Uint(16, p.voluntary), Uint(17, p.involuntary), Uint(20, Extend(p.nsPid));
    assert w.fields == mid + (f16 + (f17 + f20));
    assert (f9 + (f11 + (f12 + f13))) + (f16 + (f17 + f20)) == TailFields(p);
  }

  lemma ProcessFieldsAre(p: Proc, f4: seq<Field>, f5: seq<Field>, f7: seq<Field>, f8: seq<Field>)
    requires f4 == Str(4, EncodeAll(CommandFields(p.command))) && f5 == Str(5, EncodeAll(UserFields(p.user)))
    requires f7 == Str(7, EncodeAll(MemoryFields(p.memory))) && f8 == Str(8, EncodeAll(CPUFields(p.cpu)))
    ensures (Uint(2, Extend(p.pid)) + (f4 + (f5 + (f7 + f8)))) + TailFields(p) == ProcessFields(p)
  {
    hide EncodeAll, CommandFields, UserFields, MemoryFields, CPUFields, Uint, Str, Extend, IOFields;
    var f2, t := Uint(2, Extend(p.pid)), TailFields(p);
    assert ProcessFields(p) == f2 + (f4 + (f5 + (f7 + (f8 + t))));
  }

  function InfoFields(info: Info): seq<Field>
  {
    Str(2, EncodeAll(Str(1, info.os) + Str(2, info.platform))) + Uint(5, Extend(info.totalMemory))
  }

  function ProcMessages(procs: seq<Proc>): seq<Field>
  {
    if procs == [] then []
    else ProcMessages(procs[..|procs| - 1]) + Str(3, EncodeProcess(procs[|procs| - 1]))
  }

  /** One chunk: the host, the processes, the system, and the group it belongs to. */
  function ChunkFields(host: seq<byte>, info: Info, procs: seq<Proc>, groupID: i32, groupSize: i32): seq<Field>
  {
    Str(2, host) + (ProcMessages(procs) +
    (Str(5, EncodeAll(InfoFields(info))) + (Uint(6, Unsigned32(groupID)) + Uint(7, Unsigned32(groupSize)))))
  }

  method WriteInfo(info: Info) returns (b: seq<byte>)
    ensures b == EncodeAll(InfoFields(info))
  {
    hide EncodeAll, Uint, Str, Extend;
    var os := new PBuf();
    os.PutStr(1, info.os);
    os.PutStr(2, info.platform);
    assert os.fields == Str(1, info.os) + Str(2, info.platform);
    var w := new PBuf();
    w.PutMsg(2, os.b);
    w.PutUint(5, Extend(info.totalMemory));
    assert w.fields == InfoFields(info);
    b := w.b;
  }

  method WriteChunk(host: seq<byte>, info: Info, procs: seq<Proc>, groupID: i32, groupSize: i32) returns (b: seq<byte>)
    ensures b == EncodeAll(ChunkFields(host, info, procs, groupID, groupSize))
  {
    hide EncodeAll, EncodeProcess, Uint, Str, Unsigned32, InfoFields;
    var w := new PBuf();
    w.PutStr(2, host);
    for i := 0 to |procs|
      invariant w.Valid() && w.fields == Str(2, host) + ProcMessages(procs[..i])
    {
      var body := WriteProcess(procs[i]);
      w.PutMsg(3, body);
      assert procs[..i + 1][..i] == procs[..i];
    }
    assert procs[..|procs|] == procs;
    var system := WriteInfo(info);
    w.PutMsg(5, system);
    w.PutUint(6, Unsigned32(groupID));
    w.PutUint(7, Unsigned32(groupSize));
    assert w.fields == ChunkFields(host, info, procs, groupID, groupSize);
    b := w.b;
  }

  // ---- the frame ----

  function Frame(typ: byte, body: seq<byte>): seq<byte>
  {
    [3, 0, typ, 0, 0, 0, 0, 0, 0, 0, 0, 0, 0, 0, 0, 0] + body
  }

  datatype Framed = Framed(typ: byte, body: seq<byte>)

  function Unframe(b: seq<byte>): Option<Framed>
  {
    if |b| < 16 then None else Some(Framed(b[2], b[16..]))
  }

  lemma FrameRoundTrip(typ: byte, body: seq<byte>)
    ensures Unframe(Frame(typ, body)) == Some(Framed(typ, body))
  {
    assert Frame(typ, body)[16..] == body;
  }

  /** Writes into an allocated slice. */
  method WriteFrame(typ: byte, body: seq<byte>) returns (framed: seq<byte>)
    ensures framed == Frame(typ, body)
  {
    var out := new byte[16 + |body|](_ => 0);
    out[0] := 3;
    out[1] := 0;
    out[2] := typ;
    for i := 0 to |body|
      invariant out[..16] == Frame(typ, [])
      invariant out[16..16 + i] == body[..i]
    {
      out[16 + i] := body[i];
      assert out[16..16 + (i + 1)] == out[16..16 + i] + [body[i]];
    }
    assert out[..] == out[..16] + out[16..16 + |body|];
    framed := out[..];
  }

  // ---- the second reader ----

  /** The varint of the second reader: the position is shared with its caller. */
  method WalkVarint(b: seq<byte>, at: nat) returns (v: nat, ok: bool, i: nat)
    requires at <= |b|
    ensures var s := Varint(b, at, 0, 0);
            i == s.i && ok == s.val.Some? && (ok ==> v == s.val.value)
  {
    i, v := at, 0;
    var shift := 0;
    while i < |b|
      invariant i <= |b| && Varint(b, at, 0, 0) == Varint(b, i, shift, v)
      decreases |b| - i
    {
      var c := b[i];
      i := i + 1;
      v := v + (c % 128) * Pow2(shift) % TWO64;
      if c < 128 {
        return v, true, i;
      }
      if shift >= 63 {
        return 0, false, i;
      }
      shift := shift + 7;
    }
    return 0, false, i;
  }

  /** One turn of the second reader's loop: the field passed on, if any. */
  method WalkField(b: seq<byte>, at: nat) returns (f: Option<Field>, i: nat)
    requires at <= |b|
    ensures Read(i, f) == Next(b, at)
  {
    hide Varint;
    var tag, ok;
    tag, ok, i := WalkVarint(b, at);
    if !ok {
      return None, i;
    }
    var num, wire := tag / 8, tag % 8;
    if wire == 0 {
      var v;
      v, ok, i := WalkVarint(b, i);
      return if ok then Some(VarintField(num, v)) else None, i;
    } else if wire == 1 {
      if i + 8 > |b| {
        return None, i;
      }
      return Some(Fixed64(num, b[i..i + 8])), i + 8;
    } else if wire == 2 {
      var n;
      n, ok, i := WalkVarint(b, i);
      if !ok || n > |b| - i {
        return None, i;
      }
      return Some(Bytes(num, b[i..i + n])), i + n;
    } else if wire == 5 {
      if i + 4 > |b| {
        return None, i;
      }
      return Some(Fixed32(num, b[i..i + 4])), i + 4;
    } else {
      return None, i;
    }
  }

  /** The second reader visits exactly the fields the first one returns, on every byte
      string, well formed or not. */
  method Walk(b: seq<byte>) returns (visited: seq<Field>)
    ensures visited == Fields(b, 0)
  {
    hide Varint, Next;
    visited := [];
    var i := 0;
    while i < |b|
      invariant i <= |b| && Fields(b, 0) == visited + Fields(b, i)
      decreases |b| - i
    {
      ghost var before := i;
      var f;
      f, i := WalkField(b, i);
      if f.None? {
        return;
      }
      assert visited + ([f.value] + Fields(b, i)) == (visited + [f.value]) + Fields(b, i);
      visited := visited + [f.value];
    }
    EndOfFields(b);
  }

  /** The data of the last length-delimited field with this number, or `prior`. */
  function LastBytes(fs: seq<Field>, num: nat, prior: seq<byte>): seq<byte>
  {
    if fs == [] then prior
    else
      var f := fs[|fs| - 1];
      if f.Bytes? && f.num == num then f.data else LastBytes(fs[..|fs| - 1], num, prior)
  }

  /** The command name of a process message, by the second reader. */
  function Comm(fs: seq<Field>): seq<byte>
  {
    if fs == [] then []
    else
      var f, prior := fs[|fs| - 1], Comm(fs[..|fs| - 1]);
      if f.Bytes? && f.num == 4 then LastBytes(Fields(f.data, 0), 9, prior) else prior
  }

  datatype Listing = Listing(count: nat, names: seq<seq<byte>>)

  function List(fs: seq<Field>): Listing
  {
    if fs == [] then Listing(0, [])
    else
      var f, l := fs[|fs| - 1], List(fs[..|fs| - 1]);
      if f.Bytes? && f.num == 3 then
        var name := Comm(Fields(f.data, 0));
        Listing(l.count + 1, if name == [] then l.names else l.names + [name])
      else l
  }

  method ReadComm(proc: seq<byte>) returns (comm: seq<byte>)
    ensures comm == Comm(Fields(proc, 0))
  {
    hide Fields, LastBytes;
    comm := [];
    var outer := Walk(proc);
    for i := 0 to |outer|
      invariant comm == Comm(outer[..i])
    {
      assert outer[..i + 1][..i] == outer[..i];
      if outer[i].Bytes? && outer[i].num == 4 {
        comm := ReadName(outer[i].data, comm);
      }
    }
    assert outer[..|outer|] == outer;
  }

  method ReadName(command: seq<byte>, prior: seq<byte>) returns (comm: seq<byte>)
    ensures comm == LastBytes(Fields(command, 0), 9, prior)
  {
    hide Fields;
    comm := prior;
    var inner := Walk(command);
    for j := 0 to |inner|
      invariant comm == LastBytes(inner[..j], 9, prior)
    {
      assert inner[..j + 1][..j] == inner[..j];
      if inner[j].Bytes? && inner[j].num == 9 {
        comm := inner[j].data;
      }
    }
    assert inner[..|inner|] == inner;
  }

  method ReadList(body: seq<byte>) returns (count: nat, names: seq<seq<byte>>)
    ensures Listing(count, names) == List(Fields(body, 0))
  {
    hide Fields, Comm;
    count, names := 0, [];
    var fs := Walk(body);
    for i := 0 to |fs|
      invariant Listing(count, names) == List(fs[..i])
    {
      assert fs[..i + 1][..i] == fs[..i];
      if fs[i].Bytes? && fs[i].num == 3 {
        count := count + 1;
        var name := ReadComm(fs[i].data);
        if name != [] {
          names := names + [name];
        }
      }
    }
    assert fs[..|fs|] == fs;
  }

  // ---- one send ----

  function Chunk(ps: seq<Proc>, n: nat): (chunks: seq<seq<Proc>>)
    requires n > 0
    ensures Flatten(chunks) == ps
    ensures forall k | 0 <= k < |chunks| :: 0 < |chunks[k]| <= n
    decreases |ps|
  {
    if ps == [] then []
    else
      var m := Min(n, |ps|);
      assert ps == ps[..m] + ps[m..];
      [ps[..m]] + Chunk(ps[m..], n)
  }

  function ChunkBody(host: seq<byte>, info: Info, procs: seq<Proc>, groupID: i32, chunks: nat): seq<byte>
  {
    EncodeAll(ChunkFields(host, info, procs, groupID, ToI32(chunks)))
  }

  /** The framed messages of one send. */
  function SendFrames(host: seq<byte>, info: Info, chunks: seq<seq<Proc>>, groupID: i32, size: nat): seq<seq<byte>>
  {
    if chunks == [] then []
    else SendFrames(host, info, chunks[..|chunks| - 1], groupID, size) +
         [Frame(COLLECTOR_PROC, ChunkBody(host, info, chunks[|chunks| - 1], groupID, size))]
  }

  /** One more chunk is cut from position `i`. */
  lemma ChunkAt(ps: seq<Proc>, n: nat, i: nat, m: nat)
    requires n > 0 && i < |ps| && m == Min(i + n, |ps|)
    ensures i < m && Chunk(ps[i..], n) == [ps[i..m]] + Chunk(ps[m..], n)
  {
    hide Flatten;
    var rest := ps[i..];
    assert rest[..m - i] == ps[i..m] && rest[m - i..] == ps[m..];
  }

  lemma ChunkEnd(ps: seq<Proc>, n: nat, chunks: seq<seq<Proc>>)
    requires n > 0
    ensures chunks + Chunk(ps[|ps|..], n) == chunks
  {
    hide Flatten;
  }

  method ChunkLoop(ps: seq<Proc>, n: nat) returns (chunks: seq<seq<Proc>>)
    requires n > 0
    ensures chunks == Chunk(ps, n)
  {
    chunks := [];
    var i := 0;
    hide Flatten, Chunk;
    assert ps[0..] == ps;
    while i < |ps|
      invariant i <= |ps| && Chunk(ps, n) == chunks + Chunk(ps[i..], n)
    {
      var m := Min(i + n, |ps|);
      ChunkAt(ps, n, i, m);
      assert chunks + ([ps[i..m]] + Chunk(ps[m..], n)) == (chunks + [ps[i..m]]) + Chunk(ps[m..], n);
      chunks := chunks + [ps[i..m]];
      i := m;
    }
    ChunkEnd(ps, n, chunks);
  }

  method Send(host: seq<byte>, info: Info, ps: seq<Proc>, groupID: i32) returns (frames: seq<seq<byte>>)
    ensures var chunks := Chunk(ps, MAX_PER_MESSAGE);
            frames == SendFrames(host, info, chunks, groupID, |chunks|)
  {
    hide ChunkFields;
    frames := [];
    var chunks := ChunkLoop(ps, MAX_PER_MESSAGE);
    for i := 0 to |chunks|
      invariant frames == SendFrames(host, info, chunks[..i], groupID, |chunks|)
    {
      var body := WriteChunk(host, info, chunks[i], groupID, ToI32(|chunks|));
      var framed := WriteFrame(COLLECTOR_PROC, body);
      assert chunks[..i + 1][..i] == chunks[..i];
      frames := frames + [framed];
    }
    assert chunks[..|chunks|] == chunks;
  }

  // ---- what the second reader makes of one message ----

  ghost predicate Without(fs: seq<Field>, num: nat)
  {
    forall k | 0 <= k < |fs| :: fs[k].num != num
  }

  lemma {:induction false} LastBytesSkips(fs: seq<Field>, more: seq<Field>, num: nat, prior: seq<byte>)
    requires Without(more, num)
    ensures LastBytes(fs + more, num, prior) == LastBytes(fs, num, prior)
  {
    if more == [] {
      assert fs + more == fs;
    } else {
      assert (fs + more)[..|fs + more| - 1] == fs + more[..|more| - 1];
      LastBytesSkips(fs, more[..|more| - 1], num, prior);
    }
  }

  lemma {:induction false} ArgsWithout(args: seq<seq<byte>>, num: nat)
    requires num != 1
    ensures Without(StrAll(1, args), num)
  {
    if args == [] {
    } else {
      ArgsWithout(args[..|args| - 1], num);
    }
  }

  lemma NameIsLast(c: Command)
    ensures LastBytes(CommandFields(c), 9, []) == c.name
  {
    hide StrAll, Extend;
    var a, f3, f6, f8, f9 := StrAll(1, c.args), Str(3, c.cwd), Uint(6, Extend(c.ppid)), Str(8, c.exe), Str(9, c.name);
    ArgsWithout(c.args, 9);
    var front := a + (f3 + (f6 + f8));
    assert CommandFields(c) == front + f9;
    assert Without(front, 9);
    assert [] + front == front;
    LastBytesSkips([], front, 9, []);
    if f9 != [] {
      assert (front + f9)[..|front + f9| - 1] == front;
    } else {
      assert front + f9 == front;
    }
  }

  lemma {:induction false} CommSkips(fs: seq<Field>, more: seq<Field>)
    requires Without(more, 4)
    ensures Comm(fs + more) == Comm(fs)
  {
    if more == [] {
      assert fs + more == fs;
    } else {
      assert (fs + more)[..|fs + more| - 1] == fs + more[..|more| - 1];
      CommSkips(fs, more[..|more| - 1]);
    }
  }

  lemma WithoutJoin(a: seq<Field>, b: seq<Field>, num: nat)
    requires Without(a, num) && Without(b, num)
    ensures Without(a + b, num)
  {
  }

  lemma WithoutOne(num: nat, v: nat, s: seq<byte>, other: nat)
    requires num != other
    ensures Without(Uint(num, v), other) && Without(Str(num, s), other)
  {
  }

  lemma TailWithout(p: Proc)
    ensures Without(TailFields(p), 4)
  {
    hide Extend, EncodeAll, IOFields, Uint, Str, Without;
    var f9, f11, f12, f13 := Uint(9, Extend(p.createTime)), Uint(11, Extend(p.openFd)), Uint(12, Extend(p.state)),
      Str(13, EncodeAll(IOFields(p.io)));
    var f16, f17, f20 := Uint(16, p.voluntary), Uint(17, p.involuntary), Uint(20, Extend(p.nsPid));
    WithoutOne(9, Extend(p.createTime), [], 4);
    WithoutOne(11, Extend(p.openFd), [], 4);
    WithoutOne(12, Extend(p.state), [], 4);
    WithoutOne(13, 0, EncodeAll(IOFields(p.io)), 4);
    WithoutOne(16, p.voluntary, [], 4);
    WithoutOne(17, p.involuntary, [], 4);
    WithoutOne(20, Extend(p.nsPid), [], 4);
    WithoutJoin(f17, f20, 4);
    WithoutJoin(f16, f17 + f20, 4);
    WithoutJoin(f13, f16 + (f17 + f20), 4);
    WithoutJoin(f12, f13 + (f16 + (f17 + f20)), 4);
    WithoutJoin(f11, f12 + (f13 + (f16 + (f17 + f20))), 4);
    WithoutJoin(f9, f11 + (f12 + (f13 + (f16 + (f17 + f20)))), 4);
  }

  /** A process message is its pid and command, then fields with other numbers. */
  lemma CommandComesSecond(p: Proc) returns (rest: seq<Field>)
    ensures ProcessFields(p) == (Uint(2, Extend(p.pid)) + Str(4, EncodeAll(CommandFields(p.command)))) + rest
    ensures Without(rest, 4)
  {
    hide Extend, EncodeAll, CommandFields, UserFields, MemoryFields, CPUFields, IOFields, Uint, Str, Without,
      TailFields;
    var user, memory, cpu := EncodeAll(UserFields(p.user)), EncodeAll(MemoryFields(p.memory)),
      EncodeAll(CPUFields(p.cpu));
    WithoutOne(5, 0, user, 4);
    WithoutOne(7, 0, memory, 4);
    WithoutOne(8, 0, cpu, 4);
    TailWithout(p);
    var f5, f7, f8 := Str(5, user), Str(7, memory), Str(8, cpu);
    WithoutJoin(f8, TailFields(p), 4);
    WithoutJoin(f7, f8 + TailFields(p), 4);
    rest := f5 + (f7 + (f8 + TailFields(p)));
    WithoutJoin(f5, f7 + (f8 + TailFields(p)), 4);
    var f2, f4 := Uint(2, Extend(p.pid)), Str(4, EncodeAll(CommandFields(p.command)));
    ProcessFieldsAre(p, f4, f5, f7, f8);
    assert (f2 + (f4 + (f5 + (f7 + f8)))) + TailFields(p) == (f2 + f4) + rest;
  }

  /** The second reader finds the command name of every encoded process. */
  lemma CommOfProcess(p: Proc)
    requires Fits(p)
    ensures Comm(Fields(EncodeProcess(p), 0)) == p.command.name
  {
    ProcessWritable(p);
    BodyReads(ProcessFields(p));
    CommandWritable(p.command);
    BodyReads(CommandFields(p.command));
    hide EncodeAll, CommandFields, ProcessFields, Extend, Fits, Fields, Comm, AllWritable;
    var f2, f4 := Uint(2, Extend(p.pid)), Str(4, EncodeAll(CommandFields(p.command)));
    var rest := CommandComesSecond(p);
    CommSkips(f2 + f4, rest);
    WithoutOne(2, Extend(p.pid), [], 4);
    CommOfFront(f2, f4, p.command);
  }

  lemma CommOfFront(f2: seq<Field>, f4: seq<Field>, c: Command)
    requires Without(f2, 4) && f4 == Str(4, EncodeAll(CommandFields(c)))
    requires Fields(EncodeAll(CommandFields(c)), 0) == CommandFields(c)
    ensures Comm(f2 + f4) == c.name
  {
    hide EncodeAll, CommandFields, Fields, LastBytes;
    NameIsLast(c);
    CommSkips([], f2);
    assert [] + f2 == f2;
    if f4 == [] {
      EncodingNonEmpty(CommandFields(c));
      assert f2 + f4 == f2;
      assert LastBytes([], 9, []) == [] by {
        NothingLast();
      }
    } else {
      assert (f2 + f4)[..|f2 + f4| - 1] == f2;
    }
  }

  lemma NothingLast()
    ensures LastBytes([], 9, []) == []
  {
  }

  lemma {:induction false} ListAppend(a: seq<Field>, b: seq<Field>)
    ensures var x, y := List(a), List(b);
            List(a + b) == Listing(x.count + y.count, x.names + y.names)
  {
    hide Comm, Fields;
    if b == [] {
      assert a + b == a && List(a).names + [] == List(a).names;
    } else {
      assert (a + b)[..|a + b| - 1] == a + b[..|b| - 1];
      ListAppend(a, b[..|b| - 1]);
      var f := b[|b| - 1];
      if f.Bytes? && f.num == 3 {
        var name := Comm(Fields(f.data, 0));
        var x, y := List(a), List(b[..|b| - 1]);
        assert x.names + (y.names + [name]) == (x.names + y.names) + [name];
      }
    }
  }

  lemma {:induction false} ListSkips(fs: seq<Field>)
    requires Without(fs, 3)
    ensures List(fs) == Listing(0, [])
  {
    if fs == [] {
    } else {
      ListSkips(fs[..|fs| - 1]);
    }
  }

  // ---- reassembly ----

  /** The processes that are written at all, and the names among them that are not empty. */
  function Written(ps: seq<Proc>): nat
  {
    if ps == [] then 0
    else Written(ps[..|ps| - 1]) + if EncodeProcess(ps[|ps| - 1]) == [] then 0 else 1
  }

  function Names(ps: seq<Proc>): seq<seq<byte>>
  {
    if ps == [] then []
    else
      var name := ps[|ps| - 1].command.name;
      Names(ps[..|ps| - 1]) + if name == [] then [] else [name]
  }

  ghost predicate ChunkFits(host: seq<byte>, info: Info, ps: seq<Proc>)
  {
    && |host| < TWO64 && |EncodeAll(InfoFields(info))| < TWO64
    && forall k | 0 <= k < |ps| :: Fits(ps[k]) && |EncodeProcess(ps[k])| < TWO64
  }

  /** A process with a non-zero pid is always written; one with a name too. */
  lemma WrittenWhen(p: Proc)
    ensures p.pid != 0 || p.command.name != [] ==> EncodeProcess(p) != []
  {
    Int32RoundTrip(p.pid);
    EncodingNonEmpty(ProcessFields(p));
    EncodingNonEmpty(CommandFields(p.command));
    hide EncodeAll, UserFields, MemoryFields, CPUFields, IOFields, Extend, StrAll;
    if p.command.name != [] {
      assert CommandFields(p.command) != [];
    }
  }

  lemma {:induction false} ListOfProcs(ps: seq<Proc>)
    requires forall k | 0 <= k < |ps| :: Fits(ps[k])
    ensures List(ProcMessages(ps)) == Listing(Written(ps), Names(ps))
  {
    hide Fits, EncodeProcess, Comm, Fields;
    if ps == [] {
    } else {
      var before, p := ps[..|ps| - 1], ps[|ps| - 1];
      ListOfProcs(before);
      CommOfProcess(p);
      WrittenWhen(p);
      var last := Str(3, EncodeProcess(p));
      ListAppend(ProcMessages(before), last);
      if last != [] {
        assert last[..0] == [];
        ListSkips([]);
        assert [] + [p.command.name] == [p.command.name];
      } else {
        ListSkips([]);
      }
    }
  }

  lemma {:induction false} ProcMessagesWritable(ps: seq<Proc>)
    requires forall k | 0 <= k < |ps| :: |EncodeProcess(ps[k])| < TWO64
    ensures AllWritable(ProcMessages(ps))
  {
    hide EncodeProcess, AllWritable;
    if ps == [] {
      NoneWritable();
    } else {
      ProcMessagesWritable(ps[..|ps| - 1]);
      WritableOne(3, 0, EncodeProcess(ps[|ps| - 1]), 0);
      WritableJoin(ProcMessages(ps[..|ps| - 1]), Str(3, EncodeProcess(ps[|ps| - 1])));
    }
  }

  /** The second reader's listing of one chunk. */
  lemma ListOfChunk(host: seq<byte>, info: Info, ps: seq<Proc>, groupID: i32, size: nat)
    requires ChunkFits(host, info, ps)
    ensures List(Fields(ChunkBody(host, info, ps, groupID, size), 0)) == Listing(Written(ps), Names(ps))
  {
    hide EncodeAll, InfoFields, EncodeProcess, AllWritable, Unsigned32, Fields, ToI32, Fits, ProcMessages, List;
    var gs := ToI32(size);
    var f2, procs, f5 := Str(2, host), ProcMessages(ps), Str(5, EncodeAll(InfoFields(info)));
    var f6, f7 := Uint(6, Unsigned32(groupID)), Uint(7, Unsigned32(gs));
    WritableOne(2, 0, host, 0);
    WritableOne(5, 0, EncodeAll(InfoFields(info)), 0);
    WritableOne(6, Unsigned32(groupID), [], 0);
    WritableOne(7, Unsigned32(gs), [], 0);
    ProcMessagesWritable(ps);
    WritableJoin(f6, f7);
    WritableJoin(f5, f6 + f7);
    WritableJoin(procs, f5 + (f6 + f7));
    WritableJoin(f2, procs + (f5 + (f6 + f7)));
    BodyReads(ChunkFields(host, info, ps, groupID, gs));
    ListAppend(f2, procs + (f5 + (f6 + f7)));
    ListAppend(procs, f5 + (f6 + f7));
    ListSkips(f2);
    ListSkips(f5 + (f6 + f7));
    ListOfProcs(ps);
    assert [] + (Names(ps) + []) == Names(ps);
  }

  /** Reading the frames of a send one after the other. */
  function Reassembled(frames: seq<seq<byte>>): Listing
  {
    if frames == [] then Listing(0, [])
    else
      var l, u := Reassembled(frames[..|frames| - 1]), Unframe(frames[|frames| - 1]);
      if u.None? || u.value.typ != COLLECTOR_PROC then l
      else
        var m := List(Fields(u.value.body, 0));
        Listing(l.count + m.count, l.names + m.names)
  }

  lemma {:induction false} FramesReassemble(host: seq<byte>, info: Info, chunks: seq<seq<Proc>>, groupID: i32,
                                            size: nat)
    requires forall k | 0 <= k < |chunks| :: ChunkFits(host, info, chunks[k])
    ensures Reassembled(SendFrames(host, info, chunks, groupID, size)) ==
            Listing(Written(Flatten(chunks)), Names(Flatten(chunks)))
  {
    hide ChunkFits, ChunkBody, List, Fields, Frame, Unframe, Written, Names;
    if chunks == [] {
      NothingWritten();
    } else {
      var before, last := chunks[..|chunks| - 1], chunks[|chunks| - 1];
      FramesReassemble(host, info, before, groupID, size);
      ListOfChunk(host, info, last, groupID, size);
      FrameRoundTrip(COLLECTOR_PROC, ChunkBody(host, info, last, groupID, size));
      assert before + [last] == chunks;
      FlattenSnoc(before, last);
      WrittenAppend(Flatten(before), last);
      var frames := SendFrames(host, info, chunks, groupID, size);
      assert frames[..|frames| - 1] == SendFrames(host, info, before, groupID, size);
    }
  }

  lemma NothingWritten()
    ensures Written([]) == 0 && Names([]) == []
  {
  }

  lemma {:induction false} WrittenAppend(a: seq<Proc>, b: seq<Proc>)
    ensures Written(a + b) == Written(a) + Written(b) && Names(a + b) == Names(a) + Names(b)
  {
    hide EncodeProcess;
    if b == [] {
      assert a + b == a;
    } else {
      assert (a + b)[..|a + b| - 1] == a + b[..|b| - 1];
      WrittenAppend(a, b[..|b| - 1]);
    }
  }

  lemma {:induction false} WrittenAll(ps: seq<Proc>)
    ensures Written(ps) <= |ps|
    ensures Written(ps) == |ps| <==> forall k | 0 <= k < |ps| :: EncodeProcess(ps[k]) != []
  {
    hide EncodeProcess;
    if ps == [] {
    } else {
      var before := ps[..|ps| - 1];
      WrittenAll(before);
      if forall k | 0 <= k < |ps| :: EncodeProcess(ps[k]) != [] {
        assert forall k | 0 <= k < |before| :: before[k] == ps[k];
      }
      if Written(ps) == |ps| {
        assert forall k | 0 <= k < |before| :: EncodeProcess(before[k]) != [] && before[k] == ps[k];
      }
    }
  }

  /** Frame `k` of a send carries chunk `k` and, where it fits 32 bits, ends with the number of
      frames that belong together. */
  ghost predicate FrameOf(frame: seq<byte>, chunk: seq<Proc>, size: nat)
  {
    var u := Unframe(frame);
    && u.Some? && u.value.typ == COLLECTOR_PROC
    && (var fs := Fields(u.value.body, 0);
        && List(fs) == Listing(Written(chunk), Names(chunk))
        && (0 < size < 0x8000_0000 ==> |fs| > 0 && fs[|fs| - 1] == VarintField(7, size)))
  }

  lemma FrameIsOf(host: seq<byte>, info: Info, ps: seq<Proc>, groupID: i32, size: nat)
    requires ChunkFits(host, info, ps)
    ensures FrameOf(Frame(COLLECTOR_PROC, ChunkBody(host, info, ps, groupID, size)), ps, size)
  {
    hide ChunkFits, ChunkBody, Frame, Unframe, Fields, List, Written, Names;
    var body := ChunkBody(host, info, ps, groupID, size);
    FrameRoundTrip(COLLECTOR_PROC, body);
    ListOfChunk(host, info, ps, groupID, size);
    if 0 < size < 0x8000_0000 {
      GroupSizeIsWritten(host, info, ps, groupID, size);
    }
  }

  lemma {:induction false} FramesAre(host: seq<byte>, info: Info, chunks: seq<seq<Proc>>, groupID: i32, size: nat)
    requires forall k | 0 <= k < |chunks| :: ChunkFits(host, info, chunks[k])
    ensures var frames := SendFrames(host, info, chunks, groupID, size);
            |frames| == |chunks| && forall k | 0 <= k < |chunks| :: FrameOf(frames[k], chunks[k], size)
  {
    hide ChunkFits, ChunkBody, Frame, FrameOf;
    if chunks == [] {
    } else {
      var before, last := chunks[..|chunks| - 1], chunks[|chunks| - 1];
      FramesAre(host, info, before, groupID, size);
      FrameIsOf(host, info, last, groupID, size);
    }
  }

  /** A send reassembles: there is one frame for each chunk, every chunk holds 1 to 100
      processes, every frame carries its chunk and the number of chunks, and reading all frames
      with the second reader gives the non-empty names in order and the number of processes
      that have anything to write, which is all of them exactly when no process is all zero. */
  lemma SendReassembles(host: seq<byte>, info: Info, ps: seq<Proc>, groupID: i32)
    requires ChunkFits(host, info, ps)
    ensures var chunks := Chunk(ps, MAX_PER_MESSAGE);
            var frames := SendFrames(host, info, chunks, groupID, |chunks|);
            var l := Reassembled(frames);
            && l.names == Names(ps)
            && (l.count == |ps| <==> forall k | 0 <= k < |ps| :: EncodeProcess(ps[k]) != [])
            && ((forall k | 0 <= k < |ps| :: ps[k].pid != 0) ==> l.count == |ps|)
            && |frames| == |chunks|
            && forall k | 0 <= k < |chunks| :: 0 < |chunks[k]| <= 100 && FrameOf(frames[k], chunks[k], |chunks|)
  {
    hide EncodeProcess, Fits, Reassembled, SendFrames, FrameOf;
    var chunks := Chunk(ps, MAX_PER_MESSAGE);
    forall k | 0 <= k < |chunks|
      ensures ChunkFits(host, info, chunks[k])
    {
      PartOf(chunks, k);
    }
    FramesReassemble(host, info, chunks, groupID, |chunks|);
    WrittenAll(ps);
    FramesAre(host, info, chunks, groupID, |chunks|);
    forall k | 0 <= k < |ps|
      ensures ps[k].pid != 0 ==> EncodeProcess(ps[k]) != []
    {
      WrittenWhen(ps[k]);
    }
  }

  /** Elements of a chunk are elements of the list. */
  lemma {:induction false} PartOf(chunks: seq<seq<Proc>>, k: nat)
    requires k < |chunks|
    ensures forall i | 0 <= i < |chunks[k]| :: chunks[k][i] in Flatten(chunks)
  {
    if k == 0 {
    } else {
      PartOf(chunks[1..], k - 1);
    }
  }

  /** The group fields say how many chunks belong together, as long as that fits 32 bits. */
  lemma GroupSizeIsWritten(host: seq<byte>, info: Info, ps: seq<Proc>, groupID: i32, size: nat)
    requires ChunkFits(host, info, ps) && 0 < size < 0x8000_0000
    ensures var fs := Fields(ChunkBody(host, info, ps, groupID, size), 0);
            |fs| > 0 && fs[|fs| - 1] == VarintField(7, size)
  {
    hide EncodeAll, InfoFields, EncodeProcess, AllWritable, Fields, Fits, ProcMessages;
    var gs := ToI32(size);
    var f2, procs, f5 := Str(2, host), ProcMessages(ps), Str(5, EncodeAll(InfoFields(info)));
    var f6, f7 := Uint(6, Unsigned32(groupID)), Uint(7, Unsigned32(gs));
    WritableOne(2, 0, host, 0);
    WritableOne(5, 0, EncodeAll(InfoFields(info)), 0);
    WritableOne(6, Unsigned32(groupID), [], 0);
    WritableOne(7, Unsigned32(gs), [], 0);
    ProcMessagesWritable(ps);
    WritableJoin(f6, f7);
    WritableJoin(f5, f6 + f7);
    WritableJoin(procs, f5 + (f6 + f7));
    WritableJoin(f2, procs + (f5 + (f6 + f7)));
    BodyReads(ChunkFields(host, info, ps, groupID, gs));
    assert ChunkFields(host, info, ps, groupID, gs) == (f2 + (procs + (f5 + f6))) + f7;
  }
}
