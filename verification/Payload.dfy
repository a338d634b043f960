/**
 The process-intake messages: what is written for a process, the frame around a message,
 and a proto3 reader that starts every field at its zero.
 */
module Payload {
  import opened Basics
  import opened Wire

  type i32 = x: int | -0x8000_0000 <= x < 0x8000_0000
  type i64 = x: int | -0x8000_0000_0000_0000 <= x < 0x8000_0000_0000_0000
  type u32 = x: int | 0 <= x < 0x1_0000_0000
  type u64 = x: int | 0 <= x < 0x1_0000_0000_0000_0000

  /** Cumulative CPU seconds, small enough for the conversion to an integer to be defined. */
  type seconds = t: real | 0.0 <= t < 0x1_0000_0000_0000_0000 as real

  /** A process as collected, grouped by the sub-messages it is written in. Percentages and
      rates are the 32 bits of a float. */
  datatype Proc = Proc(pid: i32, command: Command, user: User, memory: Memory, cpu: CPU, io: IO,
                       createTime: i64, openFd: i32, state: i32,
                       voluntary: u64, involuntary: u64, nsPid: i32)

  datatype Command = Command(args: seq<seq<byte>>, cwd: seq<byte>, ppid: i32, exe: seq<byte>, name: seq<byte>)
  datatype User = User(name: seq<byte>, uid: i32, gid: i32)
  datatype Memory = Memory(rss: u64, vms: u64, swap: u64, shared: u64)
  datatype CPU = CPU(totalPct: u32, userPct: u32, systemPct: u32, threads: i32,
                     userTime: seconds, systemTime: seconds)
  datatype IO = IO(readRate: u32, writeRate: u32, readBytesRate: u32, writeBytesRate: u32)

  const ZERO := Proc(0, Command([], [], 0, [], []), User([], 0, 0), Memory(0, 0, 0, 0),
                     CPU(0, 0, 0, 0, 0.0, 0.0), IO(0, 0, 0, 0), 0, 0, 0, 0, 0, 0)

  // ---- integer conversions ----

  /** Converting a signed integer to 64 unsigned bits sign-extends it. */
  function Extend(x: i64): (v: u64) { if x < 0 then x + TWO64 else x }

  /** A 32-bit integer taken as unsigned. */
  function Unsigned32(x: i32): (v: u32) { if x < 0 then x + 0x1_0000_0000 else x }

  function ToI32(v: nat): (x: i32)
  {
    var low := v % 0x1_0000_0000;
    if low >= 0x8000_0000 then low - 0x1_0000_0000 else low
  }

  function ToI64(v: nat): (x: i64)
  {
    var low := v % TWO64;
    if low >= 0x8000_0000_0000_0000 then low - TWO64 else low
  }

  lemma Int32RoundTrip(x: i32)
    ensures ToI32(Extend(x)) == x && ToI32(Unsigned32(x)) == x
    ensures (Extend(x) == 0 <==> x == 0) && (Unsigned32(x) == 0 <==> x == 0)
  {
    if x < 0 {
      assert (x + TWO64) % 0x1_0000_0000 == x + 0x1_0000_0000;
    }
  }

  lemma Int64RoundTrip(x: i64)
    ensures ToI64(Extend(x)) == x && (Extend(x) == 0 <==> x == 0)
  {
  }

  /** Truncating CPU seconds to a whole number of 64 bits. */
  function Seconds(t: seconds): (v: u64)
  {
    t.Floor
  }

  /** The bits a reader recovers: a negative zero is not written. */
  function NormalBits(bits: u32): u32 { if bits == 0x8000_0000 then 0 else bits }

  // ---- what is written ----

  function StrAll(num: nat, ss: seq<seq<byte>>): seq<Field>
  {
    if ss == [] then [] else StrAll(num, ss[..|ss| - 1]) + Str(num, ss[|ss| - 1])
  }

  function CommandFields(c: Command): seq<Field>
  {
    StrAll(1, c.args) + (Str(3, c.cwd) + (Uint(6, Extend(c.ppid)) + (Str(8, c.exe) + Str(9, c.name))))
  }

  function UserFields(u: User): seq<Field>
  {
    Str(1, u.name) + (Uint(2, Unsigned32(u.uid)) + Uint(3, Unsigned32(u.gid)))
  }

  function MemoryFields(m: Memory): seq<Field>
  {
    Uint(1, m.rss) + (Uint(2, m.vms) + (Uint(3, m.swap) + Uint(4, m.shared)))
  }

  function CPUFields(c: CPU): seq<Field>
  {
    F32(2, c.totalPct) + (F32(3, c.userPct) + (F32(4, c.systemPct) +
    (Uint(5, Extend(c.threads)) + (Uint(8, Seconds(c.userTime)) + Uint(9, Seconds(c.systemTime))))))
  }

  function IOFields(io: IO): seq<Field>
  {
    F32(1, io.readRate) + (F32(2, io.writeRate) + (F32(3, io.readBytesRate) + F32(4, io.writeBytesRate)))
  }

  function ProcessFields(p: Proc): seq<Field>
  {
    Uint(2, Extend(p.pid)) + (Str(4, EncodeAll(CommandFields(p.command))) +
    (Str(5, EncodeAll(UserFields(p.user))) + (Str(7, EncodeAll(MemoryFields(p.memory))) +
    (Str(8, EncodeAll(CPUFields(p.cpu))) + (Uint(9, Extend(p.createTime)) +
    (Uint(11, Extend(p.openFd)) + (Uint(12, Extend(p.state)) + (Str(13, EncodeAll(IOFields(p.io))) +
    (Uint(16, p.voluntary) + (Uint(17, p.involuntary) + Uint(20, Extend(p.nsPid))))))))))))
  }

  /** Lengths are sizes of a 64-bit program. */
  ghost predicate Fits(p: Proc)
  {
    && (forall k | 0 <= k < |p.command.args| :: |p.command.args[k]| < TWO64)
    && |p.command.cwd| < TWO64 && |p.command.exe| < TWO64 && |p.command.name| < TWO64
    && |p.user.name| < TWO64
    && |EncodeAll(CommandFields(p.command))| < TWO64 && |EncodeAll(UserFields(p.user))| < TWO64
    && |EncodeAll(MemoryFields(p.memory))| < TWO64 && |EncodeAll(CPUFields(p.cpu))| < TWO64
    && |EncodeAll(IOFields(p.io))| < TWO64
  }

  // ---- the reader ----

  function DataOf(f: Field): seq<byte> { if f.VarintField? then [] else f.data }

  function ValueOf(f: Field): u64 { if f.VarintField? then f.val % TWO64 else 0 }

  function BitsOf(f: Field): u32
  {
    if f.VarintField? || |f.data| != 4 then 0 else Bits4(f.data)
  }

  function Bits4(b: seq<byte>): u32
    requires |b| == 4
  {
    FromLe32(b)
  }

  function ReadCommand(c: Command, f: Field): Command
  {
    match f.num
    case 1 => c.(args := c.args + [DataOf(f)])
    case 3 => c.(cwd := DataOf(f))
    case 6 => c.(ppid := ToI32(ValueOf(f)))
    case 8 => c.(exe := DataOf(f))
    case 9 => c.(name := DataOf(f))
    case _ => c
  }

  function ReadUser(u: User, f: Field): User
  {
    match f.num
    case 1 => u.(name := DataOf(f))
    case 2 => u.(uid := ToI32(ValueOf(f)))
    case 3 => u.(gid := ToI32(ValueOf(f)))
    case _ => u
  }

  function ReadMemory(m: Memory, f: Field): Memory
  {
    match f.num
    case 1 => m.(rss := ValueOf(f))
    case 2 => m.(vms := ValueOf(f))
    case 3 => m.(swap := ValueOf(f))
    case 4 => m.(shared := ValueOf(f))
    case _ => m
  }

  function ReadCPU(c: CPU, f: Field): CPU
  {
    match f.num
    case 2 => c.(totalPct := BitsOf(f))
    case 3 => c.(userPct := BitsOf(f))
    case 4 => c.(systemPct := BitsOf(f))
    case 5 => c.(threads := ToI32(ValueOf(f)))
    case 8 => c.(userTime := ValueOf(f) as real)
    case 9 => c.(systemTime := ValueOf(f) as real)
    case _ => c
  }

  function ReadIO(io: IO, f: Field): IO
  {
    match f.num
    case 1 => io.(readRate := BitsOf(f))
    case 2 => io.(writeRate := BitsOf(f))
    case 3 => io.(readBytesRate := BitsOf(f))
    case 4 => io.(writeBytesRate := BitsOf(f))
    case _ => io
  }

  /** The fields of a message, first to last. */
  function ReadAll<T>(step: (T, Field) -> T, t: T, fs: seq<Field>): T
    decreases |fs|
  {
    if fs == [] then t else ReadAll(step, step(t, fs[0]), fs[1..])
  }

  function ReadProcess(p: Proc, f: Field): Proc
  {
    var body := Fields(DataOf(f), 0);
    match f.num
    case 2 => p.(pid := ToI32(ValueOf(f)))
    case 4 => p.(command := ReadAll(ReadCommand, p.command, body))
    case 5 => p.(user := ReadAll(ReadUser, p.user, body))
    case 7 => p.(memory := ReadAll(ReadMemory, p.memory, body))
    case 8 => p.(cpu := ReadAll(ReadCPU, p.cpu, body))
    case 9 => p.(createTime := ToI64(ValueOf(f)))
    case 11 => p.(openFd := ToI32(ValueOf(f)))
    case 12 => p.(state := ToI32(ValueOf(f)))
    case 13 => p.(io := ReadAll(ReadIO, p.io, body))
    case 16 => p.(voluntary := ValueOf(f))
    case 17 => p.(involuntary := ValueOf(f))
    case 20 => p.(nsPid := ToI32(ValueOf(f)))
    case _ => p
  }

  function DecodeProcess(b: seq<byte>): Proc { ReadAll(ReadProcess, ZERO, Fields(b, 0)) }

  /** What survives the wire: empty arguments are gone, CPU seconds are whole, and a float
      zero has lost its sign. */
  function Normal(p: Proc): Proc
  {
    p.(command := p.command.(args := NonEmpty(p.command.args)), cpu := NormalCPU(p.cpu), io := NormalIO(p.io))
  }

  function NormalCPU(c: CPU): CPU
  {
    CPU(NormalBits(c.totalPct), NormalBits(c.userPct), NormalBits(c.systemPct), c.threads,
        Seconds(c.userTime) as real, Seconds(c.systemTime) as real)
  }

  function NormalIO(io: IO): IO
  {
    IO(NormalBits(io.readRate), NormalBits(io.writeRate), NormalBits(io.readBytesRate), NormalBits(io.writeBytesRate))
  }

  function NonEmpty(ss: seq<seq<byte>>): seq<seq<byte>>
  {
    if ss == [] then []
    else NonEmpty(ss[..|ss| - 1]) + if ss[|ss| - 1] == [] then [] else [ss[|ss| - 1]]
  }

  // ---- round trip ----

  lemma {:induction false} ReadAllAppend<T>(step: (T, Field) -> T, t: T, a: seq<Field>, b: seq<Field>)
    ensures ReadAll(step, t, a + b) == ReadAll(step, ReadAll(step, t, a), b)
    decreases |a|
  {
    if a == [] {
      assert a + b == b;
    } else {
      assert (a + b)[1..] == a[1..] + b;
      ReadAllAppend(step, step(t, a[0]), a[1..], b);
    }
  }

  /** An omitted or single field at the front of a message. */
  lemma ReadFirst<T>(step: (T, Field) -> T, t: T, first: seq<Field>, rest: seq<Field>)
    requires |first| <= 1
    ensures ReadAll(step, t, first + rest) == ReadAll(step, if first == [] then t else step(t, first[0]), rest)
  {
    if first == [] {
      assert first + rest == rest;
    } else {
      assert (first + rest)[1..] == rest;
    }
  }

  lemma ReadLast<T>(step: (T, Field) -> T, t: T, last: seq<Field>)
    requires |last| <= 1
    ensures ReadAll(step, t, last) == if last == [] then t else step(t, last[0])
  {
    ReadFirst(step, t, last, []);
    assert last + [] == last;
  }

  ghost predicate AllWritable(fs: seq<Field>)
  {
    forall k | 0 <= k < |fs| :: Writable(fs[k])
  }

  lemma WritableJoin(a: seq<Field>, b: seq<Field>)
    requires AllWritable(a) && AllWritable(b)
    ensures AllWritable(a + b)
  {
    hide Writable;
  }

  lemma WritableOne(num: nat, v: u64, s: seq<byte>, bits: u32)
    requires num <= 20 && |s| < TWO64
    ensures AllWritable(Uint(num, v)) && AllWritable(Str(num, s)) && AllWritable(F32(num, bits))
  {
  }

  /** A reader of the message sees exactly the written fields. */
  lemma BodyReads(fs: seq<Field>)
    requires AllWritable(fs)
    ensures Fields(EncodeAll(fs), 0) == fs
  {
    var b := EncodeAll(fs);
    assert b[0..] == b;
    FieldsOfEncoding(b, 0, fs);
  }

  lemma F32Reads(num: nat, bits: u32)
    ensures var fs := F32(num, bits);
            if fs == [] then NormalBits(bits) == 0
            else |fs| == 1 && fs[0].num == num && BitsOf(fs[0]) == NormalBits(bits)
  {
    Le32RoundTrip(bits);
  }

  lemma {:induction false} ReadArgs(c: Command, args: seq<seq<byte>>)
    ensures ReadAll(ReadCommand, c, StrAll(1, args)) == c.(args := c.args + NonEmpty(args))
  {
    if args == [] {
      assert c.args + [] == c.args;
    } else {
      var before, last := args[..|args| - 1], args[|args| - 1];
      ReadArgs(c, before);
      ReadAllAppend(ReadCommand, c, StrAll(1, before), Str(1, last));
      ReadLast(ReadCommand, c.(args := c.args + NonEmpty(before)), Str(1, last));
      if last == [] {
        assert NonEmpty(before) + [] == NonEmpty(before);
      } else {
        assert (c.args + NonEmpty(before)) + [last] == c.args + (NonEmpty(before) + [last]);
      }
    }
  }

  lemma CommandReads(c: Command)
    ensures ReadAll(ReadCommand, ZERO.command, CommandFields(c)) == c.(args := NonEmpty(c.args))
  {
    hide Extend, ToI32, NonEmpty, StrAll;
    var f3, f6, f8, f9 := Str(3, c.cwd), Uint(6, Extend(c.ppid)), Str(8, c.exe), Str(9, c.name);
    var args := NonEmpty(c.args);
    ReadAllAppend(ReadCommand, ZERO.command, StrAll(1, c.args), f3 + (f6 + (f8 + f9)));
    ReadArgs(ZERO.command, c.args);
    assert [] + args == args;
    Int32RoundTrip(c.ppid);
    ReadFirst(ReadCommand, Command(args, [], 0, [], []), f3, f6 + (f8 + f9));
    CommandTailReads(Command(args, c.cwd, 0, [], []), c);
  }

  lemma CommandTailReads(q: Command, c: Command)
    requires q.ppid == 0 && q.exe == [] && q.name == []
    ensures ReadAll(ReadCommand, q, Uint(6, Extend(c.ppid)) + (Str(8, c.exe) + Str(9, c.name))) ==
            Command(q.args, q.cwd, c.ppid, c.exe, c.name)
  {
    hide Extend, ToI32;
    var f8, f9 := Str(8, c.exe), Str(9, c.name);
    Int32RoundTrip(c.ppid);
    ReadFirst(ReadCommand, q, Uint(6, Extend(c.ppid)), f8 + f9);
    ReadFirst(ReadCommand, Command(q.args, q.cwd, c.ppid, [], []), f8, f9);
    ReadLast(ReadCommand, Command(q.args, q.cwd, c.ppid, c.exe, []), f9);
  }

  lemma UserReads(u: User)
    ensures ReadAll(ReadUser, ZERO.user, UserFields(u)) == u
  {
    hide Extend, ToI32, Unsigned32;
    var f2, f3 := Uint(2, Unsigned32(u.uid)), Uint(3, Unsigned32(u.gid));
    Int32RoundTrip(u.uid);
    Int32RoundTrip(u.gid);
    ReadFirst(ReadUser, ZERO.user, Str(1, u.name), f2 + f3);
    ReadFirst(ReadUser, User(u.name, 0, 0), f2, f3);
    ReadLast(ReadUser, User(u.name, u.uid, 0), f3);
  }

  lemma MemoryReads(m: Memory)
    ensures ReadAll(ReadMemory, ZERO.memory, MemoryFields(m)) == m
  {
    var f2, f3, f4 := Uint(2, m.vms), Uint(3, m.swap), Uint(4, m.shared);
    ReadFirst(ReadMemory, ZERO.memory, Uint(1, m.rss), f2 + (f3 + f4));
    ReadFirst(ReadMemory, Memory(m.rss, 0, 0, 0), f2, f3 + f4);
    ReadFirst(ReadMemory, Memory(m.rss, m.vms, 0, 0), f3, f4);
    ReadLast(ReadMemory, Memory(m.rss, m.vms, m.swap, 0), f4);
  }

  lemma CPUReads(c: CPU)
    ensures ReadAll(ReadCPU, ZERO.cpu, CPUFields(c)) == NormalCPU(c)
  {
    hide F32, BitsOf, Extend, ToI32, Seconds, NormalBits;
    var n := NormalCPU(c);
    var f3, f4, f5 := F32(3, c.userPct), F32(4, c.systemPct), Uint(5, Extend(c.threads));
    var f8, f9 := Uint(8, Seconds(c.userTime)), Uint(9, Seconds(c.systemTime));
    F32Reads(2, c.totalPct);
    F32Reads(3, c.userPct);
    F32Reads(4, c.systemPct);
    Int32RoundTrip(c.threads);
    ReadFirst(ReadCPU, ZERO.cpu, F32(2, c.totalPct), f3 + (f4 + (f5 + (f8 + f9))));
    ReadFirst(ReadCPU, CPU(n.totalPct, 0, 0, 0, 0.0, 0.0), f3, f4 + (f5 + (f8 + f9)));
    ReadFirst(ReadCPU, CPU(n.totalPct, n.userPct, 0, 0, 0.0, 0.0), f4, f5 + (f8 + f9));
    CPUTailReads(CPU(n.totalPct, n.userPct, n.systemPct, 0, 0.0, 0.0), c);
  }

  lemma CPUTailReads(q: CPU, c: CPU)
    requires q.threads == 0 && q.userTime == 0.0 && q.systemTime == 0.0
    ensures ReadAll(ReadCPU, q,
                    Uint(5, Extend(c.threads)) + (Uint(8, Seconds(c.userTime)) + Uint(9, Seconds(c.systemTime)))) ==
            CPU(q.totalPct, q.userPct, q.systemPct, c.threads, NormalCPU(c).userTime, NormalCPU(c).systemTime)
  {
    hide Extend, ToI32, Seconds, NormalBits;
    var n := NormalCPU(c);
    var f8, f9 := Uint(8, Seconds(c.userTime)), Uint(9, Seconds(c.systemTime));
    Int32RoundTrip(c.threads);
    ReadFirst(ReadCPU, q, Uint(5, Extend(c.threads)), f8 + f9);
    ReadFirst(ReadCPU, CPU(q.totalPct, q.userPct, q.systemPct, c.threads, 0.0, 0.0), f8, f9);
    ReadLast(ReadCPU, CPU(q.totalPct, q.userPct, q.systemPct, c.threads, n.userTime, 0.0), f9);
  }

  lemma IOReads(io: IO)
    ensures ReadAll(ReadIO, ZERO.io, IOFields(io)) == NormalIO(io)
  {
    hide F32, BitsOf;
    var n := NormalIO(io);
    var f2, f3, f4 := F32(2, io.writeRate), F32(3, io.readBytesRate), F32(4, io.writeBytesRate);
    F32Reads(1, io.readRate);
    F32Reads(2, io.writeRate);
    F32Reads(3, io.readBytesRate);
    F32Reads(4, io.writeBytesRate);
    ReadFirst(ReadIO, ZERO.io, F32(1, io.readRate), f2 + (f3 + f4));
    ReadFirst(ReadIO, IO(n.readRate, 0, 0, 0), f2, f3 + f4);
    ReadFirst(ReadIO, IO(n.readRate, n.writeRate, 0, 0), f3, f4);
    ReadLast(ReadIO, IO(n.readRate, n.writeRate, n.readBytesRate, 0), f4);
  }

  // ---- the whole message ----

  lemma {:induction false} ArgsWritable(args: seq<seq<byte>>)
    requires forall k | 0 <= k < |args| :: |args[k]| < TWO64
    ensures AllWritable(StrAll(1, args))
  {
    hide AllWritable;
    if args == [] {
      NoneWritable();
    } else {
      ArgsWritable(args[..|args| - 1]);
      WritableOne(1, 0, args[|args| - 1], 0);
      WritableJoin(StrAll(1, args[..|args| - 1]), Str(1, args[|args| - 1]));
    }
  }

  lemma NoneWritable()
    ensures AllWritable([])
  {
  }

  lemma CommandWritable(c: Command)
    requires forall k | 0 <= k < |c.args| :: |c.args[k]| < TWO64
    requires |c.cwd| < TWO64 && |c.exe| < TWO64 && |c.name| < TWO64
    ensures AllWritable(CommandFields(c))
  {
    hide AllWritable, Str, Uint, Extend;
    ArgsWritable(c.args);
    var f3, f6, f8, f9 := Str(3, c.cwd), Uint(6, Extend(c.ppid)), Str(8, c.exe), Str(9, c.name);
    WritableOne(3, 0, c.cwd, 0);
    WritableOne(6, Extend(c.ppid), [], 0);
    WritableOne(8, 0, c.exe, 0);
    WritableOne(9, 0, c.name, 0);
    WritableJoin(f8, f9);
    WritableJoin(f6, f8 + f9);
    WritableJoin(f3, f6 + (f8 + f9));
    WritableJoin(StrAll(1, c.args), f3 + (f6 + (f8 + f9)));
  }

  lemma UserWritable(u: User)
    requires |u.name| < TWO64
    ensures AllWritable(UserFields(u))
  {
    hide AllWritable, Str, Uint, Unsigned32;
    WritableOne(1, 0, u.name, 0);
    WritableOne(2, Unsigned32(u.uid), [], 0);
    WritableOne(3, Unsigned32(u.gid), [], 0);
    WritableJoin(Uint(2, Unsigned32(u.uid)), Uint(3, Unsigned32(u.gid)));
    WritableJoin(Str(1, u.name), Uint(2, Unsigned32(u.uid)) + Uint(3, Unsigned32(u.gid)));
  }

  lemma MemoryWritable(m: Memory)
    ensures AllWritable(MemoryFields(m))
  {
    hide AllWritable, Uint;
    var f2, f3, f4 := Uint(2, m.vms), Uint(3, m.swap), Uint(4, m.shared);
    WritableOne(1, m.rss, [], 0);
    WritableOne(2, m.vms, [], 0);
    WritableOne(3, m.swap, [], 0);
    WritableOne(4, m.shared, [], 0);
    WritableJoin(f3, f4);
    WritableJoin(f2, f3 + f4);
    WritableJoin(Uint(1, m.rss), f2 + (f3 + f4));
  }

  lemma CPUWritable(c: CPU)
    ensures AllWritable(CPUFields(c))
  {
    hide AllWritable, Uint, F32, Extend, Seconds;
    var f3, f4, f5 := F32(3, c.userPct), F32(4, c.systemPct), Uint(5, Extend(c.threads));
    var f8, f9 := Uint(8, Seconds(c.userTime)), Uint(9, Seconds(c.systemTime));
    WritableOne(2, 0, [], c.totalPct);
    WritableOne(3, 0, [], c.userPct);
    WritableOne(4, 0, [], c.systemPct);
    WritableOne(5, Extend(c.threads), [], 0);
    WritableOne(8, Seconds(c.userTime), [], 0);
    WritableOne(9, Seconds(c.systemTime), [], 0);
    WritableJoin(f8, f9);
    WritableJoin(f5, f8 + f9);
    WritableJoin(f4, f5 + (f8 + f9));
    WritableJoin(f3, f4 + (f5 + (f8 + f9)));
    WritableJoin(F32(2, c.totalPct), f3 + (f4 + (f5 + (f8 + f9))));
  }

  lemma IOWritable(io: IO)
    ensures AllWritable(IOFields(io))
  {
    hide AllWritable, F32;
    var f2, f3, f4 := F32(2, io.writeRate), F32(3, io.readBytesRate), F32(4, io.writeBytesRate);
    WritableOne(1, 0, [], io.readRate);
    WritableOne(2, 0, [], io.writeRate);
    WritableOne(3, 0, [], io.readBytesRate);
    WritableOne(4, 0, [], io.writeBytesRate);
    WritableJoin(f3, f4);
    WritableJoin(f2, f3 + f4);
    WritableJoin(F32(1, io.readRate), f2 + (f3 + f4));
  }

  /** An optional field applied to what was read so far. */
  function ReadOpt(p: Proc, opt: seq<Field>): Proc
    requires |opt| <= 1
  {
    if opt == [] then p else ReadProcess(p, opt[0])
  }

  /** A sub-message whose fields are all zero is not written, and reads back as zero. */
  lemma SubMessage<T>(step: (T, Field) -> T, zero: T, fs: seq<Field>, num: nat)
    requires AllWritable(fs)
    ensures var sub := Str(num, EncodeAll(fs));
            if sub == [] then ReadAll(step, zero, fs) == zero
            else sub[0].num == num && ReadAll(step, zero, Fields(DataOf(sub[0]), 0)) == ReadAll(step, zero, fs)
  {
    hide AllWritable;
    BodyReads(fs);
    EncodingNonEmpty(fs);
  }

  /** Which part of a process message a sub-message goes to. */
  lemma SubField(p: Proc, f: Field)
    ensures var body := Fields(DataOf(f), 0);
            && (f.num == 4 ==> ReadProcess(p, f) == p.(command := ReadAll(ReadCommand, p.command, body)))
            && (f.num == 5 ==> ReadProcess(p, f) == p.(user := ReadAll(ReadUser, p.user, body)))
            && (f.num == 7 ==> ReadProcess(p, f) == p.(memory := ReadAll(ReadMemory, p.memory, body)))
            && (f.num == 8 ==> ReadProcess(p, f) == p.(cpu := ReadAll(ReadCPU, p.cpu, body)))
            && (f.num == 13 ==> ReadProcess(p, f) == p.(io := ReadAll(ReadIO, p.io, body)))
  {
    hide Fields, ReadAll, DataOf, ValueOf, ToI32, ToI64;
  }

  lemma CommandStep(p: Proc, c: Command)
    requires p.command == ZERO.command && AllWritable(CommandFields(c))
    ensures ReadOpt(p, Str(4, EncodeAll(CommandFields(c)))) == p.(command := c.(args := NonEmpty(c.args)))
  {
    CommandReads(c);
    SubMessage(ReadCommand, ZERO.command, CommandFields(c), 4);
    var sub := Str(4, EncodeAll(CommandFields(c)));
    if sub != [] {
      SubField(p, sub[0]);
    }
    hide CommandFields, EncodeAll, Fields, ReadAll, ReadProcess, NonEmpty, AllWritable;
  }

  lemma UserStep(p: Proc, u: User)
    requires p.user == ZERO.user && AllWritable(UserFields(u))
    ensures ReadOpt(p, Str(5, EncodeAll(UserFields(u)))) == p.(user := u)
  {
    UserReads(u);
    SubMessage(ReadUser, ZERO.user, UserFields(u), 5);
    var sub := Str(5, EncodeAll(UserFields(u)));
    if sub != [] {
      SubField(p, sub[0]);
    }
    hide UserFields, EncodeAll, Fields, ReadAll, ReadProcess, AllWritable;
  }

  lemma MemoryStep(p: Proc, m: Memory)
    requires p.memory == ZERO.memory
    ensures ReadOpt(p, Str(7, EncodeAll(MemoryFields(m)))) == p.(memory := m)
  {
    MemoryReads(m);
    MemoryWritable(m);
    SubMessage(ReadMemory, ZERO.memory, MemoryFields(m), 7);
    var sub := Str(7, EncodeAll(MemoryFields(m)));
    if sub != [] {
      SubField(p, sub[0]);
    }
    hide MemoryFields, EncodeAll, Fields, ReadAll, ReadProcess, AllWritable;
  }

  lemma CPUStep(p: Proc, c: CPU)
    requires p.cpu == ZERO.cpu
    ensures ReadOpt(p, Str(8, EncodeAll(CPUFields(c)))) == p.(cpu := NormalCPU(c))
  {
    CPUReads(c);
    CPUWritable(c);
    SubMessage(ReadCPU, ZERO.cpu, CPUFields(c), 8);
    var sub := Str(8, EncodeAll(CPUFields(c)));
    if sub != [] {
      SubField(p, sub[0]);
    }
    hide CPUFields, EncodeAll, Fields, ReadAll, ReadProcess, NormalCPU, AllWritable;
  }

  lemma IOStep(p: Proc, io: IO)
    requires p.io == ZERO.io
    ensures ReadOpt(p, Str(13, EncodeAll(IOFields(io)))) == p.(io := NormalIO(io))
  {
    IOReads(io);
    IOWritable(io);
    SubMessage(ReadIO, ZERO.io, IOFields(io), 13);
    var sub := Str(13, EncodeAll(IOFields(io)));
    if sub != [] {
      SubField(p, sub[0]);
    }
    hide IOFields, EncodeAll, Fields, ReadAll, ReadProcess, NormalIO, AllWritable;
  }

  lemma NumberSteps(p: Proc, x: i32, t: i64, v: u64)
    ensures p.pid == 0 ==> ReadOpt(p, Uint(2, Extend(x))) == p.(pid := x)
    ensures p.createTime == 0 ==> ReadOpt(p, Uint(9, Extend(t))) == p.(createTime := t)
    ensures p.openFd == 0 ==> ReadOpt(p, Uint(11, Extend(x))) == p.(openFd := x)
    ensures p.state == 0 ==> ReadOpt(p, Uint(12, Extend(x))) == p.(state := x)
    ensures p.voluntary == 0 ==> ReadOpt(p, Uint(16, v)) == p.(voluntary := v)
    ensures p.involuntary == 0 ==> ReadOpt(p, Uint(17, v)) == p.(involuntary := v)
    ensures p.nsPid == 0 ==> ReadOpt(p, Uint(20, Extend(x))) == p.(nsPid := x)
  {
    Int32RoundTrip(x);
    Int64RoundTrip(t);
    hide Extend, ToI32, ToI64, Fields, ReadAll;
  }

  lemma ReadOptFirst(p: Proc, first: seq<Field>, rest: seq<Field>)
    requires |first| <= 1
    ensures ReadAll(ReadProcess, p, first + rest) == ReadAll(ReadProcess, ReadOpt(p, first), rest)
  {
    ReadFirst(ReadProcess, p, first, rest);
  }

  /** The fields from number 9 on. */
  function TailFields(p: Proc): seq<Field>
  {
    Uint(9, Extend(p.createTime)) + (Uint(11, Extend(p.openFd)) + (Uint(12, Extend(p.state)) +
    (Str(13, EncodeAll(IOFields(p.io))) +
    (Uint(16, p.voluntary) + (Uint(17, p.involuntary) + Uint(20, Extend(p.nsPid)))))))
  }

  lemma TailReads(p: Proc, q: Proc)
    requires q == ZERO.(pid := q.pid, command := q.command, user := q.user, memory := q.memory, cpu := q.cpu)
    ensures ReadAll(ReadProcess, q, TailFields(p)) ==
            Proc(q.pid, q.command, q.user, q.memory, q.cpu, NormalIO(p.io), p.createTime, p.openFd, p.state,
                 p.voluntary, p.involuntary, p.nsPid)
  {
    hide Extend, EncodeAll, IOFields, NormalIO, ReadOpt, ReadProcess, ReadAll;
    var f11, f12, f13 := Uint(11, Extend(p.openFd)), Uint(12, Extend(p.state)), Str(13, EncodeAll(IOFields(p.io)));
    var f16, f17, f20 := Uint(16, p.voluntary), Uint(17, p.involuntary), Uint(20, Extend(p.nsPid));
    ReadOptFirst(q, Uint(9, Extend(p.createTime)), f11 + (f12 + (f13 + (f16 + (f17 + f20)))));
    NumberSteps(q, 0, p.createTime, 0);
    var q9 := q.(createTime := p.createTime);
    ReadOptFirst(q9, f11, f12 + (f13 + (f16 + (f17 + f20))));
    NumberSteps(q9, p.openFd, 0, 0);
    var q11 := q9.(openFd := p.openFd);
    ReadOptFirst(q11, f12, f13 + (f16 + (f17 + f20)));
    NumberSteps(q11, p.state, 0, 0);
    var q12 := q11.(state := p.state);
    ReadOptFirst(q12, f13, f16 + (f17 + f20));
    IOStep(q12, p.io);
    var q13 := q12.(io := NormalIO(p.io));
    CountersRead(q13, p.voluntary, p.involuntary, p.nsPid);
  }

  lemma CountersRead(q: Proc, v: u64, iv: u64, ns: i32)
    requires q.voluntary == 0 && q.involuntary == 0 && q.nsPid == 0
    ensures ReadAll(ReadProcess, q, Uint(16, v) + (Uint(17, iv) + Uint(20, Extend(ns)))) ==
            q.(voluntary := v, involuntary := iv, nsPid := ns)
  {
    hide Extend, ReadOpt, ReadProcess;
    var f17, f20 := Uint(17, iv), Uint(20, Extend(ns));
    ReadOptFirst(q, Uint(16, v), f17 + f20);
    NumberSteps(q, 0, 0, v);
    ReadOptFirst(q.(voluntary := v), f17, f20);
    NumberSteps(q.(voluntary := v), 0, 0, iv);
    assert f20 + [] == f20;
    ReadOptFirst(q.(voluntary := v, involuntary := iv), f20, []);
    NumberSteps(q.(voluntary := v, involuntary := iv), ns, 0, 0);
  }

  lemma HeadReads(p: Proc)
    requires AllWritable(CommandFields(p.command)) && AllWritable(UserFields(p.user))
    ensures ReadAll(ReadProcess, ZERO, ProcessFields(p)) ==
            ReadAll(ReadProcess, ZERO.(pid := p.pid, command := Normal(p).command, user := p.user,
                                       memory := p.memory, cpu := NormalCPU(p.cpu)), TailFields(p))
  {
    hide Extend, EncodeAll, CommandFields, UserFields, MemoryFields, CPUFields, IOFields, NormalCPU,
         ReadOpt, ReadProcess, ReadAll, NonEmpty;
    var f4, f5 := Str(4, EncodeAll(CommandFields(p.command))), Str(5, EncodeAll(UserFields(p.user)));
    var f7, f8 := Str(7, EncodeAll(MemoryFields(p.memory))), Str(8, EncodeAll(CPUFields(p.cpu)));
    var tail := TailFields(p);
    ReadOptFirst(ZERO, Uint(2, Extend(p.pid)), f4 + (f5 + (f7 + (f8 + tail))));
    NumberSteps(ZERO, p.pid, 0, 0);
    var q2 := ZERO.(pid := p.pid);
    ReadOptFirst(q2, f4, f5 + (f7 + (f8 + tail)));
    CommandStep(q2, p.command);
    var q4 := q2.(command := Normal(p).command);
    ReadOptFirst(q4, f5, f7 + (f8 + tail));
    UserStep(q4, p.user);
    var q5 := q4.(user := p.user);
    ReadOptFirst(q5, f7, f8 + tail);
    MemoryStep(q5, p.memory);
    var q7 := q5.(memory := p.memory);
    ReadOptFirst(q7, f8, tail);
    CPUStep(q7, p.cpu);
  }

  lemma TailWritable(p: Proc)
    requires |EncodeAll(IOFields(p.io))| < TWO64
    ensures AllWritable(TailFields(p))
  {
    hide AllWritable, Uint, Str, Extend, EncodeAll, IOFields;
    var f11, f12, f13 := Uint(11, Extend(p.openFd)), Uint(12, Extend(p.state)), Str(13, EncodeAll(IOFields(p.io)));
    var f16, f17, f20 := Uint(16, p.voluntary), Uint(17, p.involuntary), Uint(20, Extend(p.nsPid));
    WritableOne(9, Extend(p.createTime), [], 0);
    WritableOne(11, Extend(p.openFd), [], 0);
    WritableOne(12, Extend(p.state), [], 0);
    WritableOne(13, 0, EncodeAll(IOFields(p.io)), 0);
    WritableOne(16, p.voluntary, [], 0);
    WritableOne(17, p.involuntary, [], 0);
    WritableOne(20, Extend(p.nsPid), [], 0);
    WritableJoin(f17, f20);
    WritableJoin(f16, f17 + f20);
    WritableJoin(f13, f16 + (f17 + f20));
    WritableJoin(f12, f13 + (f16 + (f17 + f20)));
    WritableJoin(f11, f12 + (f13 + (f16 + (f17 + f20))));
    WritableJoin(Uint(9, Extend(p.createTime)), f11 + (f12 + (f13 + (f16 + (f17 + f20)))));
  }

  lemma ProcessWritable(p: Proc)
    requires Fits(p)
    ensures AllWritable(ProcessFields(p))
  {
    hide AllWritable, Uint, Str, Extend, EncodeAll, CommandFields, UserFields, MemoryFields, CPUFields, IOFields;
    var f4, f5 := Str(4, EncodeAll(CommandFields(p.command))), Str(5, EncodeAll(UserFields(p.user)));
    var f7, f8 := Str(7, EncodeAll(MemoryFields(p.memory))), Str(8, EncodeAll(CPUFields(p.cpu)));
    var tail := TailFields(p);
    TailWritable(p);
    WritableOne(2, Extend(p.pid), [], 0);
    WritableOne(4, 0, EncodeAll(CommandFields(p.command)), 0);
    WritableOne(5, 0, EncodeAll(UserFields(p.user)), 0);
    WritableOne(7, 0, EncodeAll(MemoryFields(p.memory)), 0);
    WritableOne(8, 0, EncodeAll(CPUFields(p.cpu)), 0);
    WritableJoin(f8, tail);
    WritableJoin(f7, f8 + tail);
    WritableJoin(f5, f7 + (f8 + tail));
    WritableJoin(f4, f5 + (f7 + (f8 + tail)));
    WritableJoin(Uint(2, Extend(p.pid)), f4 + (f5 + (f7 + (f8 + tail))));
  }

  function EncodeProcess(p: Proc): seq<byte> { EncodeAll(ProcessFields(p)) }

  /** Reading an encoded process recovers every field that is carried: signed integers
      through their 64-bit extension, counters, strings, float bits and the sub-messages. */
  lemma ProcessRoundTrip(p: Proc)
    requires Fits(p)
    ensures DecodeProcess(EncodeProcess(p)) == Normal(p)
  {
    hide ProcessFields, EncodeAll, Fields, ReadAll, NormalCPU, NormalIO;
    ProcessWritable(p);
    BodyReads(ProcessFields(p));
    CommandWritable(p.command);
    UserWritable(p.user);
    HeadReads(p);
    TailReads(p, ZERO.(pid := p.pid, command := Normal(p).command, user := p.user,
                       memory := p.memory, cpu := NormalCPU(p.cpu)));
  }
}
