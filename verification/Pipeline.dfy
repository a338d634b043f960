/**
 The log pipeline as a state machine: files that only grow, one tailer per source, a bounded
 channel, one batcher, the registry and its file. Any step may follow any other that leaves it
 enabled; posts and single acknowledgements are steps, a crash may come at any point, and a start
 reads the registry file back.
 */
module Pipeline {
  import opened Basics
  import opened Decimal
  import opened LineProcessor
  import opened Messages
  import opened FileTailer
  import opened Registry
  import opened Intake
  import opened Batcher
  import opened BatcherSteps

  /** The file sources by registry identifier, and the batcher's settings. */
  datatype Setup = Setup(sources: map<string, Source>, batch: Config, capacity: nat)

  /** A message the tailer is sending: offered once, then blocked while the channel is full. */
  datatype Outbox = Empty | Offering(m: Message) | Blocked(m: Message)

  datatype Tail =
    | Waiting(start: Option<int>)
    | Tailing(offset: nat, partial: Text, pending: Pending, box: Outbox)
    | Stopped

  /** A message the rules of a source dropped. */
  datatype Loss = Loss(id: string, out: Out)

  /** `wrote` says that the temporary file was written without an error. `dropped` and `sent`
      are history and decide nothing. */
  datatype State = State(
    files: map<string, Text>,
    disk: Disk,
    snap: Option<File>,
    wrote: bool,
    up: bool,
    tails: map<string, Tail>,
    queue: seq<Message>,
    cancelled: bool,
    closed: bool,
    ctl: Control,
    sent: seq<Message>,
    dropped: set<Loss>)

  function FileAt(files: map<string, Text>, id: string): Text
  {
    if id in files then files[id] else []
  }

  function BoxOf(src: Source, id: string, out: Option<Out>): Outbox
  {
    if out.Some? then Offering(ToMessage(src, id, out.value)) else Empty
  }

  /** The tailer has no complete line to cut and nothing to send. */
  predicate Quiet(t: Tail)
  {
    t.Tailing? && t.box.Empty? && IndexLF(t.partial) == |t.partial| && |t.partial| <= MAX_LINE_BYTES
  }

  /** Opening the file: at its end when the registry has no entry, else at the stored
      offset, or at zero when the file has become shorter. */
  function OpenAt(start: Option<int>, f: Text): nat
  {
    match start
    case None => |f|
    case Some(off) => if off > |f| || off < 0 then 0 else off
  }

  function CutStep(src: Source, id: string, t: Tail, now: int): Tail
    requires t.Tailing? && IndexLF(t.partial) < |t.partial|
  {
    var i := IndexLF(t.partial);
    var line, offset, rest := TrimCR(t.partial[..i]), t.offset + i + 1, t.partial[i + 1..];
    if line == [] && !Aggregating(src.rules) then Tailing(offset, rest, t.pending, Empty)
    else
      var (q, out) := LineSpec(src.rules, t.pending, line, offset, now);
      Tailing(offset, rest, q, BoxOf(src, id, out))
  }

  function CapStep(src: Source, id: string, t: Tail, now: int): Tail
    requires t.Tailing?
  {
    var offset := t.offset + |t.partial|;
    var (q, out) := LineSpec(src.rules, t.pending, t.partial, offset, now);
    Tailing(offset, [], q, BoxOf(src, id, out))
  }

  function IdleStep(src: Source, id: string, t: Tail, now: int): Tail
    requires t.Tailing?
  {
    var (q, out) := LineProcessor.FlushSpec(src.rules, t.pending, now, false);
    t.(pending := q, box := BoxOf(src, id, out))
  }

  /** The message the rules drop during each of these steps. */
  function CutDrop(src: Source, t: Tail, now: int): Option<Out>
    requires t.Tailing? && IndexLF(t.partial) < |t.partial|
  {
    var i := IndexLF(t.partial);
    var line := TrimCR(t.partial[..i]);
    if line == [] && !Aggregating(src.rules) then None
    else LineDrop(src.rules, t.pending, line, t.offset + i + 1, now)
  }

  function CapDrop(src: Source, t: Tail, now: int): Option<Out>
    requires t.Tailing?
  {
    LineDrop(src.rules, t.pending, t.partial, t.offset + |t.partial|, now)
  }

  function IdleDrop(src: Source, t: Tail, now: int): Option<Out>
    requires t.Tailing?
  {
    FlushDrop(src.rules, t.pending, now, false)
  }

  function Noted(dropped: set<Loss>, id: string, drop: Option<Out>): set<Loss>
  {
    if drop.Some? then dropped + {Loss(id, drop.value)} else dropped
  }

  // ---- the steps of one tailer ----

  /** A move of a running tailer, other than sending a message. */
  datatype TailStep =
    | Open
    | Read(n: nat)
    | CutLine(now: int)
    | CapLine(now: int)
    | IdleFlush(now: int)
    | Block
    | Drop
    | Quit

  /** `file` is the tailer's file, if it is there. */
  predicate TailEnabled(t: Tail, file: Option<Text>, full: bool, cancelled: bool, st: TailStep)
  {
    match st
    case Open => t.Waiting? && file.Some?
    case Read(n) =>
      Quiet(t) && file.Some? && 0 < n <= READ_CHUNK && t.offset + |t.partial| + n <= |file.value|
    case CutLine(_) => t.Tailing? && t.box.Empty? && IndexLF(t.partial) < |t.partial|
    case CapLine(_) => t.Tailing? && t.box.Empty? && IndexLF(t.partial) == |t.partial| > MAX_LINE_BYTES
    case IdleFlush(_) => Quiet(t)
    case Block => t.Tailing? && t.box.Offering? && full
    case Drop => t.Tailing? && t.box.Blocked? && cancelled
    case Quit => (t.Waiting? || Quiet(t)) && cancelled
  }

  function TailAfter(src: Source, id: string, t: Tail, file: Option<Text>, full: bool, cancelled: bool,
                     st: TailStep): Tail
    requires TailEnabled(t, file, full, cancelled, st)
  {
    match st
    case Open => Tailing(OpenAt(t.start, file.value), [], NOTHING, Empty)
    case Read(n) =>
      var at := t.offset + |t.partial|;
      t.(partial := t.partial + file.value[at..at + n])
    case CutLine(now) => CutStep(src, id, t, now)
    case CapLine(now) => CapStep(src, id, t, now)
    case IdleFlush(now) => IdleStep(src, id, t, now)
    case Block => t.(box := Blocked(t.box.m))
    case Drop => Stopped
    case Quit => Stopped
  }

  /** The message the rules drop during the step. */
  function TailDrop(src: Source, t: Tail, file: Option<Text>, full: bool, cancelled: bool, st: TailStep): Option<Out>
    requires TailEnabled(t, file, full, cancelled, st)
  {
    match st
    case CutLine(now) => CutDrop(src, t, now)
    case CapLine(now) => CapDrop(src, t, now)
    case IdleFlush(now) => IdleDrop(src, t, now)
    case _ => None
  }

  // ---- the steps of a registry flush ----

  datatype FlushStep = TakeSnapshot | TearTmp | WriteTmp | Rename | FlushFails

  predicate FlushEnabled(snap: Option<File>, wrote: bool, st: FlushStep)
  {
    match st
    case TearTmp => snap.Some? && !wrote
    case WriteTmp => snap.Some? && !wrote
    case Rename => wrote
    case _ => true
  }

  /** A flush in progress. */
  datatype Flushing = Flushing(disk: Disk, snap: Option<File>, wrote: bool)

  function FlushAfter(l: Flushing, reg: Reg, st: FlushStep): Flushing
    requires FlushEnabled(l.snap, l.wrote, st)
  {
    match st
    case TakeSnapshot => Flushing(l.disk, Some(Snapshot(reg)), false)
    case TearTmp => l.(disk := FlushTo(l.disk, l.snap.value, Writing))
    case WriteTmp => l.(disk := FlushTo(l.disk, l.snap.value, Written), wrote := true)
    case Rename => Flushing(Install(l.disk), None, false)
    case FlushFails => Flushing(l.disk, None, false)
  }

  // ---- the machine ----

  datatype Step =
    | Grow(id: string, more: Text)
    | Start
    | StartTail(id: string)
    | Follow(id: string, ts: TailStep)
    | Enqueue(id: string)
    | Other(m: Message)
    | Batching(bs: BatcherStep)
    | Flush(fs: FlushStep)
    | Cancel
    | CloseQueue
    | Crash

  function FileOf(s: State, id: string): Option<Text>
  {
    if id in s.files then Some(s.files[id]) else None
  }

  predicate Full(c: Setup, s: State) { |s.queue| >= c.capacity }

  predicate Enabled(c: Setup, s: State, st: Step)
  {
    match st
    case Grow(id, more) => |FileAt(s.files, id)| + |more| <= INT64_MAX
    case Start => !s.up
    case StartTail(id) => s.up && !s.cancelled && id in c.sources && id !in s.tails
    case Follow(id, ts) =>
      s.up && id in c.sources && id in s.tails &&
      TailEnabled(s.tails[id], FileOf(s, id), Full(c, s), s.cancelled, ts)
    case Enqueue(id) =>
      s.up && id in c.sources && id in s.tails && s.tails[id].Tailing? && !s.tails[id].box.Empty? &&
      !Full(c, s) && !s.closed
    case Other(m) => s.up && m.id !in c.sources && !Full(c, s) && !s.closed
    case Batching(bs) => s.up && BatcherEnabled(s.ctl, s.queue, s.closed, s.cancelled, bs)
    case Flush(fs) => s.up && FlushEnabled(s.snap, s.wrote, fs)
    case Cancel => s.up
    case CloseQueue => s.up && s.cancelled && forall id | id in s.tails :: s.tails[id].Stopped?
    case Crash => s.up
  }

  function WithFile(s: State, id: string, f: Text): State { s.(files := s.files[id := f]) }

  function WithTail(s: State, id: string, t: Tail, drop: Option<Out>): State
  {
    s.(tails := s.tails[id := t], dropped := Noted(s.dropped, id, drop))
  }

  function WithSent(s: State, tails: map<string, Tail>, m: Message): State
  {
    s.(tails := tails, queue := s.queue + [m], sent := s.sent + [m])
  }

  function WithCtl(s: State, k: Control, queue: seq<Message>): State { s.(ctl := k, queue := queue) }

  function WithFlush(s: State, l: Flushing): State { s.(disk := l.disk, snap := l.snap, wrote := l.wrote) }

  function FlushOf(s: State): Flushing { Flushing(s.disk, s.snap, s.wrote) }

  function Started(s: State): State
  {
    s.(snap := None, wrote := false, up := true, tails := map[], queue := [], cancelled := false, closed := false,
       sent := [], ctl := Fresh(s.ctl.w.(reg := LoadDisk(s.disk), settled := [], posted := [])))
  }

  function Apply(c: Setup, s: State, st: Step): State
    requires Enabled(c, s, st)
  {
    match st
    case Grow(id, more) => WithFile(s, id, FileAt(s.files, id) + more)
    case Start => Started(s)
    case StartTail(id) =>
      var offs := s.ctl.w.reg.offsets;
      WithTail(s, id, Waiting(if id in offs then Some(offs[id]) else None), None)
    case Follow(id, ts) =>
      var src, t := c.sources[id], s.tails[id];
      WithTail(s, id, TailAfter(src, id, t, FileOf(s, id), Full(c, s), s.cancelled, ts),
               TailDrop(src, t, FileOf(s, id), Full(c, s), s.cancelled, ts))
    case Enqueue(id) =>
      var t := s.tails[id];
      WithSent(s, s.tails[id := t.(box := Empty)], t.box.m)
    case Other(m) => WithSent(s, s.tails, m)
    case Batching(bs) =>
      WithCtl(s, BatcherAfter(c.batch, s.ctl, s.queue, s.closed, s.cancelled, bs), QueueAfter(s.queue, bs))
    case Flush(fs) => WithFlush(s, FlushAfter(FlushOf(s), s.ctl.w.reg, fs))
    case Cancel => s.(cancelled := true)
    case CloseQueue => s.(closed := true)
    case Crash => s.(up := false)
  }

  /** A run: a sequence of states, each obtained from the one before by an enabled step. */
  ghost predicate IsRun(c: Setup, run: seq<State>, steps: seq<Step>)
  {
    && |run| == |steps| + 1
    && forall i | 0 <= i < |steps| :: Enabled(c, run[i], steps[i]) && run[i + 1] == Apply(c, run[i], steps[i])
  }

  /** Before the first start: any files, and a registry file whose entries for them lie
      within them. */
  ghost predicate Initial(c: Setup, s: State)
  {
    && !s.up && s.snap.None?
    && s.ctl.w.accepted == [] && s.ctl.w.refused == []
    && (forall id | id in s.files :: |s.files[id]| <= INT64_MAX)
    && (forall id | id in c.sources ::
          var reg := LoadDisk(s.disk);
          id !in reg.cursors && (id in reg.offsets ==> 0 <= reg.offsets[id] <= |FileAt(s.files, id)|))
  }
}
