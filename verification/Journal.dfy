/**
 The journal source: entries streamed from a child process that may exit and be started
 again at the stored cursor while earlier entries are still on their way. A cursor is
 opaque to the agent; here it is the entry's place in the journal.
 */
module Journal {
  import opened Basics
  import opened LineProcessor

  /** A line of the child's output: the message body it yields, unless it is unreadable or
      excluded by the source's matches. */
  datatype Entry = Entry(body: Option<Text>)

  /** What is sent for an entry after the source's rules, if anything. */
  function Deliver(filters: seq<Rule>, e: Entry): Option<Text>
  {
    if e.body.None? then None else Finish(filters, e.body.value)
  }

  predicate Wanted(filters: seq<Rule>, e: Entry) { Deliver(filters, e).Some? }

  /** A message in flight: its content and its entry's place. */
  datatype Msg = Msg(content: Text, at: nat)

  /** The messages of the entries from place `at` on. */
  function Messages(filters: seq<Rule>, entries: seq<Entry>, at: nat): seq<Msg>
  {
    if entries == [] then []
    else
      var d := Deliver(filters, entries[0]);
      (if d.Some? then [Msg(d.value, at)] else []) + Messages(filters, entries[1..], at + 1)
  }

  class JournalTailer {
    const filters: seq<Rule>
    var sent: seq<Msg>

    /** How many more sends succeed before the channel is full with shutdown requested. */
    var room: nat

    constructor (filters: seq<Rule>, room: nat)
      ensures this.filters == filters && sent == [] && this.room == room
    {
      this.filters, sent, this.room := filters, [], room;
    }

    /** False only if the entry was dropped undelivered. */
    method Handle(e: Entry, at: nat) returns (ok: bool)
      modifies this
      ensures var d := Deliver(filters, e);
              if d.None? then ok && sent == old(sent) && room == old(room)
              else if old(room) > 0 then ok && sent == old(sent) + [Msg(d.value, at)] && room == old(room) - 1
              else !ok && sent == old(sent) && room == 0
    {
      if e.body.None? {
        return true;
      }
      var processed := Finish(filters, e.body.value);
      if processed.None? {
        return true;
      }
      if room == 0 {
        return false;
      }
      sent, room := sent + [Msg(processed.value, at)], room - 1;
      return true;
    }

    /** Forward the child's output until it ends or an entry is dropped: what is sent are the
        messages of all entries, or, when there is no more room, exactly those before the
        first one that could not be delivered. */
    method Stream(entries: seq<Entry>, at: nat)
      modifies this
      ensures var all := Messages(filters, entries, at);
              sent == old(sent) + all[..Min(|all|, old(room))]
    {
      hide Deliver, Messages;
      ghost var all := Messages(filters, entries, at);
      ghost var done: seq<Msg> := [];
      for i := 0 to |entries|
        invariant all == done + Messages(filters, entries[i..], at + i)
        invariant sent == old(sent) + done && room == old(room) - |done|
      {
        FirstMessage(filters, entries, i, at, done);
        ghost var d := Deliver(filters, entries[i]);
        var ok := Handle(entries[i], at + i);
        if !ok {
          assert all[..|done|] == done;
          return;
        }
        if d.Some? {
          done := done + [Msg(d.value, at + i)];
        }
      }
      NoMessages(filters, entries, at);
      assert all == done && all[..|all|] == all;
    }
  }

  lemma FirstMessage(filters: seq<Rule>, entries: seq<Entry>, i: nat, at: nat, done: seq<Msg>)
    requires i < |entries|
    ensures var d, rest := Deliver(filters, entries[i]), Messages(filters, entries[i + 1..], at + i + 1);
            done + Messages(filters, entries[i..], at + i) ==
            if d.Some? then (done + [Msg(d.value, at + i)]) + rest else done + rest
    ensures Deliver(filters, entries[i]).Some? ==> |Messages(filters, entries[i..], at + i)| > 0
  {
    hide Deliver;
    assert entries[i..][1..] == entries[i + 1..];
    var d, rest := Deliver(filters, entries[i]), Messages(filters, entries[i + 1..], at + i + 1);
    assert [] + rest == rest;
    if d.Some? {
      assert done + ([Msg(d.value, at + i)] + rest) == (done + [Msg(d.value, at + i)]) + rest;
    }
  }

  lemma NoMessages(filters: seq<Rule>, entries: seq<Entry>, at: nat)
    ensures Messages(filters, entries[|entries|..], at + |entries|) == []
  {
  }

  // ---- whole runs ----

  /** `beginning` says where to start without a cursor. */
  datatype Setup = Setup(filters: seq<Rule>, beginning: bool)

  /** `flight` is everything sent and not yet refused or acknowledged, in order; its first
      `acking` messages are accepted and their cursors about to be recorded, one by one. What
      was accepted and what was refused is history. */
  datatype State = State(journal: seq<Entry>, up: bool, reader: Option<nat>, flight: seq<Msg>, acking: nat,
                         accepted: seq<Msg>, refused: seq<Msg>,
                         cursor: Option<nat>, disk: Option<nat>, snap: Option<Option<nat>>)

  datatype Step =
    | Log(e: Entry)
    | Boot
    | Spawn
    | HandleNext
    | Exit
    | Accept(n: nat)
    | Ack
    | Refuse(n: nat)
    | TakeSnapshot
    | WriteSnapshot
    | Crash

  predicate Enabled(s: State, st: Step)
  {
    match st
    case Log(_) => true
    case Boot => !s.up
    case Spawn => s.up && s.reader.None?
    case HandleNext => s.up && s.reader.Some? && s.reader.value < |s.journal|
    case Exit => s.up && s.reader.Some?
    case Accept(n) => s.up && s.acking == 0 && 0 < n <= |s.flight|
    case Ack => s.up && 0 < s.acking <= |s.flight|
    case Refuse(n) => s.up && s.acking == 0 && 0 < n <= |s.flight|
    case TakeSnapshot => s.up
    case WriteSnapshot => s.up && s.snap.Some?
    case Crash => s.up
  }

  /** Where the child reads from: after the stored cursor, else where the source says. */
  function StartOf(c: Setup, s: State): nat
  {
    if s.cursor.Some? then s.cursor.value + 1 else if c.beginning then 0 else |s.journal|
  }

  function Apply(c: Setup, s: State, st: Step): State
    requires Enabled(s, st)
  {
    match st
    case Log(e) => s.(journal := s.journal + [e])
    case Boot => s.(up := true, reader := None, flight := [], acking := 0, cursor := s.disk, snap := None)
    case Spawn => s.(reader := Some(StartOf(c, s)))
    case HandleNext =>
      var i := s.reader.value;
      s.(reader := Some(i + 1), flight := if WantedAt(c, s, i) then s.flight + [MsgAt(c, s, i)] else s.flight)
    case Exit => s.(reader := None)
    case Accept(n) => s.(accepted := s.accepted + s.flight[..n], acking := n)
    case Ack => s.(flight := s.flight[1..], acking := s.acking - 1, cursor := Some(s.flight[0].at))
    case Refuse(n) => s.(refused := s.refused + s.flight[..n], flight := s.flight[n..])
    case TakeSnapshot => s.(snap := Some(s.cursor))
    case WriteSnapshot => s.(disk := s.snap.value, snap := None)
    case Crash => s.(up := false)
  }

  predicate WantedAt(c: Setup, s: State, i: nat) { i < |s.journal| && Wanted(c.filters, s.journal[i]) }

  /** The message of a wanted entry: its whole content, as the rules left it. */
  function MsgAt(c: Setup, s: State, i: nat): Msg
    requires WantedAt(c, s, i)
  {
    Msg(Deliver(c.filters, s.journal[i]).value, i)
  }

  /** The entry's message was accepted, or refused as a whole. */
  predicate Settled(c: Setup, s: State, i: nat)
    requires WantedAt(c, s, i)
  {
    MsgAt(c, s, i) in s.accepted || MsgAt(c, s, i) in s.refused
  }

  ghost predicate IsRun(c: Setup, run: seq<State>, steps: seq<Step>)
  {
    && |run| == |steps| + 1
    && forall i | 0 <= i < |steps| :: Enabled(run[i], steps[i]) && run[i + 1] == Apply(c, run[i], steps[i])
  }

  /** Before the first start: any journal, and any cursor on disk that names one of its
      entries. */
  ghost predicate Initial(s: State)
  {
    !s.up && s.accepted == [] && s.refused == [] && (s.disk.Some? ==> s.disk.value < |s.journal|)
  }

  lemma RunJoin(c: Setup, run: seq<State>, steps: seq<Step>, run2: seq<State>, steps2: seq<Step>)
    requires IsRun(c, run, steps) && IsRun(c, run2, steps2) && run[|steps|] == run2[0]
    ensures IsRun(c, run + run2[1..], steps + steps2)
    ensures (run + run2[1..])[|steps|..] == run2
    ensures (run + run2[1..])[0] == run[0] && (run + run2[1..])[|steps + steps2|] == run2[|steps2|]
  {
    hide Enabled, Apply;
    var all, n := run + run2[1..], |steps|;
    forall k | 0 <= k < |run2|
      ensures all[n + k] == run2[k]
    {
    }
    forall i | 0 <= i < n + |steps2|
      ensures Enabled(all[i], (steps + steps2)[i]) && all[i + 1] == Apply(c, all[i], (steps + steps2)[i])
    {
      if i < n {
        assert all[i] == run[i] && all[i + 1] == run[i + 1];
      } else {
        assert all[n + (i - n)] == run2[i - n] && all[n + (i - n + 1)] == run2[i - n + 1];
      }
    }
  }

  // ---- the machine's reading is the tailer's ----

  /** The state after handling the next `n` entries. */
  function Reads(c: Setup, s: State, n: nat): State
    requires s.up && s.reader.Some? && s.reader.value + n <= |s.journal|
    decreases n
  {
    if n == 0 then s else Reads(c, Apply(c, s, HandleNext), n - 1)
  }

  /** Handling entries one step at a time puts their messages in flight, in order. */
  lemma {:induction false} ReadsAreMessages(c: Setup, s: State, n: nat)
    requires s.up && s.reader.Some? && s.reader.value + n <= |s.journal|
    ensures var i := s.reader.value;
            Reads(c, s, n) ==
            s.(reader := Some(i + n), flight := s.flight + Messages(c.filters, s.journal[i..i + n], i))
    decreases n
  {
    hide Deliver;
    var i := s.reader.value;
    if n == 0 {
      assert s.flight + [] == s.flight;
    } else {
      var entries, s1 := s.journal[i..i + n], Apply(c, s, HandleNext);
      ReadsAreMessages(c, s1, n - 1);
      assert s.journal[i + 1..i + n] == entries[1..];
      FirstMessage(c.filters, entries, 0, i, s.flight);
      assert entries[0..] == entries;
    }
  }

  /** A prefix of the messages of some entries is the messages of the first of them. */
  lemma {:induction false} PrefixOfMessages(filters: seq<Rule>, entries: seq<Entry>, at: nat, room: nat)
      returns (n: nat)
    ensures n <= |entries|
    ensures var all := Messages(filters, entries, at);
            Messages(filters, entries[..n], at) == all[..Min(|all|, room)]
  {
    hide Deliver;
    var all := Messages(filters, entries, at);
    if entries == [] || room == 0 {
      n := 0;
    } else {
      var d := Deliver(filters, entries[0]);
      var m := PrefixOfMessages(filters, entries[1..], at + 1, if d.Some? then room - 1 else room);
      n := m + 1;
      assert entries[..n][1..] == entries[1..][..m];
      var rest := Messages(filters, entries[1..], at + 1);
      var first := if d.Some? then [Msg(d.value, at)] else [];
      var k := Min(|rest|, room - |first|);
      assert (first + rest)[..|first| + k] == first + rest[..k];
    }
  }

  /** What the tailer sends of the child's output is, in every case, what some number of the
      machine's steps put in flight: all of it, or what came before the first message that did
      not fit. */
  lemma StepsAreStream(c: Setup, s: State, m: nat, room: nat) returns (n: nat)
    requires s.up && s.reader.Some? && s.reader.value + m <= |s.journal|
    ensures n <= m
    ensures var i := s.reader.value;
            var all := Messages(c.filters, s.journal[i..i + m], i);
            Reads(c, s, n).flight == s.flight + all[..Min(|all|, room)]
  {
    hide Messages, Reads;
    var i := s.reader.value;
    n := PrefixOfMessages(c.filters, s.journal[i..i + m], i, room);
    assert s.journal[i..i + m][..n] == s.journal[i..i + n];
    ReadsAreMessages(c, s, n);
  }

  // ---- delivery ----

  /** Every wanted entry in [lo, hi) has been settled, or is among `q`. */
  ghost predicate Held(c: Setup, s: State, lo: nat, hi: nat, q: seq<Msg>)
  {
    lo <= hi <= |s.journal| &&
    forall i | lo <= i < hi && WantedAt(c, s, i) :: Settled(c, s, i) || MsgAt(c, s, i) in q
  }

  /** A start of the child without a stored cursor passes over a wanted entry that was logged
      after one still in flight and has not been settled. */
  ghost predicate Skips(c: Setup, s: State)
  {
    && s.cursor.None? && !c.beginning && s.flight != []
    && exists i :: s.flight[|s.flight| - 1].at < i && WantedAt(c, s, i) && !Settled(c, s, i)
  }

  ghost predicate NoSkips(c: Setup, run: seq<State>, steps: seq<Step>)
    requires |run| == |steps| + 1
  {
    forall k | 0 <= k < |steps| && steps[k].Spawn? :: !Skips(c, run[k])
  }

  ghost predicate CursorOk(c: Setup, s: State, lo: nat, cursor: Option<nat>)
  {
    cursor.Some? ==> Held(c, s, lo, cursor.value + 1, [])
  }

  /** The message is that of a wanted entry from `lo` on, and nothing wanted lies before it that
      is not settled or among `q`. */
  ghost predicate FlightOk(c: Setup, s: State, lo: nat, m: Msg, q: seq<Msg>)
  {
    lo <= m.at && WantedAt(c, s, m.at) && m == MsgAt(c, s, m.at) && Held(c, s, lo, m.at, q)
  }

  /** From position `lo` on, nothing wanted lies before a stored cursor, a message in flight or
      the reader that is not settled or in flight before it. */
  ghost predicate Ok(c: Setup, s: State, lo: nat)
  {
    && CursorOk(c, s, lo, s.disk)
    && (c.beginning && s.disk.None? ==> lo == 0)
    && (s.up ==>
          && CursorOk(c, s, lo, s.cursor)
          && (s.disk.Some? ==> s.cursor.Some?)
          && (s.snap.Some? && s.snap.value.Some? ==> s.cursor.Some?)
          && (s.snap.Some? && s.disk.Some? ==> s.snap.value.Some?)
          && (s.snap.Some? ==> CursorOk(c, s, lo, s.snap.value))
          && (s.reader.Some? ==> Held(c, s, lo, s.reader.value, s.flight))
          && s.acking <= |s.flight|
          && (forall j | 0 <= j < s.acking :: s.flight[j] in s.accepted)
          && (forall j | 0 <= j < |s.flight| :: FlightOk(c, s, lo, s.flight[j], s.flight[..j])))
  }

  /** Nothing of the journal or of what is settled is lost from `s` to `s'`. */
  predicate Later(s: State, s': State)
  {
    && s.journal <= s'.journal
    && (forall m :: m in s.accepted ==> m in s'.accepted)
    && (forall m :: m in s.refused ==> m in s'.refused)
  }

  lemma HeldKept(c: Setup, s: State, s': State, lo: nat, hi: nat, q: seq<Msg>, q': seq<Msg>)
    requires Held(c, s, lo, hi, q) && Later(s, s')
    requires forall m :: m in q ==> m in s'.accepted || m in s'.refused || m in q'
    ensures Held(c, s', lo, hi, q')
  {
    hide Deliver;
    forall i | lo <= i < hi && WantedAt(c, s', i)
      ensures Settled(c, s', i) || MsgAt(c, s', i) in q'
    {
      assert WantedAt(c, s, i) && MsgAt(c, s, i) == MsgAt(c, s', i);
    }
  }

  lemma CursorKept(c: Setup, s: State, s': State, lo: nat, cursor: Option<nat>)
    requires CursorOk(c, s, lo, cursor) && Later(s, s')
    ensures CursorOk(c, s', lo, cursor)
  {
    hide Held, Later;
    if cursor.Some? {
      HeldKept(c, s, s', lo, cursor.value + 1, [], []);
    }
  }

  lemma FlightKept(c: Setup, s: State, s': State, lo: nat, m: Msg, q: seq<Msg>, q': seq<Msg>)
    requires FlightOk(c, s, lo, m, q) && Later(s, s')
    requires forall m :: m in q ==> m in s'.accepted || m in s'.refused || m in q'
    ensures FlightOk(c, s', lo, m, q')
  {
    HeldKept(c, s, s', lo, m.at, q, q');
    hide Deliver, Held;
  }

  lemma CursorsKept(c: Setup, s: State, s': State, lo: nat)
    requires Ok(c, s, lo) && s.up && Later(s, s')
    ensures CursorOk(c, s', lo, s.disk) && CursorOk(c, s', lo, s.cursor)
    ensures s.snap.Some? ==> CursorOk(c, s', lo, s.snap.value)
  {
    hide CursorOk, FlightOk, Held, Later;
    CursorKept(c, s, s', lo, s.disk);
    CursorKept(c, s, s', lo, s.cursor);
    if s.snap.Some? {
      CursorKept(c, s, s', lo, s.snap.value);
    }
  }

  lemma AcceptKeeps(c: Setup, s: State, lo: nat, n: nat)
    requires Ok(c, s, lo) && Enabled(s, Accept(n))
    ensures Ok(c, Apply(c, s, Accept(n)), lo)
  {
    hide Held, CursorOk, FlightOk;
    var s' := Apply(c, s, Accept(n));
    CursorsKept(c, s, s', lo);
    if s.reader.Some? {
      HeldKept(c, s, s', lo, s.reader.value, s.flight, s.flight);
    }
    forall j | 0 <= j < |s.flight|
      ensures FlightOk(c, s', lo, s'.flight[j], s'.flight[..j])
    {
      FlightKept(c, s, s', lo, s.flight[j], s.flight[..j], s.flight[..j]);
    }
  }

  /** The first `n` messages in flight are settled and leave. */
  lemma FrontLeaves(c: Setup, s: State, s': State, lo: nat, n: nat)
    requires Ok(c, s, lo) && s.up && Later(s, s') && n <= |s.flight| && s'.flight == s.flight[n..]
    requires forall j | 0 <= j < n :: s.flight[j] in s'.accepted || s.flight[j] in s'.refused
    ensures s.reader.Some? ==> Held(c, s', lo, s.reader.value, s'.flight)
    ensures forall j | 0 <= j < |s'.flight| :: FlightOk(c, s', lo, s'.flight[j], s'.flight[..j])
  {
    hide Held, CursorOk, FlightOk, Later;
    if s.reader.Some? {
      Behind(s.flight, n, |s.flight|);
      HeldKept(c, s, s', lo, s.reader.value, s.flight, s'.flight);
    }
    forall j | 0 <= j < |s'.flight|
      ensures FlightOk(c, s', lo, s'.flight[j], s'.flight[..j])
    {
      Behind(s.flight, n, n + j);
      FlightKept(c, s, s', lo, s.flight[n + j], s.flight[..n + j], s'.flight[..j]);
    }
  }

  lemma Behind(q: seq<Msg>, n: nat, k: nat)
    requires n <= k <= |q|
    ensures forall m :: m in q[..k] ==> m in q[..n] || m in q[n..][..k - n]
    ensures q[..|q|] == q && q[n..][..|q| - n] == q[n..]
  {
    assert q[..k] == q[..n] + q[n..][..k - n];
  }

  lemma AckKeeps(c: Setup, s: State, lo: nat)
    requires Ok(c, s, lo) && Enabled(s, Ack)
    ensures Ok(c, Apply(c, s, Ack), lo)
  {
    hide Held, FlightOk;
    var s' := Apply(c, s, Ack);
    CursorsKept(c, s, s', lo);
    FrontLeaves(c, s, s', lo, 1);
    assert FlightOk(c, s, lo, s.flight[0], s.flight[..0]);
    HeldUpTo(c, s, s', lo, s.flight[0]);
  }

  lemma HeldUpTo(c: Setup, s: State, s': State, lo: nat, m: Msg)
    requires FlightOk(c, s, lo, m, []) && m in s.accepted && Later(s, s')
    ensures Held(c, s', lo, m.at + 1, [])
  {
    hide Deliver;
    HeldKept(c, s, s', lo, m.at, [], []);
  }

  lemma RefuseKeeps(c: Setup, s: State, lo: nat, n: nat)
    requires Ok(c, s, lo) && Enabled(s, Refuse(n))
    ensures Ok(c, Apply(c, s, Refuse(n)), lo)
  {
    hide Held, CursorOk, FlightOk;
    var s' := Apply(c, s, Refuse(n));
    CursorsKept(c, s, s', lo);
    FrontLeaves(c, s, s', lo, n);
  }

  lemma HandleKeeps(c: Setup, s: State, lo: nat)
    requires Ok(c, s, lo) && Enabled(s, HandleNext)
    ensures Ok(c, Apply(c, s, HandleNext), lo)
  {
    hide CursorOk, FlightOk, Deliver;
    var s', i := Apply(c, s, HandleNext), s.reader.value;
    CursorsKept(c, s, s', lo);
    HandleHeld(c, s, lo);
    hide Held;
    forall j | 0 <= j < |s.flight|
      ensures FlightOk(c, s', lo, s'.flight[j], s'.flight[..j])
    {
      assert s'.flight[..j] == s.flight[..j];
      FlightKept(c, s, s', lo, s.flight[j], s.flight[..j], s.flight[..j]);
    }
  }

  lemma HandleHeld(c: Setup, s: State, lo: nat)
    requires Enabled(s, HandleNext) && Held(c, s, lo, s.reader.value, s.flight)
    ensures var s', i := Apply(c, s, HandleNext), s.reader.value;
            && Held(c, s', lo, i + 1, s'.flight)
            && (WantedAt(c, s, i) ==>
                  && s'.flight == s.flight + [MsgAt(c, s, i)]
                  && FlightOk(c, s', lo, MsgAt(c, s, i), s.flight)
                  && s'.flight[..|s.flight|] == s.flight)
  {
    hide Deliver;
    var s', i := Apply(c, s, HandleNext), s.reader.value;
    HeldKept(c, s, s', lo, i, s.flight, s'.flight);
    HeldKept(c, s, s', lo, i, s.flight, s.flight);
    SameWanted(c, s, s');
    if WantedAt(c, s, i) {
      assert MsgAt(c, s', i) in s'.flight;
    }
  }

  lemma LogKeeps(c: Setup, s: State, lo: nat, e: Entry)
    requires Ok(c, s, lo)
    ensures Ok(c, Apply(c, s, Log(e)), lo)
  {
    hide Held, FlightOk, CursorOk;
    var s' := Apply(c, s, Log(e));
    CursorKept(c, s, s', lo, s.disk);
    if s.up {
      CursorsKept(c, s, s', lo);
      FrontLeaves(c, s, s', lo, 0);
    }
  }

  /** Where the claim begins after a step: a child started at the end, with no cursor stored and
      nothing in flight, answers from there on. */
  function From(c: Setup, s: State, st: Step, lo: nat): nat
  {
    if st.Spawn? && s.cursor.None? && !c.beginning && s.flight == [] then |s.journal| else lo
  }

  lemma SpawnKeeps(c: Setup, s: State, lo: nat)
    requires Ok(c, s, lo) && Enabled(s, Spawn) && !Skips(c, s)
    ensures Ok(c, Apply(c, s, Spawn), From(c, s, Spawn, lo))
  {
    var s', lo' := Apply(c, s, Spawn), From(c, s, Spawn, lo);
    SpawnHeld(c, s, lo);
    hide Skips, Held, FlightOk;
    CursorsKept(c, s, s', lo);
    FrontLeaves(c, s, s', lo, 0);
  }

  /** Nothing wanted lies before where the child starts that is not settled or in flight. */
  lemma SpawnHeld(c: Setup, s: State, lo: nat)
    requires Ok(c, s, lo) && Enabled(s, Spawn) && !Skips(c, s)
    ensures Held(c, Apply(c, s, Spawn), From(c, s, Spawn, lo), StartOf(c, s), s.flight)
  {
    hide Deliver;
    var s', n := Apply(c, s, Spawn), |s.flight|;
    if s.cursor.Some? {
      HeldKept(c, s, s', lo, s.cursor.value + 1, [], s.flight);
    } else if !c.beginning && n > 0 {
      var last := s.flight[n - 1];
      assert FlightOk(c, s, lo, last, s.flight[..n - 1]);
      forall i | lo <= i < |s.journal| && WantedAt(c, s', i)
        ensures Settled(c, s', i) || MsgAt(c, s', i) in s.flight
      {
        assert WantedAt(c, s, i) && MsgAt(c, s, i) == MsgAt(c, s', i);
      }
    }
  }

  lemma SameWanted(c: Setup, s: State, s': State)
    requires s.journal == s'.journal
    ensures forall i :: WantedAt(c, s, i) == WantedAt(c, s', i)
    ensures forall i | WantedAt(c, s, i) :: MsgAt(c, s, i) == MsgAt(c, s', i)
  {
  }

  lemma StepKeeps(c: Setup, s: State, lo: nat, st: Step)
    requires Ok(c, s, lo) && Enabled(s, st) && (st.Spawn? ==> !Skips(c, s))
    ensures Ok(c, Apply(c, s, st), From(c, s, st, lo))
    ensures s.disk.Some? ==> From(c, s, st, lo) == lo && Apply(c, s, st).disk.Some?
  {
    match st {
      case Log(e) => LogKeeps(c, s, lo, e);
      case HandleNext => HandleKeeps(c, s, lo);
      case Accept(n) => AcceptKeeps(c, s, lo, n);
      case Ack => AckKeeps(c, s, lo);
      case Refuse(n) => RefuseKeeps(c, s, lo, n);
      case Spawn => SpawnKeeps(c, s, lo);
      case _ => PlainKeeps(c, s, lo, st);
    }
    hide FlightOk, CursorOk, Skips;
  }

  /** The steps that move neither entries nor messages. */
  lemma PlainKeeps(c: Setup, s: State, lo: nat, st: Step)
    requires Ok(c, s, lo) && Enabled(s, st)
    requires st.Boot? || st.Exit? || st.TakeSnapshot? || st.WriteSnapshot? || st.Crash?
    ensures Ok(c, Apply(c, s, st), lo)
    ensures s.disk.Some? ==> Apply(c, s, st).disk.Some?
  {
    var s' := Apply(c, s, st);
    CursorKept(c, s, s', lo, s.disk);
    hide CursorOk, FlightOk, Held;
    if s.up {
      CursorsKept(c, s, s', lo);
      FrontLeaves(c, s, s', lo, 0);
    }
  }

  lemma {:induction false} RunOk(c: Setup, run: seq<State>, steps: seq<Step>, i: nat) returns (lo: nat)
    requires IsRun(c, run, steps) && Initial(run[0]) && NoSkips(c, run, steps) && i < |run|
    ensures Ok(c, run[i], lo)
    ensures run[0].disk.Some? ==> run[i].disk.Some? && lo == run[0].disk.value + 1
    ensures run[0].disk.None? && c.beginning ==> lo == 0
  {
    if i == 0 {
      lo := if run[0].disk.Some? then run[0].disk.value + 1 else 0;
    } else {
      var before := RunOk(c, run, steps, i - 1);
      StepKeeps(c, run[i - 1], before, steps[i - 1]);
      lo := From(c, run[i - 1], steps[i - 1], before);
      hide Ok, Enabled, Apply;
    }
  }

  lemma {:induction false} RunKeeps(c: Setup, run: seq<State>, steps: seq<Step>, i: nat, j: nat, lo: nat)
    requires IsRun(c, run, steps) && NoSkips(c, run, steps) && i <= j < |run|
    requires Ok(c, run[i], lo) && run[i].disk.Some?
    ensures Ok(c, run[j], lo) && run[j].disk.Some?
    decreases j
  {
    hide Ok, Enabled, Apply, Skips;
    if i == j {
    } else {
      RunKeeps(c, run, steps, i, j - 1, lo);
      StepKeeps(c, run[j - 1], lo, steps[j - 1]);
    }
  }

  /** At least once: in any run of appends, child exits and restarts, accepted and refused
      batches, single acknowledgements, registry flushes, crashes and starts in which no start of
      the child skips, every wanted entry from `lo` up to the cursor on disk has been accepted or
      refused, as the whole message the rules made of it. `lo` is at most one past any cursor that
      was on disk before; it is one past the cursor the run began with, or the beginning of the
      journal if the source starts there. */
  lemma JournalAtLeastOnce(c: Setup, run: seq<State>, steps: seq<Step>, i: nat, j: nat) returns (lo: nat)
    requires IsRun(c, run, steps) && Initial(run[0]) && NoSkips(c, run, steps)
    requires i <= j < |run| && run[i].disk.Some?
    ensures run[j].disk.Some? && lo <= run[i].disk.value + 1 && run[j].disk.value < |run[j].journal|
    ensures forall k | lo <= k <= run[j].disk.value && WantedAt(c, run[j], k) :: Settled(c, run[j], k)
    ensures run[0].disk.Some? ==> lo == run[0].disk.value + 1
    ensures run[0].disk.None? && c.beginning ==> lo == 0
  {
    hide NoSkips, WantedAt;
    lo := RunOk(c, run, steps, i);
    RunKeeps(c, run, steps, i, j, lo);
    hide Initial, IsRun;
    assert Held(c, run[j], lo, run[j].disk.value + 1, []);
    assert Held(c, run[i], lo, run[i].disk.value + 1, []);
  }

  // ---- the exact condition ----

  /** Between two cursors the run has had on disk lies a wanted entry never accepted or refused. */
  ghost predicate Loses(c: Setup, run: seq<State>)
  {
    exists i: nat, j: nat, k: nat :: LosesAt(c, run, i, j, k)
  }

  ghost predicate LosesAt(c: Setup, run: seq<State>, i: nat, j: nat, k: nat)
  {
    && i <= j < |run| && run[i].disk.Some? && run[j].disk.Some?
    && run[i].disk.value < k < run[j].disk.value && WantedAt(c, run[j], k) && !Settled(c, run[j], k)
  }

  /** No later start skips, whatever the first step does. */
  ghost predicate NoLaterSkips(c: Setup, run: seq<State>, steps: seq<Step>)
    requires |run| == |steps| + 1 && steps != []
  {
    forall k | 1 <= k < |steps| && steps[k].Spawn? :: !Skips(c, run[k])
  }

  /** A way on from `s`: a run that begins by starting the child, and in which no later start
      skips. */
  ghost predicate WayOn(c: Setup, s: State, run: seq<State>, steps: seq<Step>)
  {
    && IsRun(c, run, steps) && run[0] == s && steps != [] && steps[0] == Spawn
    && NoLaterSkips(c, run, steps)
  }

  /** Everything in flight is accepted and acknowledged, message by message. */
  lemma {:induction false} AckFlight(c: Setup, s: State) returns (run: seq<State>, steps: seq<Step>)
    requires s.up && s.flight != [] && s.acking <= |s.flight|
    ensures IsRun(c, run, steps) && run[0] == s
    ensures run[|steps|] == s.(accepted := s.accepted + s.flight[s.acking..], flight := [], acking := 0,
                               cursor := Some(s.flight[|s.flight| - 1].at))
    ensures forall k | 0 <= k < |steps| :: !steps[k].Spawn?
    decreases |s.flight|, if s.acking == 0 then 1 else 0
  {
    var n := |s.flight|;
    var st := if s.acking == 0 then Accept(n) else Ack;
    var s1 := Apply(c, s, st);
    assert IsRun(c, [s, s1], [st]);
    if s1.flight == [] {
      assert s.flight[1..] == [] && s.accepted + [] == s.accepted;
      run, steps := [s, s1], [st];
    } else {
      var run1, steps1 := AckFlight(c, s1);
      assert s.acking == 0 ==> s.flight[..n] == s.flight[0..] && s.flight[n..] == [];
      assert s.acking > 0 ==> s1.flight[s1.acking..] == s.flight[s.acking..];
      assert s.accepted + s.flight + [] == s.accepted + s.flight;
      hide IsRun, Apply, Enabled;
      RunJoin(c, [s, s1], [st], run1, steps1);
      run, steps := [s, s1] + run1[1..], [st] + steps1;
    }
  }

  /** The same, and the last cursor reaches the disk. */
  lemma StoreFlight(c: Setup, s: State) returns (run: seq<State>, steps: seq<Step>)
    requires s.up && s.flight != [] && s.acking <= |s.flight|
    ensures IsRun(c, run, steps) && run[0] == s
    ensures var cur := Some(s.flight[|s.flight| - 1].at);
            run[|steps|] == s.(accepted := s.accepted + s.flight[s.acking..], flight := [], acking := 0,
                               cursor := cur, disk := cur, snap := None)
    ensures forall k | 0 <= k < |steps| :: !steps[k].Spawn?
  {
    var run1, steps1 := AckFlight(c, s);
    var s1 := run1[|steps1|];
    var s2 := s1.(snap := Some(s1.cursor));
    var s3 := s2.(disk := s1.cursor, snap := None);
    assert IsRun(c, [s1, s2, s3], [TakeSnapshot, WriteSnapshot]);
    hide IsRun, Apply, Enabled;
    RunJoin(c, run1, steps1, [s1, s2, s3], [TakeSnapshot, WriteSnapshot]);
    run, steps := run1 + [s1, s2, s3][1..], steps1 + [TakeSnapshot, WriteSnapshot];
  }

  lemma LosesJoin(c: Setup, run: seq<State>, steps: seq<Step>, run2: seq<State>, steps2: seq<Step>)
    requires IsRun(c, run, steps) && IsRun(c, run2, steps2) && run[|steps|] == run2[0] && Loses(c, run2)
    ensures IsRun(c, run + run2[1..], steps + steps2) && Loses(c, run + run2[1..])
    ensures (run + run2[1..])[0] == run[0]
  {
    RunJoin(c, run, steps, run2, steps2);
    hide Enabled, Apply, Loses;
    LosesLater(c, run + run2[1..], |steps|, run2);
  }

  /** Once the cursor of an earlier entry is on disk, the entry `e` logged and stored behind `k`
      makes the loss of `k` final. */
  lemma StoreBehind(c: Setup, s: State, k: nat) returns (run: seq<State>, steps: seq<Step>)
    requires s.up && s.reader == Some(|s.journal|) && s.flight == [] && s.acking == 0
    requires s.disk.Some? && s.disk.value < k && WantedAt(c, s, k) && !Settled(c, s, k)
    ensures IsRun(c, run, steps) && run[0] == s && Loses(c, run)
    ensures forall k | 0 <= k < |steps| :: !steps[k].Spawn?
  {
    hide Deliver;
    var l, e := |s.journal|, s.journal[k];
    var s1 := s.(journal := s.journal + [e]);
    assert WantedAt(c, s1, l);
    var m := MsgAt(c, s1, l);
    var s2 := s1.(reader := Some(l + 1), flight := [m]);
    assert [] + [m] == [m];
    assert IsRun(c, [s, s1, s2], [Log(e), HandleNext]);
    var run1, steps1 := StoreFlight(c, s2);
    hide IsRun, Apply, Enabled;
    RunJoin(c, [s, s1, s2], [Log(e), HandleNext], run1, steps1);
    run, steps := [s, s1, s2] + run1[1..], [Log(e), HandleNext] + steps1;
    assert WantedAt(c, run1[|steps1|], k) && MsgAt(c, run1[|steps1|], k) == MsgAt(c, s, k);
    IsRunLength(c, run, steps);
    assert LosesAt(c, run, 0, |steps|, k);
  }

  lemma IsRunLength(c: Setup, run: seq<State>, steps: seq<Step>)
    requires IsRun(c, run, steps)
    ensures |run| == |steps| + 1
  {
  }

  /** The run that shows the loss: what is in flight is accepted and its cursor stored, then an
      entry logged afterwards is, and the skipped one lies between. */
  lemma SkipLoses(c: Setup, s: State) returns (run: seq<State>, steps: seq<Step>)
    requires Enabled(s, Spawn) && Skips(c, s) && s.acking <= |s.flight|
    requires forall j | 0 <= j < |s.flight| :: s.flight[j].at <= s.flight[|s.flight| - 1].at
    ensures WayOn(c, s, run, steps) && Loses(c, run)
  {
    hide Deliver, Loses;
    var k: nat :| s.flight[|s.flight| - 1].at < k && WantedAt(c, s, k) && !Settled(c, s, k);
    var s1 := s.(reader := Some(|s.journal|));
    assert IsRun(c, [s, s1], [Spawn]);
    var run1, steps1 := StoreFlight(c, s1);
    var s2 := run1[|steps1|];
    assert MsgAt(c, s2, k) == MsgAt(c, s, k) && MsgAt(c, s, k) !in s.flight;
    hide IsRun, Apply, Enabled;
    var run2, steps2 := StoreBehind(c, s2, k);
    LosesJoin(c, run1, steps1, run2, steps2);
    var run3, steps3 := run1 + run2[1..], steps1 + steps2;
    LosesJoin(c, [s, s1], [Spawn], run3, steps3);
    run, steps := [s, s1] + run3[1..], [Spawn] + steps3;
    IsRunLength(c, run, steps);
  }

  /** As long as no start has skipped, messages are in flight in order when no cursor is stored
      and the source starts at the end. */
  ghost predicate FlightInOrder(c: Setup, s: State)
  {
    && (s.up ==> s.acking <= |s.flight|)
    && (s.up && s.cursor.None? && !c.beginning ==>
          && (forall j, k | 0 <= j < k < |s.flight| :: s.flight[j].at <= s.flight[k].at)
          && (forall j | 0 <= j < |s.flight| :: s.flight[j].at < |s.journal|)
          && (s.reader.Some? ==>
                && s.reader.value <= |s.journal|
                && forall j | 0 <= j < |s.flight| :: s.flight[j].at < s.reader.value))
  }

  lemma StepKeepsFlight(c: Setup, s: State, st: Step)
    requires Enabled(s, st) && FlightInOrder(c, s)
    ensures FlightInOrder(c, Apply(c, s, st))
  {
    hide Wanted;
  }

  lemma {:induction false} RunKeepsFlight(c: Setup, run: seq<State>, steps: seq<Step>, i: nat)
    requires IsRun(c, run, steps) && Initial(run[0]) && i < |run|
    ensures FlightInOrder(c, run[i])
  {
    hide Enabled, Apply;
    if i == 0 {
    } else {
      RunKeepsFlight(c, run, steps, i - 1);
      StepKeepsFlight(c, run[i - 1], steps[i - 1]);
    }
  }

  lemma NoSkipsJoin(c: Setup, run: seq<State>, steps: seq<Step>, run2: seq<State>, steps2: seq<Step>)
    requires IsRun(c, run, steps) && NoSkips(c, run, steps) && WayOn(c, run[|steps|], run2, steps2)
    requires !Skips(c, run[|steps|])
    ensures IsRun(c, run + run2[1..], steps + steps2) && NoSkips(c, run + run2[1..], steps + steps2)
  {
    RunJoin(c, run, steps, run2, steps2);
    hide Skips, IsRun;
    var all, n := run + run2[1..], |steps|;
    assert forall k | 0 <= k < |run2| :: all[n + k] == all[n..][k];
  }

  /** The exact condition: after any run in which no start of the child has skipped, starting it
      is safe exactly when it does not skip. If it does not, no way on ever loses a wanted entry
      between two cursors on disk, as long as no later start skips either; if it does, some way
      on loses one. */
  lemma RespawnExactly(c: Setup, run: seq<State>, steps: seq<Step>)
    requires IsRun(c, run, steps) && Initial(run[0]) && NoSkips(c, run, steps) && Enabled(run[|steps|], Spawn)
    ensures (exists run2, steps2 :: WayOn(c, run[|steps|], run2, steps2) && Loses(c, run + run2[1..]))
            <==> Skips(c, run[|steps|])
  {
    var s := run[|steps|];
    if Skips(c, s) {
      RunKeepsFlight(c, run, steps, |steps|);
      var run2, steps2 := SkipLoses(c, s);
      LosesJoin(c, run, steps, run2, steps2);
    } else {
      forall run2, steps2 | WayOn(c, s, run2, steps2)
        ensures !Loses(c, run + run2[1..])
      {
        NoSkipsJoin(c, run, steps, run2, steps2);
        assert (run + run2[1..])[0] == run[0];
        NeverLoses(c, run + run2[1..], steps + steps2);
      }
    }
  }

  lemma NeverLoses(c: Setup, run: seq<State>, steps: seq<Step>)
    requires IsRun(c, run, steps) && Initial(run[0]) && NoSkips(c, run, steps)
    ensures !Loses(c, run)
  {
    hide NoSkips, IsRun, WantedAt;
    forall i: nat, j: nat, k: nat | LosesAt(c, run, i, j, k)
      ensures false
    {
      var lo := JournalAtLeastOnce(c, run, steps, i, j);
      assert false;
    }
  }

  /** The failing family is not empty: a source that starts at the end, an entry in flight, the
      child gone, an entry logged meanwhile, and the child started again. */
  lemma RespawnLoses(c: Setup, e: Entry) returns (run: seq<State>, steps: seq<Step>)
    requires !c.beginning && Wanted(c.filters, e)
    ensures IsRun(c, run, steps) && Initial(run[0]) && Loses(c, run)
    ensures run[0] == State([], false, None, [], 0, [], [], None, None, None)
  {
    hide Wanted;
    var s0 := State([], false, None, [], 0, [], [], None, None, None);
    var s2 := s0.(up := true, reader := Some(0));
    var s3 := s2.(journal := [e]);
    assert IsRun(c, [s0, s0.(up := true), s2, s3], [Boot, Spawn, Log(e)]) by {
      assert [] + [e] == [e];
    }
    var m := MsgAt(c, s3, 0);
    var s4 := s3.(reader := Some(1), flight := [m]);
    var s5 := s4.(reader := None);
    var s6 := s5.(journal := [e, e]);
    assert IsRun(c, [s3, s4, s5, s6], [HandleNext, Exit, Log(e)]) by {
      assert [] + [m] == [m] && [e] + [e] == [e, e];
    }
    assert WantedAt(c, s6, 1);
    assert Skips(c, s6);
    hide IsRun, Apply, Enabled;
    var run1, steps1 := SkipLoses(c, s6);
    LosesJoin(c, [s3, s4, s5, s6], [HandleNext, Exit, Log(e)], run1, steps1);
    var run2, steps2 := [s3, s4, s5, s6] + run1[1..], [HandleNext, Exit, Log(e)] + steps1;
    LosesJoin(c, [s0, s0.(up := true), s2, s3], [Boot, Spawn, Log(e)], run2, steps2);
    run, steps := [s0, s0.(up := true), s2, s3] + run2[1..], [Boot, Spawn, Log(e)] + steps2;
  }

  lemma LosesLater(c: Setup, run: seq<State>, n: nat, run2: seq<State>)
    requires n <= |run| && run[n..] == run2 && Loses(c, run2)
    ensures Loses(c, run)
  {
    hide WantedAt;
    var i: nat, j: nat, k: nat :| LosesAt(c, run2, i, j, k);
    assert run[n + i] == run2[i] && run[n + j] == run2[j];
    assert LosesAt(c, run, n + i, n + j, k);
  }
}
