/**
 The process reporter's memory between collections: create times pinned to the first value
 seen, and rates from differences of cumulative counters. Times are exact seconds.
 */
module Reporter {
  import opened Basics

  const TWO63: int := 0x8000_0000_0000_0000
  const SLACK: int := 2000

  type Int64 = x: int | -TWO63 <= x < TWO63
  type Word = x: int | 0 <= x < TWO64

  datatype Counters = Counters(user: real, sys: real, readBytes: Word, writeBytes: Word, readCount: Word,
                               writeCount: Word)

  /** One process as collected. */
  datatype Proc = Proc(pid: int, createTime: Int64, counters: Counters)

  datatype Rates = Rates(userPct: real, systemPct: real, totalPct: real,
                         readBytes: real, writeBytes: real, readOps: real, writeOps: real)

  const NONE := Rates(0.0, 0.0, 0.0, 0.0, 0.0, 0.0, 0.0)

  /** One process as reported. */
  datatype Record = Record(pid: int, createTime: Int64, counters: Counters, rates: Rates)

  datatype Previous = Previous(createTime: Int64, counters: Counters)

  type Memory = map<int, Previous>

  // ---- one process ----

  /** Subtraction of 64-bit signed integers. */
  function Minus(a: Int64, b: Int64): Int64
  {
    var d := a - b;
    if d >= TWO63 then d - TWO64 else if d < -TWO63 then d + TWO64 else d
  }

  /** The absolute value of a 64-bit signed integer; the least one is its own negative. */
  function Abs64(v: Int64): Int64
  {
    if v < 0 && v != -TWO63 then -v else v
  }

  predicate Close(a: Int64, b: Int64) { Abs64(Minus(a, b)) < SLACK }

  /** A process is taken for the same one when its create time moved by less than the slack,
      or by so much that the 64-bit difference comes round to that or to the least integer. */
  lemma CloseMeans(a: Int64, b: Int64)
    ensures var d := if a < b then b - a else a - b;
            Close(a, b) <==> d < SLACK || d == TWO63 || d > TWO64 - SLACK
  {
  }

  function Pct(cur: real, was: real, dt: real): real
  {
    if cur <= was || dt <= 0.0 then 0.0 else (cur - was) / dt * 100.0
  }

  function PerSecond(cur: Word, was: Word, dt: real): real
  {
    if cur <= was || dt <= 0.0 then 0.0 else (cur - was) as real / dt
  }

  function Pinned(m: Memory, p: Proc): Int64
  {
    if p.pid in m && Close(m[p.pid].createTime, p.createTime) then m[p.pid].createTime else p.createTime
  }

  function Diff(c: Counters, was: Counters, dt: real): Rates
  {
    var u, s := Pct(c.user, was.user, dt), Pct(c.sys, was.sys, dt);
    Rates(u, s, u + s,
          PerSecond(c.readBytes, was.readBytes, dt), PerSecond(c.writeBytes, was.writeBytes, dt),
          PerSecond(c.readCount, was.readCount, dt), PerSecond(c.writeCount, was.writeCount, dt))
  }

  function Report(m: Memory, p: Proc, dt: real): Record
  {
    var t := Pinned(m, p);
    Record(p.pid, t, p.counters,
           if dt > 0.0 && p.pid in m && m[p.pid].createTime == t then Diff(p.counters, m[p.pid].counters, dt) else NONE)
  }

  // ---- one collection ----

  function ReportAll(m: Memory, procs: seq<Proc>, dt: real): (out: seq<Record>)
    ensures |out| == |procs|
    ensures forall k | 0 <= k < |procs| :: out[k] == Report(m, procs[k], dt)
  {
    seq(|procs|, k requires 0 <= k < |procs| => Report(m, procs[k], dt))
  }

  function Remember(m: Memory, procs: seq<Proc>): Memory
  {
    if procs == [] then map[]
    else
      var p := procs[|procs| - 1];
      Remember(m, procs[..|procs| - 1])[p.pid := Previous(Pinned(m, p), p.counters)]
  }

  class Reporter {
    var prev: Memory
    var prevTs: real

    constructor ()
      ensures prev == map[] && prevTs == 0.0
    {
      prev, prevTs := map[], 0.0;
    }

    method Rate(procs: seq<Proc>, now: real) returns (out: seq<Record>)
      modifies this
      ensures prev == Remember(old(prev), procs) && prevTs == now
      ensures out == ReportAll(old(prev), procs, now - old(prevTs))
    {
      hide Close, Diff;
      var dt := now - prevTs;
      var cur: Memory := map[];
      out := [];
      for i := 0 to |procs|
        invariant cur == Remember(prev, procs[..i])
        invariant out == ReportAll(prev, procs[..i], dt)
        invariant prev == old(prev) && prevTs == old(prevTs)
      {
        var p := procs[i];
        assert procs[..i + 1][..i] == procs[..i];
        if p.pid in prev && Close(prev[p.pid].createTime, p.createTime) {
          p := p.(createTime := prev[p.pid].createTime);
        }
        cur := cur[p.pid := Previous(p.createTime, p.counters)];
        var rates := NONE;
        if dt > 0.0 && p.pid in prev && prev[p.pid].createTime == p.createTime {
          rates := Diff(p.counters, prev[p.pid].counters, dt);
        }
        out := out + [Record(p.pid, p.createTime, p.counters, rates)];
      }
      assert procs[..|procs|] == procs;
      prev, prevTs := cur, now;
    }
  }

  // ---- one pid over a run of collections ----

  datatype Collection = Collection(procs: seq<Proc>, now: real)

  function MemoryAfter(cs: seq<Collection>): Memory
  {
    if cs == [] then map[] else Remember(MemoryAfter(cs[..|cs| - 1]), cs[|cs| - 1].procs)
  }

  /** What the reporter emits for collection `i`. */
  function Emitted(cs: seq<Collection>, i: nat): (out: seq<Record>)
    requires i < |cs|
    ensures |out| == |cs[i].procs|
  {
    ReportAll(MemoryAfter(cs[..i]), cs[i].procs, cs[i].now - if i == 0 then 0.0 else cs[i - 1].now)
  }

  /** Each collection lists the pid exactly once, at the given place. */
  ghost predicate Seen(cs: seq<Collection>, pid: int, at: seq<nat>)
  {
    && |at| == |cs|
    && forall i | 0 <= i < |cs| ::
         && at[i] < |cs[i].procs| && cs[i].procs[at[i]].pid == pid
         && forall k | 0 <= k < |cs[i].procs| && k != at[i] :: cs[i].procs[k].pid != pid
  }

  lemma {:induction false} RememberOnce(m: Memory, procs: seq<Proc>, k: nat)
    requires k < |procs| && forall j | 0 <= j < |procs| && j != k :: procs[j].pid != procs[k].pid
    ensures var r, p := Remember(m, procs), procs[k];
            p.pid in r && r[p.pid] == Previous(Pinned(m, p), p.counters)
  {
    hide Pinned;
    var front := procs[..|procs| - 1];
    if k == |front| {
    } else {
      RememberOnce(m, front, k);
    }
  }

  lemma SeenPrefix(cs: seq<Collection>, pid: int, at: seq<nat>)
    requires cs != [] && Seen(cs, pid, at)
    ensures Seen(cs[..|cs| - 1], pid, at[..|at| - 1])
  {
  }

  /** Every create time collected is close to the first one. */
  ghost predicate AllClose(cs: seq<Collection>, at: seq<nat>)
    requires |at| == |cs| && forall i | 0 <= i < |cs| :: at[i] < |cs[i].procs|
  {
    forall i | 0 <= i < |cs| :: Close(cs[0].procs[at[0]].createTime, cs[i].procs[at[i]].createTime)
  }

  lemma CloseToSelf(a: Int64)
    ensures Close(a, a)
  {
  }

  /** What the reporter remembers of a steady pid: its first create time, its last counters. */
  lemma {:induction false} Remembers(cs: seq<Collection>, pid: int, at: seq<nat>)
    requires cs != [] && Seen(cs, pid, at) && AllClose(cs, at)
    ensures var m, last := MemoryAfter(cs), cs[|cs| - 1].procs[at[|cs| - 1]];
            pid in m && m[pid] == Previous(cs[0].procs[at[0]].createTime, last.counters)
  {
    hide Close, Remember;
    var n := |cs| - 1;
    RememberOnce(MemoryAfter(cs[..n]), cs[n].procs, at[n]);
    if n > 0 {
      SeenPrefix(cs, pid, at);
      Remembers(cs[..n], pid, at[..n]);
    } else {
      NothingRemembered(cs[..0]);
    }
  }

  lemma NothingRemembered(cs: seq<Collection>)
    requires cs == []
    ensures MemoryAfter(cs) == map[]
  {
  }

  /** Every record emitted for the pid carries the create time first seen. */
  ghost predicate AllPinned(cs: seq<Collection>, at: seq<nat>)
    requires |at| == |cs| && forall i | 0 <= i < |cs| :: at[i] < |cs[i].procs|
  {
    forall i | 0 <= i < |cs| :: Emitted(cs, i)[at[i]].createTime == cs[0].procs[at[0]].createTime
  }

  lemma PinnedOfPrefix(cs: seq<Collection>, at: seq<nat>)
    requires |cs| > 1 && |at| == |cs| && forall i | 0 <= i < |cs| :: at[i] < |cs[i].procs|
    ensures var n := |cs| - 1;
            AllPinned(cs, at) <==>
            AllPinned(cs[..n], at[..n]) && Emitted(cs, n)[at[n]].createTime == cs[0].procs[at[0]].createTime
  {
    hide Emitted;
    EmittedPrefix(cs);
  }

  lemma FirstPinned(cs: seq<Collection>, at: seq<nat>)
    requires |cs| == 1 && |at| == 1 && at[0] < |cs[0].procs|
    ensures AllPinned(cs, at) && AllClose(cs, at)
  {
    NothingRemembered(cs[..0]);
    CloseToSelf(cs[0].procs[at[0]].createTime);
    hide Close;
  }

  /** Identity is pinned over a whole run exactly when every create time collected for the
      pid is close to the first one collected. */
  lemma {:induction false} IdentityPinned(cs: seq<Collection>, pid: int, at: seq<nat>)
    requires Seen(cs, pid, at)
    ensures AllClose(cs, at) <==> AllPinned(cs, at)
  {
    hide Close, Remember, MemoryAfter, Emitted, AllPinned, AllClose;
    if |cs| == 0 {
      NonePinned(cs, at);
    } else if |cs| == 1 {
      FirstPinned(cs, at);
    } else {
      var n := |cs| - 1;
      SeenPrefix(cs, pid, at);
      IdentityPinned(cs[..n], pid, at[..n]);
      PinnedOfPrefix(cs, at);
      CloseOfPrefix(cs, at);
      if AllClose(cs[..n], at[..n]) {
        Remembers(cs[..n], pid, at[..n]);
        LastPinned(cs, pid, at);
      }
    }
  }

  lemma NonePinned(cs: seq<Collection>, at: seq<nat>)
    requires cs == [] && at == []
    ensures AllPinned(cs, at) && AllClose(cs, at)
  {
  }

  lemma EmittedPrefix(cs: seq<Collection>)
    requires cs != []
    ensures forall i | 0 <= i < |cs| - 1 :: Emitted(cs[..|cs| - 1], i) == Emitted(cs, i)
  {
    hide MemoryAfter, ReportAll;
    forall i | 0 <= i < |cs| - 1
      ensures Emitted(cs[..|cs| - 1], i) == Emitted(cs, i)
    {
      assert cs[..|cs| - 1][..i] == cs[..i];
    }
  }

  lemma CloseOfPrefix(cs: seq<Collection>, at: seq<nat>)
    requires |cs| > 1 && |at| == |cs| && forall i | 0 <= i < |cs| :: at[i] < |cs[i].procs|
    ensures var n := |cs| - 1;
            AllClose(cs, at) <==>
            AllClose(cs[..n], at[..n]) && Close(cs[0].procs[at[0]].createTime, cs[n].procs[at[n]].createTime)
  {
    hide Close;
  }

  lemma LastPinned(cs: seq<Collection>, pid: int, at: seq<nat>)
    requires |cs| > 1 && Seen(cs, pid, at) && AllClose(cs[..|cs| - 1], at[..|cs| - 1])
    requires var m := MemoryAfter(cs[..|cs| - 1]); pid in m && m[pid].createTime == cs[0].procs[at[0]].createTime
    ensures var n := |cs| - 1;
            AllClose(cs, at) <==> Emitted(cs, n)[at[n]].createTime == cs[0].procs[at[0]].createTime
  {
    hide MemoryAfter;
    CloseOfPrefix(cs, at);
    CloseToSelf(cs[0].procs[at[0]].createTime);
    hide Close;
  }

  // ---- rates add up ----

  /** The rates a record carries, one by one. */
  datatype Which = UserPct | SystemPct | ReadBytes | WriteBytes | Reads | Writes

  function RateOf(r: Rates, w: Which): real
  {
    match w
    case UserPct => r.userPct / 100.0
    case SystemPct => r.systemPct / 100.0
    case ReadBytes => r.readBytes
    case WriteBytes => r.writeBytes
    case Reads => r.readOps
    case Writes => r.writeOps
  }

  function CounterOf(c: Counters, w: Which): real
  {
    match w
    case UserPct => c.user
    case SystemPct => c.sys
    case ReadBytes => c.readBytes as real
    case WriteBytes => c.writeBytes as real
    case Reads => c.readCount as real
    case Writes => c.writeCount as real
  }

  /** Each rate times the time it covers, over all collections after the first. */
  function Integral(cs: seq<Collection>, at: seq<nat>, w: Which): real
    requires |at| == |cs| && forall i | 0 <= i < |cs| :: at[i] < |cs[i].procs|
  {
    if |cs| <= 1 then 0.0
    else
      var n := |cs| - 1;
      Integral(cs[..n], at[..n], w) + RateOf(Emitted(cs, n)[at[n]].rates, w) * (cs[n].now - cs[n - 1].now)
  }

  /** All increases of the counter; a decrease counts for nothing. */
  function Growth(cs: seq<Collection>, at: seq<nat>, w: Which): real
    requires |at| == |cs| && forall i | 0 <= i < |cs| :: at[i] < |cs[i].procs|
  {
    if |cs| <= 1 then 0.0
    else
      var n := |cs| - 1;
      Growth(cs[..n], at[..n], w) +
      Positive(CounterOf(cs[n].procs[at[n]].counters, w) - CounterOf(cs[n - 1].procs[at[n - 1]].counters, w))
  }

  function Positive(d: real): real { if d > 0.0 then d else 0.0 }

  lemma PctTimes(cur: real, was: real, dt: real)
    requires dt > 0.0
    ensures Pct(cur, was, dt) / 100.0 * dt == Positive(cur - was)
  {
    if cur > was {
      DivideBack(cur - was, dt);
    }
  }

  lemma PerSecondTimes(cur: Word, was: Word, dt: real)
    requires dt > 0.0
    ensures PerSecond(cur, was, dt) * dt == Positive(cur as real - was as real)
  {
    DivideBack((cur - was) as real, dt);
  }

  lemma DivideBack(d: real, dt: real)
    requires dt > 0.0
    ensures d / dt * dt == d
    ensures d / dt * 100.0 / 100.0 == d / dt
  {
  }

  lemma DiffTimes(c: Counters, was: Counters, dt: real, w: Which)
    requires dt > 0.0
    ensures RateOf(Diff(c, was, dt), w) * dt == Positive(CounterOf(c, w) - CounterOf(was, w))
  {
    hide Pct, PerSecond, Positive;
    match w {
      case UserPct => PctTimes(c.user, was.user, dt);
      case SystemPct => PctTimes(c.sys, was.sys, dt);
      case ReadBytes => PerSecondTimes(c.readBytes, was.readBytes, dt);
      case WriteBytes => PerSecondTimes(c.writeBytes, was.writeBytes, dt);
      case Reads => PerSecondTimes(c.readCount, was.readCount, dt);
      case Writes => PerSecondTimes(c.writeCount, was.writeCount, dt);
    }
  }

  /** The record of a steady pid is the difference from its previous one. */
  lemma SteadyRates(cs: seq<Collection>, pid: int, at: seq<nat>)
    requires |cs| > 1 && Seen(cs, pid, at) && AllClose(cs, at) && cs[|cs| - 2].now < cs[|cs| - 1].now
    ensures var n := |cs| - 1;
            Emitted(cs, n)[at[n]].rates ==
            Diff(cs[n].procs[at[n]].counters, cs[n - 1].procs[at[n - 1]].counters, cs[n].now - cs[n - 1].now)
  {
    hide Close, MemoryAfter, Diff;
    var n := |cs| - 1;
    SeenPrefix(cs, pid, at);
    CloseOfPrefix(cs, at);
    Remembers(cs[..n], pid, at[..n]);
    assert Emitted(cs, n)[at[n]] == Report(MemoryAfter(cs[..n]), cs[n].procs[at[n]], cs[n].now - cs[n - 1].now);
  }

  /** For a steady pid and a clock that moves forward, each rate integrates to the counter's
      total growth over the run. */
  lemma {:induction false} RatesIntegrate(cs: seq<Collection>, pid: int, at: seq<nat>, w: Which)
    requires Seen(cs, pid, at) && AllClose(cs, at)
    requires forall i | 0 <= i < |cs| - 1 :: cs[i].now < cs[i + 1].now
    ensures Integral(cs, at, w) == Growth(cs, at, w)
  {
    hide Close, AllClose, CounterOf, RateOf, Diff, Emitted, Positive;
    if |cs| <= 1 {
    } else {
      var n := |cs| - 1;
      SeenPrefix(cs, pid, at);
      CloseOfPrefix(cs, at);
      RatesIntegrate(cs[..n], pid, at[..n], w);
      assert cs[n - 1].now < cs[n - 1 + 1].now;
      SteadyRates(cs, pid, at);
      DiffTimes(cs[n].procs[at[n]].counters, cs[n - 1].procs[at[n - 1]].counters, cs[n].now - cs[n - 1].now, w);
    }
  }

  /** When the counter never decreases, that is its last value less its first. */
  lemma {:induction false} GrowthTelescopes(cs: seq<Collection>, at: seq<nat>, w: Which)
    requires cs != [] && |at| == |cs| && forall i | 0 <= i < |cs| :: at[i] < |cs[i].procs|
    requires forall i | 0 <= i < |cs| - 1 ::
               CounterOf(cs[i].procs[at[i]].counters, w) <= CounterOf(cs[i + 1].procs[at[i + 1]].counters, w)
    ensures Growth(cs, at, w) ==
            CounterOf(cs[|cs| - 1].procs[at[|cs| - 1]].counters, w) - CounterOf(cs[0].procs[at[0]].counters, w)
  {
    hide CounterOf;
    if |cs| == 1 {
    } else {
      var n := |cs| - 1;
      GrowthTelescopes(cs[..n], at[..n], w);
      var k := n - 1;
      assert CounterOf(cs[k].procs[at[k]].counters, w) <= CounterOf(cs[k + 1].procs[at[k + 1]].counters, w);
    }
  }

  /** A create time that is not close is a new process: it is reported as collected, with no
      rates, and the earlier identity is forgotten. */
  lemma ReusedPidIsNew(m: Memory, procs: seq<Proc>, k: nat, dt: real)
    requires k < |procs| && forall j | 0 <= j < |procs| && j != k :: procs[j].pid != procs[k].pid
    requires procs[k].pid in m && !Close(m[procs[k].pid].createTime, procs[k].createTime)
    ensures ReportAll(m, procs, dt)[k] == Record(procs[k].pid, procs[k].createTime, procs[k].counters, NONE)
    ensures var r := Remember(m, procs);
            procs[k].pid in r && r[procs[k].pid] == Previous(procs[k].createTime, procs[k].counters)
  {
    RememberOnce(m, procs, k);
    CloseToSelf(procs[k].createTime);
    hide Close;
  }
}
