/**
 The per-source line processor: optional multi-line aggregation followed by the
 mask, exclude and include rules. The functions say what a call does to the
 buffered lines; the class is the stateful processor, proved equal to them.
 */
module LineProcessor {
  import opened Basics
  import Strings

  const MAX_LINE_BYTES: nat := 256 * 1024

  /** A compiled rule. Regular expressions are arbitrary functions. */
  datatype Rule =
    | Mask(replace: Text -> Text)
    | Exclude(hits: Text -> bool)
    | Include(hits: Text -> bool)

  /** `start` gives the position of the leftmost match of the multi_line pattern. */
  datatype Rules = Rules(start: Option<Text -> Option<nat>>, timeout: int, filters: seq<Rule>)

  predicate Aggregating(r: Rules) { r.start.Some? }

  predicate Starts(r: Rules, raw: Text)
  {
    r.start.Some? && r.start.value(raw) == Some(0)
  }

  function Finish(filters: seq<Rule>, content: Text): Option<Text>
  {
    if filters == [] then Some(content)
    else match filters[0]
      case Mask(replace) => Finish(filters[1..], replace(content))
      case Exclude(hits) => if hits(content) then None else Finish(filters[1..], content)
      case Include(hits) => if hits(content) then Finish(filters[1..], content) else None
  }

  /** The content as rule `n` sees it: the masks before it, in configured order. */
  function Masked(filters: seq<Rule>, n: nat, content: Text): Text
    requires n <= |filters|
  {
    if n == 0 then content
    else
      var before := Masked(filters, n - 1, content);
      if filters[n - 1].Mask? then filters[n - 1].replace(before) else before
  }

  predicate Passes(rule: Rule, content: Text)
  {
    match rule
    case Mask(_) => true
    case Exclude(hits) => !hits(content)
    case Include(hits) => hits(content)
  }

  lemma {:induction false} MaskedShift(filters: seq<Rule>, n: nat, content: Text)
    requires 0 < |filters| && n < |filters|
    ensures Masked(filters, n + 1, content) == Masked(filters[1..], n, Masked(filters, 1, content))
  {
    if n == 0 {
    } else {
      MaskedShift(filters, n - 1, content);
    }
  }

  /** Rule `i` passes what the masks before it left. */
  predicate PassesAt(filters: seq<Rule>, i: nat, content: Text)
    requires i < |filters|
  {
    Passes(filters[i], Masked(filters, i, content))
  }

  predicate AllPass(filters: seq<Rule>, content: Text)
  {
    forall i | 0 <= i < |filters| :: PassesAt(filters, i, content)
  }

  lemma AllPassFirst(filters: seq<Rule>, content: Text)
    requires filters != []
    ensures AllPass(filters, content) <==>
            PassesAt(filters, 0, content) && AllPass(filters[1..], Masked(filters, 1, content))
  {
    hide Masked, Passes;
    var rest, next := filters[1..], Masked(filters, 1, content);
    forall i | 0 <= i < |rest|
      ensures PassesAt(rest, i, next) == PassesAt(filters, i + 1, content)
    {
      MaskedShift(filters, i, content);
    }
    hide PassesAt;
    if AllPass(rest, next) && PassesAt(filters, 0, content) {
      forall i | 0 < i < |filters|
        ensures PassesAt(filters, i, content)
      {
        assert PassesAt(rest, i - 1, next);
      }
    }
  }

  /** A line survives exactly when every rule passes what the masks before it left,
      and it survives as the content with every mask applied in order. */
  lemma {:induction false} FinishMeaning(filters: seq<Rule>, content: Text)
    ensures Finish(filters, content).Some? <==> AllPass(filters, content)
    ensures Finish(filters, content).Some? ==>
              Finish(filters, content).value == Masked(filters, |filters|, content)
  {
    if filters == [] {
    } else {
      FinishMeaning(filters[1..], Masked(filters, 1, content));
      MaskedShift(filters, |filters| - 1, content);
      AllPassFirst(filters, content);
      FinishFirst(filters, content);
      hide Masked, Passes, Finish, AllPass;
    }
  }

  lemma FinishFirst(filters: seq<Rule>, content: Text)
    requires filters != []
    ensures Masked(filters, 0, content) == content
    ensures Finish(filters, content) ==
            if Passes(filters[0], content) then Finish(filters[1..], Masked(filters, 1, content)) else None
  {
  }

  // ---- multi-line aggregation ----

  function Size(lines: seq<Text>): nat
  {
    if lines == [] then 0 else Size(lines[..|lines| - 1]) + |lines[|lines| - 1]| + 1
  }

  /** The buffered lines of the current message, with the end offset and the arrival
      time of the last one. */
  datatype Pending = Pending(lines: seq<Text>, size: nat, off: nat, ts: int)

  const NOTHING := Pending([], 0, 0, 0)

  /** A message ready to send: its content and the file position just past it. */
  datatype Out = Out(content: Text, off: nat)

  /** Why an aggregate was closed. */
  datatype Reason = AtStart | AtCap | OnIdle | OnForce

  /** A closed run of consecutive lines, before the rules see it. */
  datatype Aggregate = Aggregate(lines: seq<Text>, off: nat, reason: Reason)

  function Reset(p: Pending): Pending { p.(lines := [], size := 0, off := 0) }

  function Buffer(p: Pending, raw: Text, off: nat, now: int): Pending
  {
    Pending(p.lines + [raw], p.size + |raw| + 1, off, now)
  }

  function Feed(r: Rules, p: Pending, raw: Text, off: nat, now: int): (Pending, Option<Aggregate>)
  {
    if Starts(r, raw) && |p.lines| > 0 then
      (Buffer(Reset(p), raw, off, now), Some(Aggregate(p.lines, p.off, AtStart)))
    else
      var q := Buffer(p, raw, off, now);
      if q.size > MAX_LINE_BYTES then (Reset(q), Some(Aggregate(q.lines, q.off, AtCap)))
      else (q, None)
  }

  function Expire(r: Rules, p: Pending, now: int, force: bool): (Pending, Option<Aggregate>)
  {
    if |p.lines| == 0 then (p, None)
    else if !force && now - p.ts < r.timeout then (p, None)
    else (Reset(p), Some(Aggregate(p.lines, p.off, if force then OnForce else OnIdle)))
  }

  function Release(r: Rules, a: Option<Aggregate>): Option<Out>
  {
    if a.None? then None
    else
      var c := Finish(r.filters, Strings.Join(a.value.lines, LF));
      if c.None? then None else Some(Out(c.value, a.value.off))
  }

  function FinishLine(r: Rules, raw: Text, off: nat): Option<Out>
  {
    var c := Finish(r.filters, raw);
    if c.None? then None else Some(Out(c.value, off))
  }

  /** The message an aggregate is dropped as, if the rules drop it. */
  function DropOf(r: Rules, a: Option<Aggregate>): Option<Out>
  {
    if a.Some? && Finish(r.filters, Strings.Join(a.value.lines, LF)).None?
    then Some(Out(Strings.Join(a.value.lines, LF), a.value.off))
    else None
  }

  /** The message the rules drop during a call of `line`. */
  function LineDrop(r: Rules, p: Pending, raw: Text, off: nat, now: int): Option<Out>
  {
    if Aggregating(r) then DropOf(r, Feed(r, p, raw, off, now).1)
    else if Finish(r.filters, raw).None? then Some(Out(raw, off))
    else None
  }

  /** The message the rules drop during a call of `flush`. */
  function FlushDrop(r: Rules, p: Pending, now: int, force: bool): Option<Out>
  {
    DropOf(r, Expire(r, p, now, force).1)
  }

  /** What `line` does. */
  function LineSpec(r: Rules, p: Pending, raw: Text, off: nat, now: int): (Pending, Option<Out>)
  {
    if !Aggregating(r) then (p, FinishLine(r, raw, off))
    else
      var (q, a) := Feed(r, p, raw, off, now);
      (q, Release(r, a))
  }

  /** What `flush` does. */
  function FlushSpec(r: Rules, p: Pending, now: int, force: bool): (Pending, Option<Out>)
  {
    var (q, a) := Expire(r, p, now, force);
    (q, Release(r, a))
  }

  /** A call either completes no logical line, and then nothing is released or dropped, or
      completes one, and then it is released or dropped, the latter only if the rules drop
      its whole content. */
  lemma LineHasOneFate(r: Rules, p: Pending, raw: Text, off: nat, now: int)
    ensures var out, drop := LineSpec(r, p, raw, off, now).1, LineDrop(r, p, raw, off, now);
            && !(out.Some? && drop.Some?)
            && (drop.Some? ==> Finish(r.filters, drop.value.content).None?)
            && ((out.Some? || drop.Some?) <==> !Aggregating(r) || Feed(r, p, raw, off, now).1.Some?)
            && (drop.Some? && !Aggregating(r) ==> drop.value == Out(raw, off))
            && (drop.Some? && Aggregating(r) ==>
                  var a := Feed(r, p, raw, off, now).1.value;
                  drop.value == Out(Strings.Join(a.lines, LF), a.off))
  {
  }

  class Processor {
    const rules: Rules
    var pending: seq<Text>
    var pendingSize: nat
    var pendingOff: nat
    var pendingTs: int

    constructor (rules: Rules)
      ensures this.rules == rules && State() == NOTHING
    {
      this.rules := rules;
      pending, pendingSize, pendingOff, pendingTs := [], 0, 0, 0;
    }

    ghost function State(): Pending
      reads this
    {
      Pending(pending, pendingSize, pendingOff, pendingTs)
    }

    method Line(raw: Text, offset: nat, now: int) returns (out: Option<Out>)
      modifies this
      ensures (State(), out) == LineSpec(rules, old(State()), raw, offset, now)
    {
      if rules.start.None? {
        out := FinishContent(raw, offset);
        return;
      }
      var starts := rules.start.value(raw);
      if starts == Some(0) && |pending| > 0 {
        var flushed, flushedOff := Strings.Join(pending, LF), pendingOff;
        ResetBuffer();
        AppendLine(raw, offset, now);
        out := FinishContent(flushed, flushedOff);
        return;
      }
      AppendLine(raw, offset, now);
      if pendingSize > MAX_LINE_BYTES {
        var flushed, flushedOff := Strings.Join(pending, LF), pendingOff;
        ResetBuffer();
        out := FinishContent(flushed, flushedOff);
        return;
      }
      out := None;
    }

    method Flush(now: int, force: bool) returns (out: Option<Out>)
      modifies this
      ensures (State(), out) == FlushSpec(rules, old(State()), now, force)
    {
      if |pending| == 0 {
        return None;
      }
      if !force && now - pendingTs < rules.timeout {
        return None;
      }
      var flushed, flushedOff := Strings.Join(pending, LF), pendingOff;
      ResetBuffer();
      out := FinishContent(flushed, flushedOff);
    }

    method AppendLine(raw: Text, offset: nat, now: int)
      modifies this
      ensures State() == Buffer(old(State()), raw, offset, now)
    {
      pending := pending + [raw];
      pendingSize := pendingSize + |raw| + 1;
      pendingOff := offset;
      pendingTs := now;
    }

    method ResetBuffer()
      modifies this
      ensures State() == Reset(old(State()))
    {
      pending, pendingSize, pendingOff := [], 0, 0;
    }

    /** The rules, applied in configured order. */
    method FinishContent(content: Text, offset: nat) returns (out: Option<Out>)
      ensures out == FinishLine(rules, content, offset)
    {
      var c := content;
      for i := 0 to |rules.filters|
        invariant Finish(rules.filters, content) == Finish(rules.filters[i..], c)
      {
        match rules.filters[i] {
          case Mask(replace) =>
            c := replace(c);
          case Exclude(hits) =>
            if hits(c) {
              return None;
            }
          case Include(hits) =>
            if !hits(c) {
              return None;
            }
        }
      }
      out := Some(Out(c, offset));
    }
  }

  // ---- aggregation over a whole run of calls ----

  datatype Event = Fed(text: Text, off: nat, now: int) | Flushed(now: int, force: bool)

  datatype Trace = Trace(aggs: seq<Aggregate>, pending: Pending)

  function Step(r: Rules, p: Pending, e: Event): (Pending, Option<Aggregate>)
  {
    match e
    case Fed(text, off, now) => Feed(r, p, text, off, now)
    case Flushed(now, force) => Expire(r, p, now, force)
  }

  /** The aggregates closed by a run of calls on a fresh processor, oldest first. */
  function Run(r: Rules, evs: seq<Event>): Trace
  {
    if evs == [] then Trace([], NOTHING)
    else
      var t := Run(r, evs[..|evs| - 1]);
      var (p, a) := Step(r, t.pending, evs[|evs| - 1]);
      Trace(if a.Some? then t.aggs + [a.value] else t.aggs, p)
  }

  /** The lines fed by a run, in order. */
  function FedLines(evs: seq<Event>): (fed: seq<Event>)
    ensures forall i | 0 <= i < |fed| :: fed[i].Fed?
  {
    if evs == [] then []
    else
      var fed := FedLines(evs[..|evs| - 1]);
      if evs[|evs| - 1].Fed? then fed + [evs[|evs| - 1]] else fed
  }

  /** Number of lines in the first `n` aggregates. */
  function Lines(aggs: seq<Aggregate>, n: nat): nat
    requires n <= |aggs|
  {
    if n == 0 then 0 else Lines(aggs, n - 1) + |aggs[n - 1].lines|
  }

  /** `lines` is the run of fed lines beginning at index `lo`. */
  ghost predicate IsRunOf(fed: seq<Event>, lo: nat, lines: seq<Text>)
  {
    lo + |lines| <= |fed| &&
    forall k | lo <= k < lo + |lines| :: fed[k].Fed? && fed[k].text == lines[k - lo]
  }

  /** Every line but the first is a continuation, and before its last line the run was
      either within the cap or a single line. */
  ghost predicate OneMessage(r: Rules, lines: seq<Text>)
  {
    && (forall k | 0 < k < |lines| :: !Starts(r, lines[k]))
    && (|lines| > 2 ==> Size(lines[..|lines| - 1]) <= MAX_LINE_BYTES)
  }

  /** The cut after fed line `n - 1` happened for the recorded reason. */
  ghost predicate CutJustified(r: Rules, evs: seq<Event>, n: nat, a: Aggregate)
  {
    var fed := FedLines(evs);
    0 < n <= |fed| &&
    match a.reason
    case AtStart => n < |fed| && Starts(r, fed[n].text)
    case AtCap => Size(a.lines) > MAX_LINE_BYTES
    case OnForce => exists t :: FlushAt(evs, t, n) && evs[t].force
    case OnIdle => exists t :: FlushAt(evs, t, n) && evs[t].now - fed[n - 1].now >= r.timeout
  }

  /** Call `t` is a flush made when exactly `n` lines had been fed. */
  ghost predicate FlushAt(evs: seq<Event>, t: int, n: nat)
  {
    0 <= t < |evs| && evs[t].Flushed? && |FedLines(evs[..t])| == n
  }

  /** `a` closed the run of lines that begins at fed line `lo`. */
  ghost predicate AggregateOk(r: Rules, evs: seq<Event>, lo: nat, a: Aggregate)
  {
    var fed, n := FedLines(evs), lo + |a.lines|;
    && a.lines != []
    && IsRunOf(fed, lo, a.lines)
    && a.off == fed[n - 1].off
    && OneMessage(r, a.lines)
    && CutJustified(r, evs, n, a)
  }

  /** `p` buffers everything fed from line `lo` on. */
  ghost predicate PendingOk(r: Rules, evs: seq<Event>, lo: nat, p: Pending)
  {
    var fed := FedLines(evs);
    && IsRunOf(fed, lo, p.lines)
    && |fed| == lo + |p.lines|
    && OneMessage(r, p.lines)
    && p.size == Size(p.lines)
    && (p.size <= MAX_LINE_BYTES || |p.lines| == 1)
    && (p.lines != [] ==> p.off == fed[|fed| - 1].off && p.ts == fed[|fed| - 1].now)
  }

  ghost predicate TraceOk(r: Rules, evs: seq<Event>, t: Trace)
  {
    && PendingOk(r, evs, Lines(t.aggs, |t.aggs|), t.pending)
    && forall i | 0 <= i < |t.aggs| :: AggregateOk(r, evs, Lines(t.aggs, i), t.aggs[i])
  }

  /** Aggregation is a partition of the fed lines: every line is in exactly one closed
      aggregate or in the buffer, in order; each aggregate carries the offset of its last
      line; and every cut has one of the four reasons. */
  lemma {:induction false} RunPartitions(r: Rules, evs: seq<Event>)
    requires Aggregating(r)
    ensures TraceOk(r, evs, Run(r, evs))
  {
    hide AggregateOk, PendingOk;
    if evs == [] {
      EmptyPending(r, [], NOTHING);
    } else {
      var before, e := evs[..|evs| - 1], evs[|evs| - 1];
      RunPartitions(r, before);
      var t := Run(r, before);
      if e.Fed? {
        FedStep(r, before, Lines(t.aggs, |t.aggs|), t.pending, e);
      } else {
        FlushStep(r, before, Lines(t.aggs, |t.aggs|), t.pending, e);
      }
      assert before + [e] == evs;
      StepKeepsTrace(r, before, t, e, Step(r, t.pending, e));
    }
  }

  function Extend(t: Trace, step: (Pending, Option<Aggregate>)): Trace
  {
    Trace(if step.1.Some? then t.aggs + [step.1.value] else t.aggs, step.0)
  }

  lemma FedGrows(evs: seq<Event>, e: Event)
    ensures FedLines(evs + [e]) == if e.Fed? then FedLines(evs) + [e] else FedLines(evs)
  {
    assert (evs + [e])[..|evs|] == evs;
  }

  /** An aggregate already closed is untouched by one more call. */
  lemma ClosedStays(r: Rules, evs: seq<Event>, lo: nat, a: Aggregate, e: Event)
    requires AggregateOk(r, evs, lo, a)
    ensures AggregateOk(r, evs + [e], lo, a)
  {
    FedGrows(evs, e);
    CutStays(r, evs, evs + [e], lo + |a.lines|, a);
  }

  /** One call closes at most the buffered run and leaves a proper buffer behind. */
  ghost predicate StepOk(r: Rules, evs: seq<Event>, lo: nat, step: (Pending, Option<Aggregate>))
  {
    match step.1
    case None => PendingOk(r, evs, lo, step.0)
    case Some(a) => AggregateOk(r, evs, lo, a) && PendingOk(r, evs, lo + |a.lines|, step.0)
  }

  lemma StepKeepsTrace(r: Rules, evs: seq<Event>, t: Trace, e: Event, step: (Pending, Option<Aggregate>))
    requires TraceOk(r, evs, t)
    requires StepOk(r, evs + [e], Lines(t.aggs, |t.aggs|), step)
    ensures TraceOk(r, evs + [e], Extend(t, step))
  {
    hide AggregateOk, PendingOk, FedLines, CutJustified, Lines;
    var n := |t.aggs|;
    forall i | 0 <= i < n
      ensures AggregateOk(r, evs + [e], Lines(t.aggs, i), t.aggs[i])
    {
      ClosedStays(r, evs, Lines(t.aggs, i), t.aggs[i], e);
    }
    if step.1.Some? {
      LinesPrefix(t.aggs, t.aggs + [step.1.value]);
      LinesSnoc(t.aggs, step.1.value);
    }
  }

  lemma LinesSnoc(aggs: seq<Aggregate>, a: Aggregate)
    ensures Lines(aggs + [a], |aggs| + 1) == Lines(aggs + [a], |aggs|) + |a.lines|
  {
  }

  /** Buffering a line that does not cut extends the buffered run by that line. */
  lemma BufferExtends(r: Rules, evs: seq<Event>, lo: nat, p: Pending, e: Event)
    requires e.Fed? && PendingOk(r, evs, lo, p)
    requires Starts(r, e.text) ==> p.lines == []
    ensures var q, fed := Buffer(p, e.text, e.off, e.now), FedLines(evs + [e]);
            && IsRunOf(fed, lo, q.lines) && |fed| == lo + |q.lines| && q.lines != []
            && OneMessage(r, q.lines) && q.size == Size(q.lines)
            && q.off == fed[|fed| - 1].off && q.ts == fed[|fed| - 1].now
  {
    FedGrows(evs, e);
    SizeSnoc(p.lines, e.text);
    assert (p.lines + [e.text])[..|p.lines|] == p.lines;
  }

  lemma StartCuts(r: Rules, evs: seq<Event>, lo: nat, p: Pending, e: Event)
    requires e.Fed? && PendingOk(r, evs, lo, p) && Starts(r, e.text) && p.lines != []
    ensures AggregateOk(r, evs + [e], lo, Aggregate(p.lines, p.off, AtStart))
  {
    FedGrows(evs, e);
  }

  lemma EmptyPending(r: Rules, evs: seq<Event>, p: Pending)
    requires p.lines == [] && p.size == 0
    ensures PendingOk(r, evs, |FedLines(evs)|, p)
  {
  }

  lemma FedStep(r: Rules, evs: seq<Event>, lo: nat, p: Pending, e: Event)
    requires Aggregating(r) && e.Fed? && PendingOk(r, evs, lo, p)
    ensures StepOk(r, evs + [e], lo, Feed(r, p, e.text, e.off, e.now))
  {
    hide FedLines, Starts;
    if Starts(r, e.text) && p.lines != [] {
      StartCuts(r, evs, lo, p, e);
      StartsAfresh(r, evs, lo, p, e);
      hide AggregateOk, PendingOk;
    } else {
      Continues(r, evs, lo, p, e);
      hide StepOk;
    }
  }

  /** The line that cuts begins the next buffer. */
  lemma StartsAfresh(r: Rules, evs: seq<Event>, lo: nat, p: Pending, e: Event)
    requires Aggregating(r) && e.Fed? && PendingOk(r, evs, lo, p) && Starts(r, e.text) && p.lines != []
    ensures PendingOk(r, evs + [e], lo + |p.lines|, Feed(r, p, e.text, e.off, e.now).0)
  {
    FedGrows(evs, e);
    hide FedLines, Starts;
    EmptyPending(r, evs, Reset(p));
    BufferExtends(r, evs, lo + |p.lines|, Reset(p), e);
  }

  /** A line that does not cut is buffered, and the buffer cut after it at the cap. */
  lemma Continues(r: Rules, evs: seq<Event>, lo: nat, p: Pending, e: Event)
    requires Aggregating(r) && e.Fed? && PendingOk(r, evs, lo, p) && !(Starts(r, e.text) && p.lines != [])
    ensures StepOk(r, evs + [e], lo, Feed(r, p, e.text, e.off, e.now))
  {
    FedGrows(evs, e);
    hide FedLines, Starts;
    BufferExtends(r, evs, lo, p, e);
    EmptyPending(r, evs + [e], Reset(Buffer(p, e.text, e.off, e.now)));
  }

  lemma FlushStep(r: Rules, evs: seq<Event>, lo: nat, p: Pending, e: Event)
    requires Aggregating(r) && e.Flushed? && PendingOk(r, evs, lo, p)
    ensures StepOk(r, evs + [e], lo, Expire(r, p, e.now, e.force))
  {
    FedGrows(evs, e);
    assert (evs + [e])[..|evs|] == evs;
    assert FlushAt(evs + [e], |evs|, |FedLines(evs)|);
  }

  lemma SizeSnoc(lines: seq<Text>, x: Text)
    ensures Size(lines + [x]) == Size(lines) + |x| + 1
  {
    assert (lines + [x])[..|lines|] == lines;
  }

  lemma {:induction false} LinesPrefix(a: seq<Aggregate>, b: seq<Aggregate>)
    requires a <= b
    ensures forall n | 0 <= n <= |a| :: Lines(a, n) == Lines(b, n)
  {
    forall n | 0 <= n <= |a|
      ensures Lines(a, n) == Lines(b, n)
    {
      LinesPrefixAt(a, b, n);
    }
  }

  lemma {:induction false} LinesPrefixAt(a: seq<Aggregate>, b: seq<Aggregate>, n: nat)
    requires a <= b && n <= |a|
    ensures Lines(a, n) == Lines(b, n)
  {
    if n == 0 {
    } else {
      LinesPrefixAt(a, b, n - 1);
    }
  }

  lemma CutStays(r: Rules, before: seq<Event>, evs: seq<Event>, n: nat, a: Aggregate)
    requires |evs| > 0 && before == evs[..|evs| - 1]
    requires CutJustified(r, before, n, a)
    ensures CutJustified(r, evs, n, a)
  {
    if a.reason.OnForce? {
      var t :| FlushAt(before, t, n) && before[t].force;
      assert before[..t] == evs[..t];
      assert FlushAt(evs, t, n);
    } else if a.reason.OnIdle? {
      var t :| FlushAt(before, t, n) && before[t].now - FedLines(before)[n - 1].now >= r.timeout;
      assert before[..t] == evs[..t];
      assert FlushAt(evs, t, n);
    }
  }
}
