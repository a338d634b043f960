/**
 How far the stored cursor of a journal source can be trusted to be the furthest read: it can
 go backwards, and exactly one kind of step makes that possible.
 */
module JournalCursor {
  import opened Basics
  import opened LineProcessor
  import opened Journal

  /** A start of the child reads a wanted entry that comes before one still in flight. */
  ghost predicate Rereads(c: Setup, s: State)
  {
    s.flight != [] && exists w: nat :: StartOf(c, s) <= w < s.flight[|s.flight| - 1].at && WantedAt(c, s, w)
  }

  ghost predicate NoRereads(c: Setup, run: seq<State>, steps: seq<Step>)
    requires |run| == |steps| + 1
  {
    forall k | 0 <= k < |steps| && steps[k].Spawn? :: !Rereads(c, run[k])
  }

  /** The stored cursor moves back during step `i`. A boot reads the older one on disk and does
      not count. */
  ghost predicate FallsAt(run: seq<State>, steps: seq<Step>, i: nat)
    requires |run| == |steps| + 1
  {
    && i < |steps| && !steps[i].Boot? && run[i].cursor.Some?
    && (run[i + 1].cursor.None? || run[i + 1].cursor.value < run[i].cursor.value)
  }

  ghost predicate Falls(run: seq<State>, steps: seq<Step>)
    requires |run| == |steps| + 1
  {
    exists i: nat :: FallsAt(run, steps, i)
  }

  // ---- without rereading the cursor never falls ----

  /** The newest entry sent, or else the last one acknowledged. */
  function Top(s: State): Option<nat>
  {
    if s.flight != [] then Some(s.flight[|s.flight| - 1].at) else s.cursor
  }

  predicate Within(s: State, cursor: Option<nat>) { cursor.Some? ==> cursor.value < |s.journal| }

  /** Everything in flight is in order after the cursor, and what is read next is not before. */
  ghost predicate InOrder(c: Setup, s: State)
  {
    && Within(s, s.disk)
    && (s.up ==>
          && Within(s, s.cursor) && (s.snap.Some? ==> Within(s, s.snap.value))
          && s.acking <= |s.flight|
          && (forall j | 0 <= j < |s.flight| :: s.flight[j].at < |s.journal|)
          && (forall j, k | 0 <= j < k < |s.flight| :: s.flight[j].at <= s.flight[k].at)
          && (s.cursor.Some? ==> forall j | 0 <= j < |s.flight| :: s.cursor.value <= s.flight[j].at)
          && (s.reader.Some? && Top(s).Some? ==>
                forall w: nat | s.reader.value <= w && WantedAt(c, s, w) :: Top(s).value <= w))
  }

  lemma StepKeepsOrder(c: Setup, s: State, st: Step)
    requires Enabled(s, st) && InOrder(c, s) && (st.Spawn? ==> !Rereads(c, s))
    ensures InOrder(c, Apply(c, s, st))
    ensures !st.Boot? && s.up && s.cursor.Some? ==>
              var after := Apply(c, s, st).cursor; after.Some? && s.cursor.value <= after.value
    ensures !st.Boot? && !s.up ==> Apply(c, s, st).cursor == s.cursor
  {
    hide InOrder, Rereads, WantedAt;
    match st {
      case Log(e) => LogKeepsOrder(c, s, e);
      case Ack => AckKeepsOrder(c, s);
      case Refuse(n) => RefuseKeepsOrder(c, s, n);
      case HandleNext => HandleKeepsOrder(c, s);
      case _ => PlainKeepsOrder(c, s, st);
    }
  }

  /** The steps that move neither entries nor messages, and the starts of the child. */
  lemma PlainKeepsOrder(c: Setup, s: State, st: Step)
    requires Enabled(s, st) && InOrder(c, s) && (st.Spawn? ==> !Rereads(c, s))
    requires !st.Log? && !st.Ack? && !st.Refuse? && !st.HandleNext?
    ensures InOrder(c, Apply(c, s, st))
  {
    SameWanted(c, s, Apply(c, s, st));
    hide WantedAt;
  }

  lemma AckKeepsOrder(c: Setup, s: State)
    requires InOrder(c, s) && Enabled(s, Ack)
    ensures InOrder(c, Apply(c, s, Ack))
    ensures s.cursor.Some? ==> s.cursor.value <= s.flight[0].at
  {
    SameWanted(c, s, Apply(c, s, Ack));
    hide WantedAt;
  }

  lemma RefuseKeepsOrder(c: Setup, s: State, n: nat)
    requires InOrder(c, s) && Enabled(s, Refuse(n))
    ensures InOrder(c, Apply(c, s, Refuse(n)))
  {
    SameWanted(c, s, Apply(c, s, Refuse(n)));
    hide WantedAt;
  }

  lemma HandleKeepsOrder(c: Setup, s: State)
    requires InOrder(c, s) && Enabled(s, HandleNext)
    ensures InOrder(c, Apply(c, s, HandleNext))
  {
    hide Deliver, Wanted;
    SameWanted(c, s, Apply(c, s, HandleNext));
    WantedBelow(c, s);
    hide WantedAt;
  }

  lemma WantedBelow(c: Setup, s: State)
    ensures forall i: nat :: WantedAt(c, s, i) ==> i < |s.journal|
  {
  }

  lemma LogKeepsOrder(c: Setup, s: State, e: Entry)
    requires InOrder(c, s)
    ensures InOrder(c, Apply(c, s, Log(e)))
  {
    hide Wanted;
    var s' := Apply(c, s, Log(e));
    forall w: nat | s'.reader.Some? && Top(s').Some? && s'.reader.value <= w && WantedAt(c, s', w)
      ensures s'.up ==> Top(s').value <= w
    {
      assert w < |s.journal| ==> WantedAt(c, s, w);
    }
  }

  lemma {:induction false} RunInOrder(c: Setup, run: seq<State>, steps: seq<Step>, i: nat)
    requires IsRun(c, run, steps) && Initial(run[0]) && NoRereads(c, run, steps) && i < |run|
    ensures InOrder(c, run[i])
  {
    hide Enabled, Apply, Rereads;
    if i == 0 {
    } else {
      RunInOrder(c, run, steps, i - 1);
      StepKeepsOrder(c, run[i - 1], steps[i - 1]);
      hide InOrder;
    }
  }

  /** In any run in which no start of the child rereads, the last write of the cursor is the
      furthest read. */
  lemma CursorNeverFalls(c: Setup, run: seq<State>, steps: seq<Step>)
    requires IsRun(c, run, steps) && Initial(run[0]) && NoRereads(c, run, steps)
    ensures !Falls(run, steps)
  {
    hide Enabled, Apply, Rereads, InOrder, Initial;
    forall i: nat | i < |steps|
      ensures !FallsAt(run, steps, i)
    {
      RunInOrder(c, run, steps, i);
      StepKeepsOrder(c, run[i], steps[i]);
    }
  }

  // ---- rereading lets it fall ----

  lemma {:induction false} FirstWanted(c: Setup, s: State, lo: nat, hi: nat) returns (w: nat)
    requires lo <= hi && WantedAt(c, s, hi)
    ensures lo <= w <= hi && WantedAt(c, s, w)
    ensures forall k | lo <= k < w :: !WantedAt(c, s, k)
    decreases hi - lo
  {
    if WantedAt(c, s, lo) {
      w := lo;
    } else {
      w := FirstWanted(c, s, lo + 1, hi);
    }
  }

  /** The child is read up to its first wanted entry. */
  lemma {:induction false} ReadUpTo(c: Setup, s: State, w: nat) returns (run: seq<State>, steps: seq<Step>)
    requires s.up && s.reader.Some? && s.reader.value <= w && WantedAt(c, s, w)
    requires forall k | s.reader.value <= k < w :: !WantedAt(c, s, k)
    ensures IsRun(c, run, steps) && run[0] == s
    ensures run[|steps|] == s.(reader := Some(w + 1), flight := s.flight + [MsgAt(c, s, w)])
    ensures forall k | 0 <= k < |steps| :: steps[k] == HandleNext
    decreases w - s.reader.value
  {
    hide Deliver, Wanted;
    var s1 := Apply(c, s, HandleNext);
    assert IsRun(c, [s, s1], [HandleNext]);
    if s.reader.value == w {
      run, steps := [s, s1], [HandleNext];
    } else {
      SameWanted(c, s, s1);
      var run1, steps1 := ReadUpTo(c, s1, w);
      hide IsRun, Apply, Enabled;
      RunJoin(c, [s, s1], [HandleNext], run1, steps1);
      run, steps := [s, s1] + run1[1..], [HandleNext] + steps1;
    }
  }

  /** A way on from `s`: a run that begins by starting the child, and in which no later start
      rereads. */
  ghost predicate WayOn(c: Setup, s: State, run: seq<State>, steps: seq<Step>)
  {
    && IsRun(c, run, steps) && run[0] == s && steps != [] && steps[0] == Spawn
    && forall k | 1 <= k < |steps| && steps[k].Spawn? :: !Rereads(c, run[k])
  }

  /** The cursor falls when the last message in flight is acknowledged. */
  ghost predicate LastFalls(s: State)
  {
    && s.up && s.flight != [] && s.acking <= |s.flight|
    && var n, at := |s.flight|, s.flight[|s.flight| - 1].at;
       if n >= 2 then at < s.flight[n - 2].at else s.cursor.Some? && at < s.cursor.value
  }

  /** What was in flight is accepted and acknowledged, and then the entry sent again. */
  lemma {:induction false} AcceptAll(c: Setup, s: State) returns (run: seq<State>, steps: seq<Step>)
    requires LastFalls(s)
    ensures IsRun(c, run, steps) && run[0] == s && Falls(run, steps)
    ensures forall k | 0 <= k < |steps| :: !steps[k].Spawn?
    decreases |s.flight|, if s.acking == 0 then 1 else 0
  {
    var st := if s.acking == 0 then Accept(|s.flight|) else Ack;
    var s1 := Apply(c, s, st);
    run, steps := [s, s1], [st];
    if s1.flight == [] {
      assert FallsAt(run, steps, 0);
    } else {
      var run1, steps1 := AcceptAll(c, s1);
      FallsJoin(c, [s, s1], [st], run1, steps1);
      run, steps := [s, s1] + run1[1..], [st] + steps1;
    }
  }

  lemma FallsJoin(c: Setup, run: seq<State>, steps: seq<Step>, run2: seq<State>, steps2: seq<Step>)
    requires IsRun(c, run, steps) && IsRun(c, run2, steps2) && run[|steps|] == run2[0] && Falls(run2, steps2)
    ensures var all, steps3 := run + run2[1..], steps + steps2;
            IsRun(c, all, steps3) && all[0] == run[0] && Falls(all, steps3)
  {
    RunJoin(c, run, steps, run2, steps2);
    hide Enabled, Apply, Falls;
    FallsLater(run + run2[1..], steps + steps2, |steps|, run2, steps2);
  }

  /** The run that shows the fall: the earlier entry is sent again, then what was in flight is
      accepted, then the earlier entry. */
  lemma RereadFalls(c: Setup, s: State) returns (run: seq<State>, steps: seq<Step>)
    requires Enabled(s, Spawn) && Rereads(c, s) && s.acking <= |s.flight|
    ensures WayOn(c, s, run, steps) && Falls(run, steps)
  {
    var w := EarlierWanted(c, s);
    var s1 := s.(reader := Some(StartOf(c, s)));
    SameWanted(c, s, s1);
    assert IsRun(c, [s, s1], [Spawn]);
    hide WantedAt, Rereads, IsRun, Apply, Enabled, Falls;
    var run1, steps1 := ReadUpTo(c, s1, w);
    RunLength(c, run1, steps1);
    var run2, steps2 := AcceptAll(c, run1[|steps1|]);
    FallsJoin(c, run1, steps1, run2, steps2);
    var run3, steps3 := run1 + run2[1..], steps1 + steps2;
    assert forall k | 0 <= k < |steps3| :: !steps3[k].Spawn?;
    FallsJoin(c, [s, s1], [Spawn], run3, steps3);
    run, steps := [s, s1] + run3[1..], [Spawn] + steps3;
  }

  lemma RunLength(c: Setup, run: seq<State>, steps: seq<Step>)
    requires IsRun(c, run, steps)
    ensures |run| == |steps| + 1
  {
  }

  lemma EarlierWanted(c: Setup, s: State) returns (w: nat)
    requires Rereads(c, s)
    ensures StartOf(c, s) <= w < s.flight[|s.flight| - 1].at && WantedAt(c, s, w)
    ensures forall k | StartOf(c, s) <= k < w :: !WantedAt(c, s, k)
  {
    hide WantedAt;
    var hi: nat :| StartOf(c, s) <= hi < s.flight[|s.flight| - 1].at && WantedAt(c, s, hi);
    w := FirstWanted(c, s, StartOf(c, s), hi);
  }

  // ---- the exact condition ----

  lemma NoRereadsJoin(c: Setup, run: seq<State>, steps: seq<Step>, run2: seq<State>, steps2: seq<Step>)
    requires IsRun(c, run, steps) && NoRereads(c, run, steps) && WayOn(c, run[|steps|], run2, steps2)
    requires !Rereads(c, run[|steps|])
    ensures IsRun(c, run + run2[1..], steps + steps2) && NoRereads(c, run + run2[1..], steps + steps2)
  {
    RunJoin(c, run, steps, run2, steps2);
    hide Rereads, IsRun;
    var all, n := run + run2[1..], |steps|;
    assert forall k | 0 <= k < |run2| :: all[n + k] == all[n..][k];
  }

  lemma FallsLater(run: seq<State>, steps: seq<Step>, n: nat, run2: seq<State>, steps2: seq<Step>)
    requires |run| == |steps| + 1 && |run2| == |steps2| + 1 && n <= |steps|
    requires run[n..] == run2 && steps[n..] == steps2 && Falls(run2, steps2)
    ensures Falls(run, steps)
  {
    var i: nat :| FallsAt(run2, steps2, i);
    assert run[n + i] == run2[i] && run[n + i + 1] == run2[i + 1] && steps[n + i] == steps2[i];
    assert FallsAt(run, steps, n + i);
  }

  /** After any run in which no start of the child has reread, some way on from starting it makes
      the stored cursor fall exactly when that start rereads. */
  lemma CursorExactly(c: Setup, run: seq<State>, steps: seq<Step>)
    requires IsRun(c, run, steps) && Initial(run[0]) && NoRereads(c, run, steps) && Enabled(run[|steps|], Spawn)
    ensures (exists run2, steps2 ::
               && WayOn(c, run[|steps|], run2, steps2)
               && |run + run2[1..]| == |steps + steps2| + 1 && Falls(run + run2[1..], steps + steps2))
            <==> Rereads(c, run[|steps|])
  {
    hide Rereads, Falls, Initial;
    var s := run[|steps|];
    if Rereads(c, s) {
      RunInOrder(c, run, steps, |steps|);
      var run2, steps2 := RereadFalls(c, s);
      FallsJoin(c, run, steps, run2, steps2);
    } else {
      forall run2, steps2 | WayOn(c, s, run2, steps2)
        ensures |run + run2[1..]| == |steps + steps2| + 1 && !Falls(run + run2[1..], steps + steps2)
      {
        NoRereadsJoin(c, run, steps, run2, steps2);
        assert (run + run2[1..])[0] == run[0];
        CursorNeverFalls(c, run + run2[1..], steps + steps2);
      }
    }
  }

  /** The failing family is not empty: two entries in flight, the child gone and started again
      before either is acknowledged. */
  lemma CursorCanGoBack(c: Setup, e: Entry) returns (run: seq<State>, steps: seq<Step>)
    requires c.beginning && Wanted(c.filters, e)
    ensures IsRun(c, run, steps) && Initial(run[0]) && Falls(run, steps)
    ensures run[0] == State([e, e], false, None, [], 0, [], [], None, None, None)
  {
    hide Wanted;
    var s0 := State([e, e], false, None, [], 0, [], [], None, None, None);
    var s1 := s0.(up := true);
    var s2 := s1.(reader := Some(0));
    var m0, m1 := MsgAt(c, s0, 0), MsgAt(c, s0, 1);
    var s3 := s1.(reader := Some(1), flight := [m0]);
    var s4 := s1.(reader := Some(2), flight := [m0, m1]);
    var s5 := s1.(flight := [m0, m1]);
    var run1, steps1 := [s0, s1, s2, s3, s4, s5], [Boot, Spawn, HandleNext, HandleNext, Exit];
    assert IsRun(c, run1, steps1) by {
      hide Deliver;
      assert [] + [m0] == [m0] && [m0] + [m1] == [m0, m1];
    }
    assert WantedAt(c, s5, 0);
    var run2, steps2 := RereadFalls(c, s5);
    hide Enabled, Apply, IsRun;
    FallsJoin(c, run1, steps1, run2, steps2);
    run, steps := run1 + run2[1..], steps1 + steps2;
  }
}
