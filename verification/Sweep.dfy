/**
 Discovering files to tail: literal paths and globs are scanned over and over, and a file
 that leaves its globs for two scans in a row loses its tailer.
 */
module Sweep {

  type Path = string

  /** A source as one scan sees it: nothing to do with paths, a literal path, or a glob with
      the regular files it matches now. */
  datatype Source = Skipped | Literal(path: Path) | Glob(matches: seq<Path>)

  datatype Handle = Handle(fromGlob: bool, missed: nat)

  type Tailed = map<Path, Handle>

  // ---- one scan ----

  function Start(t: Tailed, p: Path, fromGlob: bool): Tailed
  {
    if p in t then t else t[p := Handle(fromGlob, 0)]
  }

  function StartMatches(t: Tailed, ps: seq<Path>): Tailed
  {
    if ps == [] then t else Start(StartMatches(t, ps[..|ps| - 1]), ps[|ps| - 1], true)
  }

  function StartSource(t: Tailed, src: Source): Tailed
  {
    match src
    case Skipped => t
    case Literal(p) => Start(t, p, false)
    case Glob(ps) => StartMatches(t, ps)
  }

  function StartAll(t: Tailed, srcs: seq<Source>): Tailed
  {
    if srcs == [] then t else StartSource(StartAll(t, srcs[..|srcs| - 1]), srcs[|srcs| - 1])
  }

  function MatchedBy(src: Source): set<Path>
  {
    match src
    case Glob(ps) => set p | p in ps
    case _ => {}
  }

  function Matched(srcs: seq<Source>): set<Path>
  {
    if srcs == [] then {} else Matched(srcs[..|srcs| - 1]) + MatchedBy(srcs[|srcs| - 1])
  }

  predicate Kept(h: Handle, here: bool)
  {
    !h.fromGlob || here || h.missed + 1 < 2
  }

  function After(h: Handle, here: bool): Handle
  {
    Handle(h.fromGlob, if !h.fromGlob || here then 0 else h.missed + 1)
  }

  function Swept(t: Tailed, matched: set<Path>): Tailed
  {
    map p | p in t && Kept(t[p], p in matched) :: After(t[p], p in matched)
  }

  function Scan(t: Tailed, srcs: seq<Source>): Tailed
  {
    Swept(StartAll(t, srcs), Matched(srcs))
  }

  /** What is tailed after a sequence of scans. */
  function Run(scans: seq<seq<Source>>): Tailed
  {
    if scans == [] then map[] else Scan(Run(scans[..|scans| - 1]), scans[|scans| - 1])
  }

  lemma NoMatches(t: Tailed)
    ensures StartMatches(t, []) == t && MatchedBy(Glob([])) == {}
  {
  }

  lemma OneMoreMatch(t: Tailed, ps: seq<Path>, i: nat)
    requires i < |ps|
    ensures StartMatches(t, ps[..i + 1]) == Start(StartMatches(t, ps[..i]), ps[i], true)
    ensures MatchedBy(Glob(ps[..i + 1])) == MatchedBy(Glob(ps[..i])) + {ps[i]}
  {
    hide Start;
    assert ps[..i + 1][..i] == ps[..i] && ps[..i + 1] == ps[..i] + [ps[i]];
  }

  // ---- the scanner ----

  class Scanner {
    var tailed: Tailed

    /** The tailers running now, by path, as often as they run. */
    ghost var running: multiset<Path>

    ghost predicate Valid()
      reads this
    {
      running == multiset(tailed.Keys)
    }

    constructor ()
      ensures Valid() && tailed == map[]
    {
      tailed, running := map[], multiset{};
    }

    method StartTailer(p: Path, fromGlob: bool)
      requires Valid()
      modifies this
      ensures Valid() && tailed == Start(old(tailed), p, fromGlob)
    {
      if p in tailed {
        return;
      }
      tailed := tailed[p := Handle(fromGlob, 0)];
      running := running + multiset{p};
    }

    method StartGlob(ps: seq<Path>, matched0: set<Path>) returns (matched: set<Path>)
      requires Valid()
      modifies this
      ensures Valid() && tailed == StartMatches(old(tailed), ps)
      ensures matched == matched0 + MatchedBy(Glob(ps))
    {
      hide Start, StartMatches, MatchedBy;
      matched := matched0;
      NoMatches(old(tailed));
      for i := 0 to |ps|
        invariant Valid() && tailed == StartMatches(old(tailed), ps[..i])
        invariant matched == matched0 + MatchedBy(Glob(ps[..i]))
      {
        OneMoreMatch(old(tailed), ps, i);
        matched := matched + {ps[i]};
        StartTailer(ps[i], true);
      }
      assert ps[..|ps|] == ps;
    }

    /** One scan: start what is named or matched, then sweep. `stopped` are the paths whose
        tailers were cancelled and whose registry entries were removed. */
    method Discover(srcs: seq<Source>) returns (stopped: set<Path>)
      requires Valid()
      modifies this
      ensures Valid() && tailed == Scan(old(tailed), srcs)
      ensures stopped == StartAll(old(tailed), srcs).Keys - tailed.Keys
    {
      hide Kept, After;
      var matched: set<Path> := {};
      for i := 0 to |srcs|
        invariant Valid() && tailed == StartAll(old(tailed), srcs[..i])
        invariant matched == Matched(srcs[..i])
      {
        hide StartMatches, Start;
        assert srcs[..i + 1][..i] == srcs[..i];
        match srcs[i] {
          case Skipped =>
          case Literal(p) => StartTailer(p, false);
          case Glob(ps) => matched := StartGlob(ps, matched);
        }
      }
      assert srcs[..|srcs|] == srcs;
      stopped := SweepGone(matched);
    }

    method SweepGone(matched: set<Path>) returns (stopped: set<Path>)
      requires Valid()
      modifies this
      ensures Valid() && tailed == Swept(old(tailed), matched)
      ensures stopped == old(tailed).Keys - tailed.Keys
    {
      ghost var was := tailed;
      var todo := tailed.Keys;
      stopped := {};
      while todo != {}
        invariant Valid() && todo <= was.Keys && stopped == was.Keys - tailed.Keys
        invariant forall p :: p in tailed <==> p in was && (p in todo || Kept(was[p], p in matched))
        invariant forall p | p in tailed :: tailed[p] == if p in todo then was[p] else After(was[p], p in matched)
        decreases todo
      {
        var p :| p in todo;
        todo := todo - {p};
        stopped := SweepOne(p, p in matched, stopped);
      }
    }

    method SweepOne(p: Path, here: bool, stopped0: set<Path>) returns (stopped: set<Path>)
      requires Valid() && p in tailed
      modifies this
      ensures Valid()
      ensures tailed == if Kept(old(tailed)[p], here) then old(tailed)[p := After(old(tailed)[p], here)]
              else old(tailed) - {p}
      ensures stopped == if Kept(old(tailed)[p], here) then stopped0 else stopped0 + {p}
    {
      var h := tailed[p];
      stopped := stopped0;
      if !h.fromGlob || here {
        tailed := tailed[p := h.(missed := 0)];
        return;
      }
      h := h.(missed := h.missed + 1);
      if h.missed < 2 {
        tailed := tailed[p := h];
        return;
      }
      running := running - multiset{p};
      tailed := tailed - {p};
      stopped := stopped + {p};
    }
  }

  // ---- what a scan does to one path ----

  predicate Names(src: Source, p: Path)
  {
    match src
    case Skipped => false
    case Literal(q) => p == q
    case Glob(ps) => p in ps
  }

  /** No source has the path as its literal. */
  ghost predicate NoLiteral(srcs: seq<Source>, p: Path)
  {
    forall i | 0 <= i < |srcs| :: srcs[i] != Literal(p)
  }

  /** The first source to name the path is the literal one. */
  predicate LiteralFirst(srcs: seq<Source>, p: Path)
  {
    srcs != [] && (if Names(srcs[0], p) then srcs[0].Literal? else LiteralFirst(srcs[1..], p))
  }

  lemma {:induction false} MatchesStart(t: Tailed, ps: seq<Path>, p: Path)
    ensures var r := StartMatches(t, ps);
            && (p in r <==> p in t || p in ps)
            && (p in r ==> r[p] == if p in t then t[p] else Handle(true, 0))
  {
    if ps == [] {
    } else {
      MatchesStart(t, ps[..|ps| - 1], p);
      assert ps == ps[..|ps| - 1] + [ps[|ps| - 1]];
    }
  }

  /** A running tailer is left alone; a new one belongs to the source that named it first. */
  lemma {:induction false} StartsAs(t: Tailed, srcs: seq<Source>, p: Path)
    ensures var r := StartAll(t, srcs);
            && (p in r <==> p in t || exists i :: 0 <= i < |srcs| && Names(srcs[i], p))
            && (p in t ==> r[p] == t[p])
            && (p in r && p !in t ==> r[p] == Handle(!LiteralFirst(srcs, p), 0))
  {
    if srcs == [] {
    } else {
      var front, last := srcs[..|srcs| - 1], srcs[|srcs| - 1];
      StartsAs(t, front, p);
      if last.Glob? {
        MatchesStart(StartAll(t, front), last.matches, p);
      }
      LiteralFirstSnoc(front, last, p);
      assert front + [last] == srcs;
      hide StartAll, StartMatches, LiteralFirst;
      if i :| 0 <= i < |front| && Names(front[i], p) {
        assert Names(srcs[i], p);
      }
      if i :| 0 <= i < |srcs| && Names(srcs[i], p) {
        assert i < |front| ==> Names(front[i], p);
      }
    }
  }

  lemma {:induction false} LiteralFirstSnoc(front: seq<Source>, last: Source, p: Path)
    ensures LiteralFirst(front + [last], p) <==>
            if exists i :: 0 <= i < |front| && Names(front[i], p) then LiteralFirst(front, p) else last == Literal(p)
  {
    if front == [] {
      assert [] + [last] == [last];
    } else {
      var rest := front[1..];
      LiteralFirstSnoc(rest, last, p);
      assert (front + [last])[0] == front[0] && (front + [last])[1..] == rest + [last];
      hide Names;
      if Names(front[0], p) {
      } else {
        assert (exists i :: 0 <= i < |front| && Names(front[i], p)) <==>
               (exists i :: 0 <= i < |rest| && Names(rest[i], p)) by {
          if i :| 0 <= i < |front| && Names(front[i], p) {
            assert Names(rest[i - 1], p);
          }
          if i :| 0 <= i < |rest| && Names(rest[i], p) {
            assert Names(front[i + 1], p);
          }
        }
        NamesLiteral(last, p);
      }
    }
  }

  lemma NamesLiteral(src: Source, p: Path)
    ensures src == Literal(p) <==> Names(src, p) && src.Literal?
  {
  }

  lemma {:induction false} MatchedMeans(srcs: seq<Source>, p: Path)
    ensures p in Matched(srcs) <==> exists i :: 0 <= i < |srcs| && srcs[i].Glob? && p in srcs[i].matches
  {
    if srcs == [] {
    } else {
      var front := srcs[..|srcs| - 1];
      MatchedMeans(front, p);
      if i :| 0 <= i < |front| && front[i].Glob? && p in front[i].matches {
        assert srcs[i].Glob? && p in srcs[i].matches;
      }
      if i :| 0 <= i < |srcs| && srcs[i].Glob? && p in srcs[i].matches && i < |front| {
        assert front[i].Glob? && p in front[i].matches;
      }
    }
  }

  /** One scan, seen from one path. */
  lemma ScanAt(t: Tailed, srcs: seq<Source>, p: Path)
    ensures var r, here, literal := Scan(t, srcs), p in Matched(srcs), !NoLiteral(srcs, p);
            && (p !in t && !here && !literal ==> p !in r)
            && (p !in t && (here || literal) ==>
                  && p in r
                  && r[p] == Handle(!LiteralFirst(srcs, p), if LiteralFirst(srcs, p) || here then 0 else 1))
            && (p in t ==> (p in r <==> Kept(t[p], here)))
            && (p in t && p in r ==> r[p] == After(t[p], here))
  {
    StartsAs(t, srcs, p);
    MatchedMeans(srcs, p);
    hide StartAll, Matched, LiteralFirst;
    if i :| 0 <= i < |srcs| && Names(srcs[i], p) {
      assert srcs[i] == Literal(p) || (srcs[i].Glob? && p in srcs[i].matches);
    }
    if i :| 0 <= i < |srcs| && srcs[i].Glob? && p in srcs[i].matches {
      assert Names(srcs[i], p);
    }
    if i :| 0 <= i < |srcs| && srcs[i] == Literal(p) {
      assert Names(srcs[i], p);
    }
  }

  // ---- what any sequence of scans does ----

  lemma {:induction false} LiteralFirstNeedsLiteral(srcs: seq<Source>, p: Path)
    requires NoLiteral(srcs, p)
    ensures !LiteralFirst(srcs, p)
  {
    if srcs == [] {
    } else if !Names(srcs[0], p) {
      LiteralFirstNeedsLiteral(srcs[1..], p);
    }
  }

  /** A path no literal names is tailed exactly when it was matched by the latest scan or by
      the one before it. */
  lemma {:induction false} GlobExactly(scans: seq<seq<Source>>, p: Path)
    requires forall i | 0 <= i < |scans| :: NoLiteral(scans[i], p)
    ensures var n := |scans|;
            && (p in Run(scans) <==> (n >= 1 && p in Matched(scans[n - 1])) || (n >= 2 && p in Matched(scans[n - 2])))
            && (p in Run(scans) ==> Run(scans)[p] == Handle(true, if p in Matched(scans[n - 1]) then 0 else 1))
  {
    if scans == [] {
    } else {
      var before, last := scans[..|scans| - 1], scans[|scans| - 1];
      GlobExactly(before, p);
      ScanAt(Run(before), last, p);
      LiteralFirstNeedsLiteral(last, p);
      hide Scan, Matched;
    }
  }

  /** The glob never misses the path twice in a row. */
  ghost predicate NoDoubleMiss(scans: seq<seq<Source>>, p: Path)
  {
    forall i | 0 <= i < |scans| - 1 :: p in Matched(scans[i]) || p in Matched(scans[i + 1])
  }

  /** After every scan so far the path was tailed. */
  ghost predicate AlwaysTailed(scans: seq<seq<Source>>, p: Path)
  {
    forall n | 1 <= n <= |scans| :: p in Run(scans[..n])
  }

  /** A literal path that its first scan meets before any matching glob is tailed for good. */
  lemma {:induction false} LiteralStays(scans: seq<seq<Source>>, p: Path)
    requires scans != [] && LiteralFirst(scans[0], p) && !NoLiteral(scans[0], p)
    ensures p in Run(scans) && !Run(scans)[p].fromGlob
  {
    hide Scan, Matched, LiteralFirst;
    var before, last := scans[..|scans| - 1], scans[|scans| - 1];
    ScanAt(Run(before), last, p);
    if before == [] {
    } else {
      LiteralStays(before, p);
    }
  }

  /** A literal path first met through a glob has a glob's tailer. */
  lemma {:induction false} BorrowedStays(scans: seq<seq<Source>>, p: Path)
    requires scans != [] && !LiteralFirst(scans[0], p) && !NoLiteral(scans[0], p) && p in Matched(scans[0])
    requires NoDoubleMiss(scans, p)
    ensures p in Run(scans) && Run(scans)[p] == Handle(true, if p in Matched(scans[|scans| - 1]) then 0 else 1)
  {
    hide Scan, Matched, LiteralFirst;
    var before, last := scans[..|scans| - 1], scans[|scans| - 1];
    ScanAt(Run(before), last, p);
    if before == [] {
    } else {
      BorrowedStays(before, p);
    }
  }

  /** The first double miss stops it, although a literal names it. */
  lemma BorrowedStops(scans: seq<seq<Source>>, p: Path)
    requires |scans| >= 2 && !LiteralFirst(scans[0], p) && !NoLiteral(scans[0], p) && p in Matched(scans[0])
    requires NoDoubleMiss(scans[..|scans| - 1], p) && !NoDoubleMiss(scans, p)
    ensures p !in Run(scans)
  {
    hide Scan, Matched, LiteralFirst;
    var before, n := scans[..|scans| - 1], |scans|;
    BorrowedStays(before, p);
    var i :| 0 <= i < n - 1 && !(p in Matched(scans[i]) || p in Matched(scans[i + 1]));
    assert forall k | 0 <= k < n - 1 :: before[k] == scans[k];
    assert i == n - 2;
    ScanAt(Run(before), scans[n - 1], p);
  }

  /** A glob is met before the literal only if it matches. */
  lemma {:induction false} GlobFirstMatches(srcs: seq<Source>, p: Path)
    requires !NoLiteral(srcs, p) && !LiteralFirst(srcs, p)
    ensures p in Matched(srcs)
  {
    MatchedMeans(srcs, p);
    FirstNamer(srcs, p);
  }

  lemma {:induction false} FirstNamer(srcs: seq<Source>, p: Path)
    requires !NoLiteral(srcs, p) && !LiteralFirst(srcs, p)
    ensures exists i :: 0 <= i < |srcs| && srcs[i].Glob? && p in srcs[i].matches
  {
    if Names(srcs[0], p) {
      assert srcs[0].Glob? && p in srcs[0].matches;
    } else {
      var k :| 0 <= k < |srcs| && srcs[k] == Literal(p);
      assert srcs[1..][k - 1] == Literal(p);
      FirstNamer(srcs[1..], p);
      var i :| 0 <= i < |srcs[1..]| && srcs[1..][i].Glob? && p in srcs[1..][i].matches;
      assert srcs[i + 1].Glob? && p in srcs[i + 1].matches;
    }
  }

  /** A path named by a literal is tailed after every scan exactly when its first scan meets
      the literal before any glob that matches it, or no two scans in a row miss it. */
  lemma {:induction false} LiteralExactly(scans: seq<seq<Source>>, p: Path)
    requires scans != [] && forall i | 0 <= i < |scans| :: !NoLiteral(scans[i], p)
    ensures AlwaysTailed(scans, p) <==> LiteralFirst(scans[0], p) || NoDoubleMiss(scans, p)
  {
    hide Run, Matched, LiteralFirst, NoLiteral;
    if LiteralFirst(scans[0], p) {
      forall n | 1 <= n <= |scans|
        ensures p in Run(scans[..n])
      {
        LiteralStays(scans[..n], p);
      }
    } else {
      GlobFirstMatches(scans[0], p);
      if NoDoubleMiss(scans, p) {
        forall n | 1 <= n <= |scans|
          ensures p in Run(scans[..n])
        {
          assert NoDoubleMiss(scans[..n], p) by {
            MissesOfPrefix(scans, n, p);
          }
          BorrowedStays(scans[..n], p);
        }
      } else {
        var n := FirstDoubleMiss(scans, p);
        assert scans[..n][..n - 1] == scans[..n - 1];
        BorrowedStops(scans[..n], p);
      }
    }
  }

  /** In particular a literal path no glob ever matches is tailed after every scan. */
  lemma UnmatchedLiteralStays(scans: seq<seq<Source>>, p: Path)
    requires forall i | 0 <= i < |scans| :: !NoLiteral(scans[i], p) && p !in Matched(scans[i])
    ensures AlwaysTailed(scans, p)
  {
    hide Run, Matched, LiteralFirst, NoLiteral;
    if scans != [] {
      if !LiteralFirst(scans[0], p) {
        GlobFirstMatches(scans[0], p);
        assert false;
      }
      LiteralExactly(scans, p);
    }
  }

  lemma MissesOfPrefix(scans: seq<seq<Source>>, n: nat, p: Path)
    requires n <= |scans| && NoDoubleMiss(scans, p)
    ensures NoDoubleMiss(scans[..n], p)
  {
    hide Matched;
  }

  lemma {:induction false} FirstDoubleMiss(scans: seq<seq<Source>>, p: Path) returns (n: nat)
    requires !NoDoubleMiss(scans, p)
    ensures 2 <= n <= |scans| && !NoDoubleMiss(scans[..n], p) && NoDoubleMiss(scans[..n - 1], p)
  {
    hide Matched;
    var before := scans[..|scans| - 1];
    if NoDoubleMiss(before, p) {
      n := |scans|;
      assert scans[..n] == scans;
    } else {
      n := FirstDoubleMiss(before, p);
      assert before[..n] == scans[..n] && before[..n - 1] == scans[..n - 1];
    }
  }

  /** Three scans in which the glob listed first matches once and then stops matching: the
      path is not tailed after the third, although a literal source names it each time. */
  lemma LiteralBehindGlobIsDropped(p: Path)
    ensures p !in Run([[Glob([p]), Literal(p)], [Glob([]), Literal(p)], [Glob([]), Literal(p)]])
  {
    hide Run;
    var a, b := [Glob([p]), Literal(p)], [Glob([]), Literal(p)];
    var scans := [a, b, b];
    MatchedMeans(a, p);
    MatchedMeans(b, p);
    assert a[0].Glob? && p in a[0].matches;
    hide Matched;
    assert a[1] == Literal(p);
    assert scans[..2] == [a, b];
    assert p !in Matched(scans[1]) && p !in Matched(scans[1 + 1]);
    BorrowedStops(scans, p);
  }
}
