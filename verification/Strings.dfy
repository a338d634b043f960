/** The string operations the program takes from its library: cut, split, join and sort. */
module Strings {
  import opened Basics

  // ---- cut ----

  /** Where the first `c` is, or the length. */
  function Index(s: Text, c: byte): (k: nat)
    ensures k <= |s| && c !in s[..k] && (k < |s| ==> s[k] == c)
  {
    if s == [] || s[0] == c then 0
    else
      var k := 1 + Index(s[1..], c);
      assert s[..k] == [s[0]] + s[1..][..k - 1];
      k
  }

  datatype Halves = Halves(before: Text, after: Text, found: bool)

  function Cut(s: Text, c: byte): (h: Halves)
    ensures h.found <==> c in s
    ensures h.found ==> s == h.before + [c] + h.after && |h.after| < |s|
    ensures !h.found ==> h.before == s && h.after == []
    ensures c !in h.before
  {
    var k := Index(s, c);
    if k < |s| then
      assert s == s[..k] + [s[k]] + s[k + 1..];
      Halves(s[..k], s[k + 1..], true)
    else
      assert s[..k] == s;
      Halves(s, [], false)
  }

  lemma {:induction false} IndexAt(a: Text, c: byte, b: Text)
    requires c !in a
    ensures Index(a + [c] + b, c) == |a|
    decreases |a|
  {
    if a == [] {
    } else {
      assert (a + [c] + b)[1..] == a[1..] + [c] + b;
      IndexAt(a[1..], c, b);
    }
  }

  /** Cutting is exact when the first part has no separator. */
  lemma CutAt(a: Text, c: byte, b: Text)
    requires c !in a
    ensures Cut(a + [c] + b, c) == Halves(a, b, true)
  {
    IndexAt(a, c, b);
    assert (a + [c] + b)[..|a|] == a;
    assert (a + [c] + b)[|a| + 1..] == b;
  }

  // ---- split and join ----

  function Split(s: Text, c: byte): (parts: seq<Text>)
    ensures |parts| > 0
    ensures forall k | 0 <= k < |parts| :: c !in parts[k]
    decreases |s|
  {
    var h := Cut(s, c);
    if h.found then [h.before] + Split(h.after, c) else [h.before]
  }

  function Join(parts: seq<Text>, c: byte): Text
  {
    if parts == [] then []
    else if |parts| == 1 then parts[0]
    else parts[0] + [c] + Join(parts[1..], c)
  }

  lemma {:induction false} JoinSnoc(parts: seq<Text>, p: Text, c: byte)
    requires parts != []
    ensures Join(parts + [p], c) == Join(parts, c) + [c] + p
  {
    assert (parts + [p])[1..] == parts[1..] + [p];
    if |parts| > 1 {
      JoinSnoc(parts[1..], p, c);
      assert (parts[0] + [c]) + ((Join(parts[1..], c) + [c]) + p) == ((parts[0] + [c] + Join(parts[1..], c)) + [c]) + p;
    } else {
      assert parts[1..] + [p] == [p];
    }
  }

  lemma {:induction false} SplitJoin(parts: seq<Text>, c: byte)
    requires parts != [] && forall k | 0 <= k < |parts| :: c !in parts[k]
    ensures Split(Join(parts, c), c) == parts
    decreases |parts|
  {
    hide Cut;
    if |parts| == 1 {
    } else {
      CutAt(parts[0], c, Join(parts[1..], c));
      SplitJoin(parts[1..], c);
    }
  }

  lemma {:induction false} JoinSplit(s: Text, c: byte)
    ensures Join(Split(s, c), c) == s
    decreases |s|
  {
    hide Index;
    var h := Cut(s, c);
    if !h.found {
    } else {
      JoinSplit(h.after, c);
      assert Split(s, c)[1..] == Split(h.after, c);
    }
  }

  // ---- sort ----

  /** Byte order on strings. */
  predicate LessEq(a: Text, b: Text)
  {
    a == [] || (b != [] && (a[0] < b[0] || (a[0] == b[0] && LessEq(a[1..], b[1..]))))
  }

  lemma {:induction false} LessEqTotal(a: Text, b: Text)
    ensures LessEq(a, b) || LessEq(b, a)
  {
    if a == [] || b == [] {
    } else if a[0] == b[0] {
      LessEqTotal(a[1..], b[1..]);
    }
  }

  lemma {:induction false} LessEqTransitive(a: Text, b: Text, c: Text)
    requires LessEq(a, b) && LessEq(b, c)
    ensures LessEq(a, c)
  {
    if a == [] {
    } else if a[0] == b[0] && b[0] == c[0] {
      LessEqTransitive(a[1..], b[1..], c[1..]);
    }
  }

  lemma {:induction false} LessEqAntisymmetric(a: Text, b: Text)
    requires LessEq(a, b) && LessEq(b, a)
    ensures a == b
  {
    if a == [] {
    } else {
      LessEqAntisymmetric(a[1..], b[1..]);
      assert a == [a[0]] + a[1..] && b == [b[0]] + b[1..];
    }
  }

  ghost predicate Sorted(ts: seq<Text>)
  {
    forall i, j | 0 <= i < j < |ts| :: LessEq(ts[i], ts[j])
  }

  function Insert(ts: seq<Text>, t: Text): (r: seq<Text>)
    ensures multiset(r) == multiset(ts) + multiset{t}
  {
    if ts == [] then [t]
    else if LessEq(t, ts[0]) then
      [t] + ts
    else
      assert ts == [ts[0]] + ts[1..];
      [ts[0]] + Insert(ts[1..], t)
  }

  function Sort(ts: seq<Text>): (r: seq<Text>)
    ensures multiset(r) == multiset(ts)
  {
    if ts == [] then []
    else
      assert ts == [ts[0]] + ts[1..];
      Insert(Sort(ts[1..]), ts[0])
  }

  lemma {:induction false} InsertKeepsSorted(ts: seq<Text>, t: Text)
    requires Sorted(ts)
    ensures Sorted(Insert(ts, t))
  {
    if ts == [] {
    } else if LessEq(t, ts[0]) {
      forall j | 0 <= j < |ts|
        ensures LessEq(t, ts[j])
      {
        if j > 0 {
          LessEqTransitive(t, ts[0], ts[j]);
        }
      }
    } else {
      InsertKeepsSorted(ts[1..], t);
      LessEqTotal(ts[0], t);
      var r := Insert(ts[1..], t);
      forall j | 0 <= j < |r|
        ensures LessEq(ts[0], r[j])
      {
        assert r[j] in multiset(r);
        assert r[j] == t || r[j] in ts[1..];
      }
    }
  }

  lemma {:induction false} SortSorts(ts: seq<Text>)
    ensures Sorted(Sort(ts))
  {
    if ts == [] {
    } else {
      SortSorts(ts[1..]);
      InsertKeepsSorted(Sort(ts[1..]), ts[0]);
    }
  }

  lemma WithoutFirst(a: seq<Text>, b: seq<Text>)
    requires a != [] && b != [] && a[0] == b[0] && multiset(a) == multiset(b)
    ensures multiset(a[1..]) == multiset(b[1..])
    ensures a[1..] == b[1..] ==> a == b
  {
    assert a == [a[0]] + a[1..] && b == [b[0]] + b[1..];
    assert multiset(a[1..]) == multiset(a) - multiset{a[0]};
    assert multiset(b[1..]) == multiset(b) - multiset{b[0]};
  }

  lemma SameLength(a: seq<Text>, b: seq<Text>)
    requires multiset(a) == multiset(b)
    ensures |a| == |b|
  {
    assert |multiset(a)| == |a| && |multiset(b)| == |b|;
  }

  /** A list has one sorted permutation. */
  lemma {:induction false} SortedUnique(a: seq<Text>, b: seq<Text>)
    requires Sorted(a) && Sorted(b) && multiset(a) == multiset(b)
    ensures a == b
    decreases |a|
  {
    hide LessEq;
    SameLength(a, b);
    if a == [] {
    } else {
      Least(a, b);
      Least(b, a);
      LessEqAntisymmetric(a[0], b[0]);
      WithoutFirst(a, b);
      SortedUnique(a[1..], b[1..]);
    }
  }

  lemma Least(a: seq<Text>, b: seq<Text>)
    requires a != [] && b != [] && Sorted(a) && multiset(a) == multiset(b)
    ensures LessEq(a[0], b[0])
  {
    assert b[0] in multiset(a);
    var k :| 0 <= k < |a| && a[k] == b[0];
    if k == 0 {
      LessEqTotal(a[0], a[0]);
    }
  }

  /** Whatever algorithm sorts, it finds `Sort`'s result; and two lists sort alike exactly
      when they are permutations of each other. */
  lemma SortCanonical(a: seq<Text>, b: seq<Text>)
    ensures Sorted(b) && multiset(a) == multiset(b) ==> b == Sort(a)
    ensures Sort(a) == Sort(b) <==> multiset(a) == multiset(b)
  {
    SortSorts(a);
    SortSorts(b);
    if multiset(a) == multiset(b) {
      SortedUnique(Sort(a), Sort(b));
      if Sorted(b) {
        SortedUnique(b, Sort(a));
      }
    }
  }
}
