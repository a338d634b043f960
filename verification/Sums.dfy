/** Sums over sequences. */
module Sums {

  function Sum<T>(ss: seq<T>, f: T -> real): real
  {
    if ss == [] then 0.0 else Sum(ss[..|ss| - 1], f) + f(ss[|ss| - 1])
  }

  lemma SumSnoc<T>(ss: seq<T>, x: T, f: T -> real)
    ensures Sum(ss + [x], f) == Sum(ss, f) + f(x)
  {
    assert (ss + [x])[..|ss|] == ss;
  }

  lemma {:induction false} SumAppend<T>(a: seq<T>, b: seq<T>, f: T -> real)
    ensures Sum(a + b, f) == Sum(a, f) + Sum(b, f)
  {
    if b == [] {
      assert a + b == a;
    } else {
      var c, x := b[..|b| - 1], b[|b| - 1];
      SumAppend(a, c, f);
      SumSnoc(a + c, x, f);
      assert a + b == (a + c) + [x];
    }
  }

  lemma SnocCount<T>(a: seq<T>)
    requires a != []
    ensures var c, x := a[..|a| - 1], a[|a| - 1];
            a == c + [x] && x in multiset(a) && multiset(c) == multiset(a) - multiset{x}
  {
    var c, x := a[..|a| - 1], a[|a| - 1];
    assert a == c + [x];
  }

  lemma TakeOut<T>(b: seq<T>, x: T) returns (l: seq<T>, r: seq<T>)
    requires x in multiset(b)
    ensures b == (l + [x]) + r && multiset(l + r) == multiset(b) - multiset{x}
  {
    var k :| 0 <= k < |b| && b[k] == x;
    l, r := b[..k], b[k + 1..];
    assert b == (l + [x]) + r;
  }

  /** A sum does not depend on the order of its terms. */
  lemma {:induction false} SumPermuted<T>(a: seq<T>, b: seq<T>, f: T -> real)
    requires multiset(a) == multiset(b)
    ensures Sum(a, f) == Sum(b, f)
    decreases |a|
  {
    if a == [] {
      assert |multiset(b)| == 0;
    } else {
      hide Sum;
      var c, x := a[..|a| - 1], a[|a| - 1];
      SnocCount(a);
      var l, r := TakeOut(b, x);
      SumPermuted(c, l + r, f);
      SumSnoc(c, x, f);
      SumAppend(l, r, f);
      SumAppend(l + [x], r, f);
      SumSnoc(l, x, f);
    }
  }

  /** Sums compare term by term. */
  lemma {:induction false} SumAtMost<T>(ss: seq<T>, f: T -> real, g: T -> real)
    requires forall k | 0 <= k < |ss| :: f(ss[k]) <= g(ss[k])
    ensures Sum(ss, f) <= Sum(ss, g)
  {
    if ss == [] {
    } else {
      SumAtMost(ss[..|ss| - 1], f, g);
    }
  }

  /** One strictly smaller term makes the whole sum strictly smaller. */
  lemma {:induction false} SumBelow<T>(ss: seq<T>, f: T -> real, g: T -> real, i: nat)
    requires i < |ss| && f(ss[i]) < g(ss[i])
    requires forall k | 0 <= k < |ss| :: f(ss[k]) <= g(ss[k])
    ensures Sum(ss, f) < Sum(ss, g)
  {
    var front := ss[..|ss| - 1];
    if i == |front| {
      SumAtMost(front, f, g);
    } else {
      SumBelow(front, f, g, i);
    }
  }

  /** Sums over equal terms are equal. */
  lemma {:induction false} SumSame<T>(ss: seq<T>, f: T -> real, g: T -> real)
    requires forall k | 0 <= k < |ss| :: f(ss[k]) == g(ss[k])
    ensures Sum(ss, f) == Sum(ss, g)
  {
    if ss == [] {
    } else {
      SumSame(ss[..|ss| - 1], f, g);
    }
  }
}
