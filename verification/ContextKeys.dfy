/** The samples of DogStatsD, and the string under which the aggregator files them. */
module ContextKeys {
  import opened Basics
  import opened Strings

  datatype SampleType = Gauge | Counter | Histogram | Timing | Distribution | Set

  datatype Sample = Sample(name: Text, value: real, str: Text, typ: SampleType, tags: seq<Text>, rate: real)

  const PIPE: byte := 124
  const COMMA: byte := 44

  function Code(typ: SampleType): (c: byte)
    ensures 48 <= c <= 53
  {
    match typ
    case Gauge => 48
    case Counter => 49
    case Histogram => 50
    case Timing => 51
    case Distribution => 52
    case Set => 53
  }

  function Key(name: Text, typ: SampleType, tags: seq<Text>): Text
  {
    (name + [PIPE]) + ([Code(typ), PIPE] + Join(Sort(tags), COMMA))
  }

  method ContextKey(name: Text, typ: SampleType, tags: seq<Text>) returns (b: Text)
    ensures b == Key(name, typ, tags)
  {
    hide Sort;
    var sorted := Sort(tags);
    b := name;
    b := b + [PIPE];
    b := b + [Code(typ)];
    b := b + [PIPE];
    for i := 0 to |sorted|
      invariant b == (name + [PIPE]) + ([Code(typ), PIPE] + Join(sorted[..i], COMMA))
    {
      assert sorted[..i + 1] == sorted[..i] + [sorted[i]];
      if i > 0 {
        JoinSnoc(sorted[..i], sorted[i], COMMA);
        b := b + [COMMA];
      }
      b := b + sorted[i];
    }
    assert sorted[..|sorted|] == sorted;
  }

  /** What parsing guarantees of a sample's name and tags. */
  ghost predicate Clean(name: Text, tags: seq<Text>)
  {
    && PIPE !in name
    && (forall k | 0 <= k < |tags| :: COMMA !in tags[k])
    && tags != [[]]
  }

  lemma CodesDiffer(a: SampleType, b: SampleType)
    ensures Code(a) == Code(b) <==> a == b
  {
  }

  lemma {:induction false} SortKeepsClean(name: Text, tags: seq<Text>)
    requires Clean(name, tags)
    ensures Clean(name, Sort(tags))
  {
    hide Sort;
    var s := Sort(tags);
    forall k | 0 <= k < |s|
      ensures COMMA !in s[k]
    {
      assert s[k] in multiset(tags);
    }
    OneTag(tags, []);
    OneTag(s, []);
  }

  lemma OneTag(tags: seq<Text>, t: Text)
    ensures multiset(tags) == multiset{t} <==> tags == [t]
  {
    if multiset(tags) == multiset{t} {
      assert |tags| == |multiset(tags)|;
      assert tags[0] in multiset(tags);
    }
  }

  lemma JoinExact(a: seq<Text>, b: seq<Text>)
    requires Clean([], a) && Clean([], b) && Join(a, COMMA) == Join(b, COMMA)
    ensures a == b
  {
    NothingJoined();
    if a != [] {
      SplitJoin(a, COMMA);
    }
    if b != [] {
      SplitJoin(b, COMMA);
    }
  }

  lemma NothingJoined()
    ensures Join([], COMMA) == [] && Split([], COMMA) == [[]]
  {
  }

  /** On parsed samples the key is exact: equal keys mean the same name, the same type, and
      the same tags up to order, and the other way round. */
  lemma KeyIsExact(n1: Text, t1: SampleType, g1: seq<Text>, n2: Text, t2: SampleType, g2: seq<Text>)
    requires Clean(n1, g1) && Clean(n2, g2)
    ensures Key(n1, t1, g1) == Key(n2, t2, g2) <==> n1 == n2 && t1 == t2 && multiset(g1) == multiset(g2)
  {
    hide Sort, Join, Code;
    SortCanonical(g1, g2);
    SortKeepsClean(n1, g1);
    SortKeepsClean(n2, g2);
    if Key(n1, t1, g1) == Key(n2, t2, g2) {
      var r1, r2 := [Code(t1), PIPE] + Join(Sort(g1), COMMA), [Code(t2), PIPE] + Join(Sort(g2), COMMA);
      CutAt(n1, PIPE, r1);
      CutAt(n2, PIPE, r2);
      assert n1 == n2 && r1 == r2;
      assert r1[0] == Code(t1) && r2[0] == Code(t2);
      CodesDiffer(t1, t2);
      assert r1[2..] == Join(Sort(g1), COMMA) && r2[2..] == Join(Sort(g2), COMMA);
      JoinExact(Sort(g1), Sort(g2));
    }
  }

  /** Each guarantee is needed: without it, two different contexts share a key. */
  lemma KeyNeedsCleanTags(name: Text, typ: SampleType, a: Text, b: Text)
    ensures Key(name, typ, []) == Key(name, typ, [[]])
    ensures LessEq(a, b) ==> Key(name, typ, [a + [COMMA] + b]) == Key(name, typ, [a, b])
  {
    hide Sort, Join, LessEq, Code;
    SortOne([]);
    SortOne(a + [COMMA] + b);
    if LessEq(a, b) {
      SortTwo(a, b);
    }
  }

  lemma KeyNeedsCleanName(name: Text, a: Text, b: Text)
    ensures Key(name + [PIPE, 48, PIPE] + a, Counter, [b]) == Key(name, Gauge, [a + [PIPE, 49, PIPE] + b])
  {
    hide Sort, Join;
    var l, r := name + [PIPE, 48, PIPE] + a, a + [PIPE, 49, PIPE] + b;
    SortOne(b);
    SortOne(r);
    assert (l + [PIPE]) + ([49, PIPE] + b) == (name + [PIPE]) + ([48, PIPE] + r);
  }

  lemma SortOne(t: Text)
    ensures Join(Sort([t]), COMMA) == t
    ensures Join(Sort([]), COMMA) == []
  {
  }

  lemma SortTwo(a: Text, b: Text)
    requires LessEq(a, b)
    ensures Join(Sort([a, b]), COMMA) == a + [COMMA] + b
  {
    hide LessEq;
    assert [a, b][1..] == [b] && [b][1..] == [];
    assert Sort([b]) == [b];
    assert Sort([a, b]) == [a, b];
    assert [a] + [b] == [a, b];
  }
}
