/**
 The DogStatsD line formats: packed metric lines, service checks, and events framed by
 byte lengths. Reading a float is a parameter; everything else is spelled out.
 */
module DogStatsD {
  import opened Basics
  import opened Strings
  import opened Decimal
  import opened ContextKeys

  const COLON: byte := 58
  const AT: byte := 64
  const HASH: byte := 35

  type Floats = Text -> Option<real>

  predicate Starts(s: Text, p: Text) { |p| <= |s| && s[..|p|] == p }

  function SplitTags(s: Text): seq<Text>
  {
    if s == [] then [] else Split(s, COMMA)
  }

  /** An optional field before the remaining ones, separated by a bar. */
  function Bar(field: Text, rest: Text): Text
  {
    if field == [] then rest else if rest == [] then field else field + [PIPE] + rest
  }

  function TagField(tags: seq<Text>): Text
  {
    if tags == [] then [] else [HASH] + Join(tags, COMMA)
  }

  /** Tags a line can carry. */
  ghost predicate LineTags(tags: seq<Text>)
  {
    tags != [[]] && forall k | 0 <= k < |tags| :: COMMA !in tags[k] && PIPE !in tags[k]
  }

  lemma {:induction false} JoinHasNo(parts: seq<Text>, c: byte, x: byte)
    requires c != x && forall k | 0 <= k < |parts| :: x !in parts[k]
    ensures x !in Join(parts, c)
  {
    if |parts| <= 1 {
    } else {
      JoinHasNo(parts[1..], c, x);
    }
  }

  lemma {:induction false} JoinEmpty(parts: seq<Text>, c: byte)
    ensures Join(parts, c) == [] <==> parts == [] || parts == [[]]
  {
  }

  lemma TagsRead(tags: seq<Text>)
    requires LineTags(tags)
    ensures PIPE !in TagField(tags)
    ensures tags != [] ==> TagField(tags) != [] && TagField(tags)[0] == HASH && SplitTags(TagField(tags)[1..]) == tags
  {
    hide Join, Split;
    JoinHasNo(tags, COMMA, PIPE);
    JoinEmpty(tags, COMMA);
    if tags != [] {
      SplitJoin(tags, COMMA);
      assert TagField(tags)[1..] == Join(tags, COMMA);
    }
  }

  /** Whatever is split off a line without bars is clean. */
  lemma SplitTagsClean(s: Text)
    requires PIPE !in s
    ensures LineTags(SplitTags(s))
  {
    hide Cut;
    if s != [] {
      JoinSplit(s, COMMA);
      JoinEmpty(SplitTags(s), COMMA);
      PartsHaveNo(s, COMMA, PIPE);
    }
  }

  lemma {:induction false} PartsHaveNo(s: Text, c: byte, x: byte)
    requires x !in s
    ensures forall k | 0 <= k < |Split(s, c)| :: x !in Split(s, c)[k]
    decreases |s|
  {
    var h := Cut(s, c);
    if !h.found {
    } else {
      PartsHaveNo(h.after, c, x);
    }
    hide Cut;
  }

  // ---- metric lines ----

  function ParseType(s: Text): Option<SampleType>
  {
    if s == [103] then Some(Gauge)
    else if s == [99] then Some(Counter)
    else if s == [104] then Some(Histogram)
    else if s == [109, 115] then Some(Timing)
    else if s == [100] then Some(Distribution)
    else if s == [115] then Some(Set)
    else None
  }

  function SampleOption(s: Sample, field: Text, F: Floats): Sample
  {
    if field != [] && field[0] == AT then
      var r := F(field[1..]);
      if r.Some? && r.value > 0.0 then s.(rate := r.value) else s
    else if field != [] && field[0] == HASH then s.(tags := SplitTags(field[1..]))
    else s
  }

  function SampleOptions(s: Sample, opts: Text, F: Floats): Sample
    decreases |opts|
  {
    if opts == [] then s
    else
      var h := Cut(opts, PIPE);
      if h.found then SampleOptions(SampleOption(s, h.before, F), h.after, F) else SampleOption(s, h.before, F)
  }

  function Values(s: Sample, values: Text, F: Floats): Option<seq<Sample>>
    decreases |values|
  {
    var h := Cut(values, COLON);
    var v := F(h.before);
    if v.None? then None
    else if !h.found then Some([s.(value := v.value)])
    else
      var more := Values(s, h.after, F);
      if more.None? then None else Some([s.(value := v.value)] + more.value)
  }

  /** The sample of a line without its value, and the text of the values. */
  datatype Head = Head(base: Sample, values: Text)

  function Base(name: Text, rest: Text, F: Floats): Option<Sample>
  {
    var t := Cut(rest, PIPE);
    var typ := ParseType(t.before);
    if typ.None? then None else Some(SampleOptions(Sample(name, 0.0, [], typ.value, [], 1.0), t.after, F))
  }

  function ParseHead(line: Text, F: Floats): Option<Head>
  {
    var l := Cut(line, PIPE);
    var n := Cut(l.before, COLON);
    if !l.found || !n.found || n.before == [] then None
    else
      var base := Base(n.before, l.after, F);
      if base.None? then None else Some(Head(base.value, n.after))
  }

  function Parse(line: Text, F: Floats): Option<seq<Sample>>
  {
    var h := ParseHead(line, F);
    if h.None? then None
    else if h.value.base.typ == Set then Some([h.value.base.(str := h.value.values)])
    else Values(h.value.base, h.value.values, F)
  }

  method ParseLine(line: Text, F: Floats) returns (samples: Option<seq<Sample>>)
    ensures samples == Parse(line, F)
  {
    hide Cut;
    var l := Cut(line, PIPE);
    if !l.found {
      return None;
    }
    var n := Cut(l.before, COLON);
    if !n.found || n.before == [] {
      return None;
    }
    var t := Cut(l.after, PIPE);
    var typ := ParseType(t.before);
    if typ.None? {
      return None;
    }
    var base := Sample(n.before, 0.0, [], typ.value, [], 1.0);
    var opts := t.after;
    ghost var base0 := base;
    while opts != []
      invariant SampleOptions(base, opts, F) == SampleOptions(base0, t.after, F)
      decreases |opts|
    {
      var h := Cut(opts, PIPE);
      base, opts := SampleOption(base, h.before, F), h.after;
    }
    if base.typ == Set {
      return Some([base.(str := n.after)]);
    }
    samples := ParseValues(base, n.after, F);
  }

  method ParseValues(base: Sample, values: Text, F: Floats) returns (samples: Option<seq<Sample>>)
    ensures samples == Values(base, values, F)
  {
    hide Cut;
    var found: seq<Sample>, text := [], values;
    PrependNone(Values(base, text, F));
    while true
      invariant Values(base, values, F) == Prepend(found, Values(base, text, F))
      decreases |text|
    {
      var h := Cut(text, COLON);
      var v := F(h.before);
      if v.None? {
        return None;
      }
      PrependOne(found, base.(value := v.value), Values(base, h.after, F));
      found := found + [base.(value := v.value)];
      if !h.found {
        return Some(found);
      }
      text := h.after;
    }
  }

  function Prepend(found: seq<Sample>, more: Option<seq<Sample>>): Option<seq<Sample>>
  {
    if more.None? then None else Some(found + more.value)
  }

  lemma PrependNone(more: Option<seq<Sample>>)
    ensures Prepend([], more) == more
  {
    if more.Some? {
      assert [] + more.value == more.value;
    }
  }

  lemma PrependOne(found: seq<Sample>, s: Sample, more: Option<seq<Sample>>)
    ensures Prepend(found + [s], more) == Prepend(found, Prepend([s], more))
  {
    if more.Some? {
      assert (found + [s]) + more.value == found + ([s] + more.value);
    }
  }

  // ---- what a metric line yields ----

  lemma {:induction false} OptionsKeep(s: Sample, opts: Text, F: Floats)
    requires s.rate > 0.0 && LineTags(s.tags)
    ensures var r := SampleOptions(s, opts, F);
            r.name == s.name && r.typ == s.typ && r.rate > 0.0 && LineTags(r.tags)
    decreases |opts|
  {
    if opts == [] {
    } else {
      var h := Cut(opts, PIPE);
      if h.before != [] && h.before[0] == HASH {
        SplitTagsClean(h.before[1..]);
      }
      hide Cut, LineTags;
      if h.found {
        OptionsKeep(SampleOption(s, h.before, F), h.after, F);
      }
    }
  }

  lemma {:induction false} ValuesKeep(s: Sample, values: Text, F: Floats)
    ensures var r := Values(s, values, F);
            r.Some? ==> |r.value| > 0 && forall k | 0 <= k < |r.value| :: r.value[k] == s.(value := r.value[k].value)
    decreases |values|
  {
    var h := Cut(values, COLON);
    hide Cut;
    if !h.found {
    } else {
      ValuesKeep(s, h.after, F);
    }
  }

  /** What every parsed sample guarantees the aggregator: a clean name and clean tags, so
      that its context key is exact, and a positive rate; a line's samples differ only in
      their values. */
  lemma ParsedIsClean(line: Text, F: Floats)
    ensures var r := Parse(line, F);
            r.Some? ==>
              && |r.value| > 0
              && forall k | 0 <= k < |r.value| ::
                   && r.value[k].name != [] && COLON !in r.value[k].name
                   && Clean(r.value[k].name, r.value[k].tags) && r.value[k].rate > 0.0
                   && r.value[k] == r.value[0].(value := r.value[k].value)
  {
    HeadIsClean(line, F);
    var h := ParseHead(line, F);
    hide ParseHead, LineTags, Clean;
    if h.Some? {
      ValuesKeep(h.value.base, h.value.values, F);
    }
  }

  /** Any two samples of any two parsed lines are filed together exactly when they agree on
      name, type, and tags up to order. */
  lemma ParsedKeysAreExact(a: Text, b: Text, F: Floats, i: nat, j: nat)
    requires Parse(a, F).Some? && i < |Parse(a, F).value|
    requires Parse(b, F).Some? && j < |Parse(b, F).value|
    ensures var x, y := Parse(a, F).value[i], Parse(b, F).value[j];
            Key(x.name, x.typ, x.tags) == Key(y.name, y.typ, y.tags) <==>
            x.name == y.name && x.typ == y.typ && multiset(x.tags) == multiset(y.tags)
  {
    hide Parse, Key, Clean;
    ParsedIsClean(a, F);
    ParsedIsClean(b, F);
    var x, y := Parse(a, F).value[i], Parse(b, F).value[j];
    KeyIsExact(x.name, x.typ, x.tags, y.name, y.typ, y.tags);
  }

  lemma HeadIsClean(line: Text, F: Floats)
    ensures var h := ParseHead(line, F);
            h.Some? ==>
              && h.value.base.name != [] && COLON !in h.value.base.name
              && Clean(h.value.base.name, h.value.base.tags) && h.value.base.rate > 0.0
  {
    var l := Cut(line, PIPE);
    var n := Cut(l.before, COLON);
    var t := Cut(l.after, PIPE);
    if l.found && n.found && n.before != [] && ParseType(t.before).Some? {
      var s := Sample(n.before, 0.0, [], ParseType(t.before).value, [], 1.0);
      OptionsKeep(s, t.after, F);
      hide SampleOptions;
      assert forall x | x in n.before :: x in l.before;
    }
    hide Cut;
  }

  function Line(name: Text, values: Text, rest: Text): Text
  {
    (name + [COLON] + values) + [PIPE] + rest
  }

  lemma HeadOfLine(name: Text, values: Text, rest: Text, F: Floats)
    requires name != [] && PIPE !in name && COLON !in name && PIPE !in values
    ensures ParseHead(Line(name, values, rest), F) ==
            var base := Base(name, rest, F);
            if base.None? then None else Some(Head(base.value, values))
  {
    hide Cut, Base;
    CutAt(name + [COLON] + values, PIPE, rest);
    CutAt(name, COLON, values);
  }

  /** Several results as one: all the samples in order, or a failure if there is any. */
  function Combine(rs: seq<Option<seq<Sample>>>): Option<seq<Sample>>
  {
    if rs == [] then Some([])
    else
      var more := Combine(rs[1..]);
      if rs[0].None? || more.None? then None else Some(rs[0].value + more.value)
  }

  function Singles(name: Text, values: seq<Text>, rest: Text, F: Floats): (rs: seq<Option<seq<Sample>>>)
    ensures |rs| == |values|
  {
    if values == [] then [] else [Parse(Line(name, values[0], rest), F)] + Singles(name, values[1..], rest, F)
  }

  lemma {:induction false} ValuesOfJoin(s: Sample, values: seq<Text>, F: Floats)
    requires values != [] && forall k | 0 <= k < |values| :: COLON !in values[k]
    ensures Values(s, Join(values, COLON), F) ==
            if |values| == 1 then Values(s, values[0], F)
            else Combine([Values(s, values[0], F), Values(s, Join(values[1..], COLON), F)])
  {
    hide Cut;
    if |values| > 1 {
      CutAt(values[0], COLON, Join(values[1..], COLON));
      CutWhole(values[0], COLON);
      var a, b := Values(s, values[0], F), Values(s, Join(values[1..], COLON), F);
      CombineTwo(a, b);
    }
  }

  lemma CutWhole(s: Text, c: byte)
    requires c !in s
    ensures Cut(s, c) == Halves(s, [], false)
  {
  }

  lemma CombineTwo(a: Option<seq<Sample>>, b: Option<seq<Sample>>)
    ensures Combine([a, b]) == if a.None? || b.None? then None else Some(a.value + b.value)
  {
    assert [a, b][1..] == [b];
    CombineOne(b);
  }

  lemma CombineOne(a: Option<seq<Sample>>)
    ensures Combine([a]) == a
  {
    assert [a][1..] == [];
    if a.Some? {
      assert a.value + [] == a.value;
    }
  }

  /** A packed line parses to the samples of its single-value lines, one after the other,
      and fails exactly when one of them does. */
  lemma {:induction false} PackedLine(name: Text, values: seq<Text>, rest: Text, F: Floats)
    requires name != [] && PIPE !in name && COLON !in name && values != []
    requires forall k | 0 <= k < |values| :: COLON !in values[k] && PIPE !in values[k]
    requires var base := Base(name, rest, F); base.Some? ==> base.value.typ != Set
    ensures Parse(Line(name, Join(values, COLON), rest), F) == Combine(Singles(name, values, rest, F))
    decreases |values|
  {
    hide Base, Cut, Combine, Values, Join, Line, ParseHead;
    JoinHasNo(values, COLON, PIPE);
    HeadOfLine(name, Join(values, COLON), rest, F);
    HeadOfLine(name, values[0], rest, F);
    if |values| == 1 {
      JoinOne(values[0]);
      assert values == [values[0]];
      assert Singles(name, values, rest, F) == [Parse(Line(name, values[0], rest), F)];
      CombineOne(Parse(Line(name, values[0], rest), F));
    } else {
      var base := Base(name, rest, F);
      JoinHasNo(values[1..], COLON, PIPE);
      HeadOfLine(name, Join(values[1..], COLON), rest, F);
      PackedLine(name, values[1..], rest, F);
      CombineMore(Singles(name, values, rest, F));
      CombineTwo(Parse(Line(name, values[0], rest), F), Parse(Line(name, Join(values[1..], COLON), rest), F));
      if base.Some? {
        ValuesOfJoin(base.value, values, F);
      }
    }
  }

  lemma JoinOne(t: Text)
    ensures Join([t], COLON) == t
  {
  }

  lemma CombineMore(rs: seq<Option<seq<Sample>>>)
    requires rs != []
    ensures Combine(rs) == Combine([rs[0], Combine(rs[1..])])
  {
    CombineTwo(rs[0], Combine(rs[1..]));
  }

  /** A metric line as a client prints it. */
  function PrintSample(name: Text, values: seq<Text>, typ: Text, rate: Text, tags: seq<Text>): Text
  {
    Line(name, Join(values, COLON), typ + [PIPE] + Bar([AT] + rate, TagField(tags)))
  }

  lemma SampleOptionStep(s: Sample, field: Text, rest: Text, F: Floats)
    requires PIPE !in field
    ensures SampleOptions(s, Bar(field, rest), F) == SampleOptions(SampleOption(s, field, F), rest, F)
  {
    hide Cut;
    if field != [] {
      if rest == [] {
        CutWhole(field, PIPE);
      } else {
        CutAt(field, PIPE, rest);
      }
    }
  }

  /** Printing and parsing a metric line: every value in order under the printed name, type,
      rate and tags. */
  lemma {:induction false} SampleRoundTrip(name: Text, values: seq<Text>, typ: Text, rate: Text, tags: seq<Text>,
                                           F: Floats)
    requires name != [] && PIPE !in name && COLON !in name
    requires values != []
    requires forall k | 0 <= k < |values| :: COLON !in values[k] && PIPE !in values[k] && F(values[k]).Some?
    requires ParseType(typ).Some? && ParseType(typ).value != Set
    requires PIPE !in rate && F(rate).Some? && F(rate).value > 0.0 && LineTags(tags)
    ensures var r := Parse(PrintSample(name, values, typ, rate, tags), F);
            && r.Some? && |r.value| == |values|
            && forall k | 0 <= k < |values| ::
                 r.value[k] == Sample(name, F(values[k]).value, [], ParseType(typ).value, tags, F(rate).value)
  {
    hide Cut, Join, Values, Split, Line, ParseHead, TagField, SplitTags, Bar, SampleOptions;
    var opts := Bar([AT] + rate, TagField(tags));
    var s := Sample(name, 0.0, [], ParseType(typ).value, [], 1.0);
    JoinHasNo(values, COLON, PIPE);
    HeadOfLine(name, Join(values, COLON), typ + [PIPE] + opts, F);
    assert PIPE !in typ;
    CutAt(typ, PIPE, opts);
    SampleOptionStep(s, [AT] + rate, TagField(tags), F);
    assert ([AT] + rate)[1..] == rate;
    var s1 := s.(rate := F(rate).value);
    assert SampleOption(s, [AT] + rate, F) == s1;
    OnlyTags(s1, tags, F);
    ValuesRead(s1.(tags := tags), values, F);
  }

  lemma OnlyTags(s: Sample, tags: seq<Text>, F: Floats)
    requires LineTags(tags) && s.tags == []
    ensures SampleOptions(s, TagField(tags), F) == s.(tags := tags)
  {
    hide Cut, Split, Join;
    TagsRead(tags);
    if tags != [] {
      CutWhole(TagField(tags), PIPE);
    }
  }

  lemma {:induction false} ValuesRead(s: Sample, values: seq<Text>, F: Floats)
    requires values != [] && forall k | 0 <= k < |values| :: COLON !in values[k] && F(values[k]).Some?
    ensures var r := Values(s, Join(values, COLON), F);
            && r.Some? && |r.value| == |values|
            && forall k | 0 <= k < |values| :: r.value[k] == s.(value := F(values[k]).value)
    decreases |values|
  {
    hide Cut;
    CutWhole(values[0], COLON);
    if |values| == 1 {
    } else {
      CutAt(values[0], COLON, Join(values[1..], COLON));
      ValuesRead(s, values[1..], F);
    }
  }
}
