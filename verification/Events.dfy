/** Event datagrams: title and text framed by byte lengths, with escaped newlines. */
module Events {
  import opened Basics
  import opened Strings
  import opened Decimal
  import opened ContextKeys
  import opened DogStatsD
  import opened ServiceChecks

  datatype Event = Event(title: Text, text: Text, timestamp: int, host: Text, priority: Text, alertType: Text,
                         sourceType: Text, aggregationKey: Text, tags: seq<Text>)

  const BACKSLASH: byte := 92
  const SMALL_N: byte := 110
  const CLOSE: byte := 125

  /** `_e{` */
  const E: Text := [95, 101, 123]
  const P: Text := [112, 58]
  const T: Text := [116, 58]
  const S: Text := [115, 58]
  const K: Text := [107, 58]

  // ---- escaping ----

  function Unescape(s: Text): Text
    decreases |s|
  {
    if s == [] then []
    else if |s| >= 2 && s[0] == BACKSLASH && s[1] == SMALL_N then [LF] + Unescape(s[2..])
    else [s[0]] + Unescape(s[1..])
  }

  function Escape(s: Text): Text
  {
    if s == [] then []
    else (if s[0] == LF then [BACKSLASH, SMALL_N] else [s[0]]) + Escape(s[1..])
  }

  /** Unescaping finds an escape in the text itself. */
  predicate Ambiguous(s: Text)
  {
    |s| >= 2 && ((s[0] == BACKSLASH && s[1] == SMALL_N) || Ambiguous(s[1..]))
  }

  ghost predicate HasBackslashN(s: Text)
  {
    exists i :: 0 <= i < |s| - 1 && s[i] == BACKSLASH && s[i + 1] == SMALL_N
  }

  lemma {:induction false} AmbiguousMeans(s: Text)
    ensures Ambiguous(s) <==> HasBackslashN(s)
  {
    if |s| < 2 {
    } else {
      AmbiguousMeans(s[1..]);
      if i :| 0 <= i < |s| - 1 && s[i] == BACKSLASH && s[i + 1] == SMALL_N {
        if i > 0 {
          assert s[1..][i - 1] == BACKSLASH && s[1..][i] == SMALL_N;
        }
      }
      if j :| 0 <= j < |s[1..]| - 1 && s[1..][j] == BACKSLASH && s[1..][j + 1] == SMALL_N {
        assert s[j + 1] == BACKSLASH && s[j + 1 + 1] == SMALL_N;
      }
    }
  }

  /** Escaping adds no newline that unescaping would not find anyway. */
  lemma {:induction false} UnescapeEscape(s: Text)
    ensures Unescape(Escape(s)) == Unescape(s)
    decreases |s|
  {
    if s == [] {
    } else {
      UnescapeEscape(s[1..]);
      var e := Escape(s[1..]);
      if s[0] == LF {
        assert Escape(s)[2..] == e;
      } else {
        assert Escape(s) == [s[0]] + e;
        assert Escape(s)[1..] == e;
        EscapeStarts(s[1..]);
        if |s| >= 2 && s[0] == BACKSLASH && s[1] == SMALL_N {
          UnescapeEscape(s[2..]);
          assert s[1..][1..] == s[2..];
          assert Escape(s)[2..] == e[1..] == Escape(s[2..]);
        }
      }
    }
  }

  lemma EscapeStarts(s: Text)
    ensures s != [] ==> Escape(s) != []
    ensures s != [] && s[0] != LF ==> Escape(s) == [s[0]] + Escape(s[1..]) && Escape(s)[1..] == Escape(s[1..])
    ensures s != [] && s[0] == LF ==> Escape(s)[0] == BACKSLASH
    ensures s == [] ==> Escape(s) == []
  {
  }

  /** Unescaping changes a text exactly when it is ambiguous. */
  lemma {:induction false} UnescapeSame(s: Text)
    ensures |Unescape(s)| <= |s|
    ensures Unescape(s) == s <==> !Ambiguous(s)
    decreases |s|
  {
    if |s| >= 2 && s[0] == BACKSLASH && s[1] == SMALL_N {
      UnescapeSame(s[2..]);
      assert |Unescape(s)| < |s|;
    } else if s != [] {
      UnescapeSame(s[1..]);
      assert Unescape(s)[1..] == Unescape(s[1..]);
      assert s == [s[0]] + s[1..];
    }
  }

  // ---- parsing ----

  datatype Framed = Framed(header: Text, body: Text)

  /** Cut at the first `}:`. */
  function CutFrame(s: Text): Option<Framed>
    decreases |s|
  {
    if |s| < 2 then None
    else if s[0] == CLOSE && s[1] == COLON then Some(Framed([], s[2..]))
    else
      var more := CutFrame(s[1..]);
      if more.None? then None else Some(Framed([s[0]] + more.value.header, more.value.body))
  }

  lemma {:induction false} CutFrameAt(a: Text, b: Text)
    requires CLOSE !in a
    ensures CutFrame(a + [CLOSE, COLON] + b) == Some(Framed(a, b))
    decreases |a|
  {
    var s := a + [CLOSE, COLON] + b;
    if a == [] {
      assert s[2..] == b;
    } else {
      assert s[1..] == a[1..] + [CLOSE, COLON] + b;
      CutFrameAt(a[1..], b);
      assert a == [a[0]] + a[1..];
    }
  }

  function EventField(e: Event, field: Text): Event
  {
    if Starts(field, D) then
      var ts := ParseInt(field[2..]);
      if ts.Some? then e.(timestamp := ts.value) else e
    else if Starts(field, H) then e.(host := field[2..])
    else if Starts(field, P) then e.(priority := field[2..])
    else if Starts(field, T) then e.(alertType := field[2..])
    else if Starts(field, S) then e.(sourceType := field[2..])
    else if Starts(field, K) then e.(aggregationKey := field[2..])
    else if field != [] && field[0] == HASH then e.(tags := SplitTags(field[1..]))
    else e
  }

  function Trim(opts: Text): (t: Text)
    ensures |t| <= |opts|
  {
    if opts != [] && opts[0] == PIPE then opts[1..] else opts
  }

  function EventOptions(e: Event, opts: Text): Event
    decreases |opts|
  {
    if opts == [] then e
    else
      var h := Cut(Trim(opts), PIPE);
      if h.found then EventOptions(EventField(e, h.before), h.after) else EventField(e, h.before)
  }

  function ParseLengths(header: Text): Option<(int, int)>
  {
    var h := Cut(header, COMMA);
    var tl, el := ParseInt(h.before), ParseInt(h.after);
    if !h.found || tl.None? || el.None? || tl.value <= 0 || el.value < 0 then None
    else Some((tl.value, el.value))
  }

  function ParseEvent(line: Text): Option<Event>
  {
    if !Starts(line, E) then None
    else
      var f := CutFrame(line[3..]);
      if f.None? then None
      else
        var n := ParseLengths(f.value.header);
        if n.None? then None else ParseBody(f.value.body, n.value.0, n.value.1)
  }

  function ParseBody(body: Text, tl: int, el: int): Option<Event>
    requires tl > 0 && el >= 0
  {
    if |body| < tl then None
    else
      var r := body[tl..];
      if r == [] || r[0] != PIPE || |r| - 1 < el then None
      else Some(EventOptions(NewEvent(Unescape(body[..tl]), Unescape(r[1..][..el])), r[1..][el..]))
  }

  function NewEvent(title: Text, text: Text): Event { Event(title, text, 0, [], [], [], [], [], []) }

  method ParseEventLine(line: Text) returns (event: Option<Event>)
    ensures event == ParseEvent(line)
  {
    hide Cut, ParseInt, CutFrame, EventField, Unescape;
    if !Starts(line, E) {
      return None;
    }
    var f := CutFrame(line[3..]);
    if f.None? {
      return None;
    }
    var h := Cut(f.value.header, COMMA);
    if !h.found {
      return None;
    }
    var tl, el := ParseInt(h.before), ParseInt(h.after);
    if tl.None? || el.None? || tl.value <= 0 || el.value < 0 {
      return None;
    }
    var body := f.value.body;
    if |body| < tl.value {
      return None;
    }
    var title, r := body[..tl.value], body[tl.value..];
    if r == [] || r[0] != PIPE {
      return None;
    }
    r := r[1..];
    if |r| < el.value {
      return None;
    }
    var e := NewEvent(Unescape(title), Unescape(r[..el.value]));
    e := ReadOptions(e, r[el.value..]);
    return Some(e);
  }

  method ReadOptions(e0: Event, opts0: Text) returns (e: Event)
    ensures e == EventOptions(e0, opts0)
  {
    hide Cut, ParseInt, SplitTags;
    e := e0;
    var opts := opts0;
    while opts != []
      invariant EventOptions(e, opts) == EventOptions(e0, opts0)
      decreases |opts|
    {
      hide EventField;
      var h := Cut(Trim(opts), PIPE);
      opts := h.after;
      e := EventField(e, h.before);
    }
  }

  // ---- printing ----

  ghost predicate Printable(e: Event)
  {
    && e.title != [] && |Escape(e.title)| <= INT64_MAX && |Escape(e.text)| <= INT64_MAX
    && INT64_MIN <= e.timestamp <= INT64_MAX
    && PIPE !in e.host && PIPE !in e.priority && PIPE !in e.alertType && PIPE !in e.sourceType
    && PIPE !in e.aggregationKey && LineTags(e.tags)
  }

  function Prefixed(prefix: Text, s: Text): Text { if s == [] then [] else prefix + s }

  function PrintOptions(e: Event): Text
  {
    Bar(TimeField(e.timestamp), Bar(Prefixed(H, e.host), Bar(Prefixed(P, e.priority), Bar(Prefixed(T, e.alertType),
    Bar(Prefixed(S, e.sourceType), Bar(Prefixed(K, e.aggregationKey), TagField(e.tags)))))))
  }

  function PrintEvent(e: Event): Text
  {
    var title, text, opts := Escape(e.title), Escape(e.text), PrintOptions(e);
    E + ((FormatInt(|title|) + [COMMA] + FormatInt(|text|)) + [CLOSE, COLON] +
    (title + ([PIPE] + (text + if opts == [] then [] else [PIPE] + opts))))
  }

  lemma OptionStep(e: Event, field: Text, rest: Text)
    requires PIPE !in field
    ensures EventOptions(e, Bar(field, rest)) == if field == [] then EventOptions(e, rest)
            else EventOptions(EventField(e, field), rest)
  {
    hide Cut, EventField;
    if field != [] {
      assert field[0] in field;
      if rest == [] {
        CutWhole(field, PIPE);
      } else {
        CutAt(field, PIPE, rest);
      }
    }
  }

  /** The fields other than time and tags. */
  lemma TextRead(e: Event, s: Text)
    requires PIPE !in s
    ensures PIPE !in Prefixed(H, s) && PIPE !in Prefixed(P, s) && PIPE !in Prefixed(T, s)
            && PIPE !in Prefixed(S, s) && PIPE !in Prefixed(K, s)
    ensures s != [] ==>
              && EventField(e, Prefixed(H, s)) == e.(host := s)
              && EventField(e, Prefixed(P, s)) == e.(priority := s)
              && EventField(e, Prefixed(T, s)) == e.(alertType := s)
              && EventField(e, Prefixed(S, s)) == e.(sourceType := s)
              && EventField(e, Prefixed(K, s)) == e.(aggregationKey := s)
  {
    hide ParseInt, SplitTags;
    forall x, y
      ensures ([x, y] + s)[2..] == s && ([x, y] + s)[..2] == [x, y]
    {
    }
  }

  lemma EventTimeRead(e: Event, ts: int)
    requires e.timestamp == 0 && INT64_MIN <= ts <= INT64_MAX
    ensures PIPE !in TimeField(ts)
    ensures (if TimeField(ts) == [] then e else EventField(e, TimeField(ts))) == e.(timestamp := ts)
  {
    hide ParseInt, FormatInt;
    FormatIntPlain(ts);
    ParseFormatInt(ts);
    assert (D + FormatInt(ts))[2..] == FormatInt(ts);
  }

  lemma EventTagRead(e: Event, tags: seq<Text>)
    requires e.tags == [] && LineTags(tags)
    ensures EventOptions(e, TagField(tags)) == e.(tags := tags)
  {
    hide SplitTags, Join, LineTags, Cut;
    TagsRead(tags);
    if tags != [] {
      CutWhole(TagField(tags), PIPE);
    }
  }

  lemma OptionsReadAs(e: Event, title: Text, text: Text)
    requires Printable(e)
    ensures EventOptions(NewEvent(title, text), PrintOptions(e)) == e.(title := title, text := text)
  {
    hide TimeField, TagField, Prefixed, Bar, EventOptions, EventField, LineTags, Escape;
    var b0 := NewEvent(title, text);
    var b1 := b0.(timestamp := e.timestamp);
    var b2 := b1.(host := e.host);
    var b3 := b2.(priority := e.priority);
    var b4 := b3.(alertType := e.alertType);
    var b5 := b4.(sourceType := e.sourceType);
    var b6 := b5.(aggregationKey := e.aggregationKey);
    var o6 := TagField(e.tags);
    var o5 := Bar(Prefixed(K, e.aggregationKey), o6);
    var o4 := Bar(Prefixed(S, e.sourceType), o5);
    var o3 := Bar(Prefixed(T, e.alertType), o4);
    var o2 := Bar(Prefixed(P, e.priority), o3);
    var o1 := Bar(Prefixed(H, e.host), o2);
    EventTimeRead(b0, e.timestamp);
    OptionStep(b0, TimeField(e.timestamp), o1);
    PrefixedRead(b1, e.host, o2);
    PrefixedRead(b2, e.priority, o3);
    PrefixedRead(b3, e.alertType, o4);
    PrefixedRead(b4, e.sourceType, o5);
    PrefixedRead(b5, e.aggregationKey, o6);
    EventTagRead(b6, e.tags);
  }

  lemma PrefixedRead(e: Event, s: Text, rest: Text)
    requires PIPE !in s
    ensures e.host == [] ==> EventOptions(e, Bar(Prefixed(H, s), rest)) == EventOptions(e.(host := s), rest)
    ensures e.priority == [] ==> EventOptions(e, Bar(Prefixed(P, s), rest)) == EventOptions(e.(priority := s), rest)
    ensures e.alertType == [] ==> EventOptions(e, Bar(Prefixed(T, s), rest)) == EventOptions(e.(alertType := s), rest)
    ensures e.sourceType == [] ==> EventOptions(e, Bar(Prefixed(S, s), rest)) == EventOptions(e.(sourceType := s), rest)
    ensures e.aggregationKey == [] ==>
              EventOptions(e, Bar(Prefixed(K, s), rest)) == EventOptions(e.(aggregationKey := s), rest)
  {
    hide Bar, EventOptions, EventField;
    TextRead(e, s);
    OptionStep(e, Prefixed(H, s), rest);
    OptionStep(e, Prefixed(P, s), rest);
    OptionStep(e, Prefixed(T, s), rest);
    OptionStep(e, Prefixed(S, s), rest);
    OptionStep(e, Prefixed(K, s), rest);
  }

  lemma FormatIntHasNo(n: nat)
    ensures CLOSE !in FormatInt(n) && COMMA !in FormatInt(n)
  {
    FormatNatPlain(n, CLOSE);
    FormatNatPlain(n, COMMA);
  }

  lemma LengthsRead(tl: nat, el: nat)
    requires 0 < tl <= INT64_MAX && el <= INT64_MAX
    ensures CLOSE !in FormatInt(tl) + [COMMA] + FormatInt(el)
    ensures ParseLengths(FormatInt(tl) + [COMMA] + FormatInt(el)) == Some((tl as int, el as int))
  {
    hide FormatInt, ParseInt, Cut;
    FormatIntHasNo(tl);
    FormatIntHasNo(el);
    ParseFormatInt(tl);
    ParseFormatInt(el);
    CutAt(FormatInt(tl), COMMA, FormatInt(el));
  }

  lemma BodyRead(title: Text, text: Text, tail: Text)
    requires title != []
    ensures ParseBody(title + ([PIPE] + (text + tail)), |title|, |text|) ==
            Some(EventOptions(NewEvent(Unescape(title), Unescape(text)), tail))
  {
    hide EventOptions, Unescape;
    var body, r := title + ([PIPE] + (text + tail)), [PIPE] + (text + tail);
    assert body[..|title|] == title && body[|title|..] == r;
    assert r[1..] == text + tail;
    assert (text + tail)[..|text|] == text && (text + tail)[|text|..] == tail;
  }

  /** The bar before the options is trimmed. */
  lemma TrimmedOptions(e: Event, opts: Text)
    requires opts == [] || opts[0] != PIPE
    ensures EventOptions(e, if opts == [] then [] else [PIPE] + opts) == EventOptions(e, opts)
  {
    hide Cut, EventField;
    assert ([PIPE] + opts)[1..] == opts;
  }

  lemma OptionsStart(e: Event)
    requires Printable(e)
    ensures PrintOptions(e) == [] || PrintOptions(e)[0] != PIPE
  {
    hide LineTags, Join, FormatInt, Escape;
    TagsRead(e.tags);
    FormatIntPlain(e.timestamp);
    StartStep(Prefixed(K, e.aggregationKey), TagField(e.tags));
    var o5 := Bar(Prefixed(K, e.aggregationKey), TagField(e.tags));
    StartStep(Prefixed(S, e.sourceType), o5);
    var o4 := Bar(Prefixed(S, e.sourceType), o5);
    StartStep(Prefixed(T, e.alertType), o4);
    var o3 := Bar(Prefixed(T, e.alertType), o4);
    StartStep(Prefixed(P, e.priority), o3);
    var o2 := Bar(Prefixed(P, e.priority), o3);
    StartStep(Prefixed(H, e.host), o2);
    var o1 := Bar(Prefixed(H, e.host), o2);
    StartStep(TimeField(e.timestamp), o1);
    hide Bar, Prefixed, TagField, TimeField;
  }

  lemma StartStep(field: Text, rest: Text)
    requires field == [] || field[0] != PIPE
    requires rest == [] || rest[0] != PIPE
    ensures Bar(field, rest) == [] || Bar(field, rest)[0] != PIPE
  {
  }

  /** Reading a printed event: everything is recovered whatever bars, braces or colons the
      title and text contain, except that an n after a backslash becomes a newline. */
  lemma EventReads(e: Event)
    requires Printable(e)
    ensures ParseEvent(PrintEvent(e)) == Some(e.(title := Unescape(e.title), text := Unescape(e.text)))
  {
    hide EventOptions, PrintOptions, ParseLengths, FormatInt, CutFrame, Escape, Unescape, LineTags, ParseBody;
    var title, text, opts := Escape(e.title), Escape(e.text), PrintOptions(e);
    EscapeStarts(e.title);
    UnescapeEscape(e.title);
    UnescapeEscape(e.text);
    var lengths := FormatInt(|title|) + [COMMA] + FormatInt(|text|);
    var tail := if opts == [] then [] else [PIPE] + opts;
    var body := title + ([PIPE] + (text + tail));
    var line := PrintEvent(e);
    assert line == E + (lengths + [CLOSE, COLON] + body);
    assert line[..3] == E && line[3..] == lengths + [CLOSE, COLON] + body;
    LengthsRead(|title|, |text|);
    CutFrameAt(lengths, body);
    BodyRead(title, text, tail);
    OptionsStart(e);
    var f := e.(title := Unescape(e.title), text := Unescape(e.text));
    TrimmedOptions(NewEvent(f.title, f.text), opts);
    OptionsReadAs(e, f.title, f.text);
  }

  /** An event survives printing and parsing exactly when neither its title nor its text
      contains a backslash followed by an n. */
  lemma EventSurvives(e: Event)
    requires Printable(e)
    ensures ParseEvent(PrintEvent(e)) == Some(e) <==> !HasBackslashN(e.title) && !HasBackslashN(e.text)
  {
    hide ParseEvent, PrintEvent, Unescape, Ambiguous, HasBackslashN;
    EventReads(e);
    AmbiguousMeans(e.title);
    AmbiguousMeans(e.text);
    UnescapeSame(e.title);
    UnescapeSame(e.text);
  }
}
