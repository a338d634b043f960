/** Service-check datagrams: the message comes last and may contain bars. */
module ServiceChecks {
  import opened Basics
  import opened Strings
  import opened Decimal
  import opened ContextKeys
  import opened DogStatsD

  datatype ServiceCheck = ServiceCheck(check: Text, status: int, timestamp: int, host: Text, tags: seq<Text>,
                                       message: Text)

  /** `_sc|` */
  const SC: Text := [95, 115, 99, 124]
  const D: Text := [100, 58]
  const H: Text := [104, 58]
  const M: Text := [109, 58]

  // ---- parsing ----

  /** A field other than the message. */
  function CheckField(sc: ServiceCheck, field: Text): ServiceCheck
  {
    if Starts(field, D) then
      var ts := ParseInt(field[2..]);
      if ts.Some? then sc.(timestamp := ts.value) else sc
    else if Starts(field, H) then sc.(host := field[2..])
    else if field != [] && field[0] == HASH then sc.(tags := SplitTags(field[1..]))
    else sc
  }

  function CheckOptions(sc: ServiceCheck, opts: Text): ServiceCheck
    decreases |opts|
  {
    if opts == [] then sc
    else
      var h := Cut(opts, PIPE);
      if Starts(h.before, M) then
        sc.(message := h.before[2..] + if h.after != [] then [PIPE] + h.after else [])
      else if h.found then CheckOptions(CheckField(sc, h.before), h.after)
      else CheckField(sc, h.before)
  }

  function ParseCheck(line: Text): Option<ServiceCheck>
  {
    if !Starts(line, SC) then None
    else
      var n := Cut(line[4..], PIPE);
      var s := Cut(n.after, PIPE);
      var status := ParseInt(s.before);
      if !n.found || n.before == [] || status.None? || status.value < 0 || status.value > 3 then None
      else Some(CheckOptions(ServiceCheck(n.before, status.value, 0, [], [], []), s.after))
  }

  method ParseServiceCheck(line: Text) returns (check: Option<ServiceCheck>)
    ensures check == ParseCheck(line)
  {
    hide Cut, ParseInt, SplitTags;
    if !Starts(line, SC) {
      return None;
    }
    var n := Cut(line[4..], PIPE);
    if !n.found || n.before == [] {
      return None;
    }
    var s := Cut(n.after, PIPE);
    var status := ParseInt(s.before);
    if status.None? || status.value < 0 || status.value > 3 {
      return None;
    }
    var sc := ServiceCheck(n.before, status.value, 0, [], [], []);
    var opts := s.after;
    ghost var sc0 := sc;
    while opts != []
      invariant CheckOptions(sc, opts) == CheckOptions(sc0, s.after)
      decreases |opts|
    {
      var h := Cut(opts, PIPE);
      var field := h.before;
      opts := h.after;
      if Starts(field, D) {
        var ts := ParseInt(field[2..]);
        if ts.Some? {
          sc := sc.(timestamp := ts.value);
        }
      } else if Starts(field, H) {
        sc := sc.(host := field[2..]);
      } else if field != [] && field[0] == HASH {
        sc := sc.(tags := SplitTags(field[1..]));
      } else if Starts(field, M) {
        sc := sc.(message := field[2..]);
        if opts != [] {
          sc := sc.(message := sc.message + ([PIPE] + opts));
          opts := [];
        }
      }
    }
    return Some(sc);
  }

  // ---- printing ----

  /** What a line can carry. */
  ghost predicate Printable(sc: ServiceCheck)
  {
    && sc.check != [] && PIPE !in sc.check && 0 <= sc.status <= 3
    && INT64_MIN <= sc.timestamp <= INT64_MAX
    && PIPE !in sc.host && LineTags(sc.tags)
  }

  function TimeField(ts: int): Text { if ts == 0 then [] else D + FormatInt(ts) }

  function HostField(host: Text): Text { if host == [] then [] else H + host }

  function MessageField(message: Text): Text { if message == [] then [] else M + message }

  function PrintCheck(sc: ServiceCheck): Text
  {
    var opts := Bar(TimeField(sc.timestamp), Bar(HostField(sc.host), Bar(TagField(sc.tags), MessageField(sc.message))));
    SC + (sc.check + [PIPE] + (if opts == [] then FormatInt(sc.status) else FormatInt(sc.status) + [PIPE] + opts))
  }

  /** All a parser keeps of a message: everything, unless its only bar is its last byte. */
  function Kept(message: Text): Text
  {
    var k := Index(message, PIPE);
    if k == |message| - 1 then message[..k] else message
  }

  lemma {:induction false} FormatNatPlain(n: nat, c: byte)
    requires !IsDigit(c)
    ensures c !in FormatNat(n)
  {
  }

  lemma FormatIntPlain(n: int)
    ensures PIPE !in FormatInt(n) && FormatInt(n) != []
  {
    FormatNatPlain(if n < 0 then -n else n, PIPE);
  }

  lemma CheckStep(sc: ServiceCheck, field: Text, rest: Text)
    requires PIPE !in field && !Starts(field, M)
    ensures CheckOptions(sc, Bar(field, rest)) == if field == [] then CheckOptions(sc, rest)
            else CheckOptions(CheckField(sc, field), rest)
  {
    hide Cut, CheckField, Starts;
    if field != [] {
      if rest == [] {
        CutWhole(field, PIPE);
      } else {
        CutAt(field, PIPE, rest);
      }
    }
  }

  lemma TimeRead(sc: ServiceCheck, ts: int)
    requires sc.timestamp == 0 && INT64_MIN <= ts <= INT64_MAX
    ensures PIPE !in TimeField(ts) && !Starts(TimeField(ts), M)
    ensures (if TimeField(ts) == [] then sc else CheckField(sc, TimeField(ts))) == sc.(timestamp := ts)
  {
    hide ParseInt, FormatInt;
    FormatIntPlain(ts);
    ParseFormatInt(ts);
    assert (D + FormatInt(ts))[2..] == FormatInt(ts);
  }

  lemma HostRead(sc: ServiceCheck, host: Text)
    requires sc.host == [] && PIPE !in host
    ensures PIPE !in HostField(host) && !Starts(HostField(host), M)
    ensures (if HostField(host) == [] then sc else CheckField(sc, HostField(host))) == sc.(host := host)
  {
    assert (H + host)[2..] == host;
  }

  lemma TagRead(sc: ServiceCheck, tags: seq<Text>)
    requires sc.tags == [] && LineTags(tags)
    ensures PIPE !in TagField(tags) && !Starts(TagField(tags), M)
    ensures (if TagField(tags) == [] then sc else CheckField(sc, TagField(tags))) == sc.(tags := tags)
  {
    hide SplitTags, Join, LineTags;
    TagsRead(tags);
  }

  /** A message field is read up to the first bar, then with what follows it. */
  lemma MessageUpTo(sc: ServiceCheck, text: Text, rest: Text, bar: bool)
    requires PIPE !in text && (!bar ==> rest == [])
    ensures CheckOptions(sc, if bar then (M + text) + [PIPE] + rest else M + text) ==
            sc.(message := if rest == [] then text else text + ([PIPE] + rest))
  {
    hide CheckField;
    var field := M + text;
    if bar {
      CutAt(field, PIPE, rest);
    } else {
      CutWhole(field, PIPE);
    }
    hide Cut;
    assert field[..2] == M && field[2..] == text && text + [] == text;
  }

  lemma MessageRead(sc: ServiceCheck, message: Text)
    requires sc.message == []
    ensures CheckOptions(sc, MessageField(message)) == sc.(message := Kept(message))
  {
    hide CheckOptions, Index;
    var k := Index(message, PIPE);
    if message == [] {
      NoOptions(sc);
    } else if k < |message| {
      var text, rest := message[..k], message[k + 1..];
      assert M + message == (M + text) + [PIPE] + rest;
      assert message == text + ([PIPE] + rest);
      MessageUpTo(sc, text, rest, true);
    } else {
      assert message[..k] == message;
      MessageUpTo(sc, message, [], false);
    }
  }

  lemma NoOptions(sc: ServiceCheck)
    ensures CheckOptions(sc, []) == sc
  {
  }

  lemma OptionsRead(sc: ServiceCheck, base: ServiceCheck)
    requires Printable(sc) && base == ServiceCheck(sc.check, sc.status, 0, [], [], [])
    ensures CheckOptions(base, Bar(TimeField(sc.timestamp),
                               Bar(HostField(sc.host), Bar(TagField(sc.tags), MessageField(sc.message))))) ==
            sc.(message := Kept(sc.message))
  {
    hide TimeField, HostField, TagField, MessageField, Bar, CheckOptions, CheckField, Starts, Kept, LineTags;
    var m := MessageField(sc.message);
    var b1 := base.(timestamp := sc.timestamp);
    var b2 := b1.(host := sc.host);
    var b3 := b2.(tags := sc.tags);
    TimeRead(base, sc.timestamp);
    HostRead(b1, sc.host);
    TagRead(b2, sc.tags);
    CheckStep(base, TimeField(sc.timestamp), Bar(HostField(sc.host), Bar(TagField(sc.tags), m)));
    CheckStep(b1, HostField(sc.host), Bar(TagField(sc.tags), m));
    CheckStep(b2, TagField(sc.tags), m);
    MessageRead(b3, sc.message);
  }

  /** Printing and parsing a service check gives it back except for what `Kept` loses. */
  lemma CheckReads(sc: ServiceCheck)
    requires Printable(sc)
    ensures ParseCheck(PrintCheck(sc)) == Some(sc.(message := Kept(sc.message)))
  {
    hide CheckOptions, Kept, Bar, TimeField, HostField, TagField, MessageField, ParseInt, FormatInt, Cut, LineTags;
    var opts := Bar(TimeField(sc.timestamp), Bar(HostField(sc.host), Bar(TagField(sc.tags), MessageField(sc.message))));
    var status := FormatInt(sc.status);
    var tail := if opts == [] then status else status + [PIPE] + opts;
    var line := PrintCheck(sc);
    assert line[..4] == SC && line[4..] == sc.check + [PIPE] + tail;
    CutAt(sc.check, PIPE, tail);
    FormatIntPlain(sc.status);
    ParseFormatInt(sc.status);
    if opts == [] {
      CutWhole(status, PIPE);
    } else {
      CutAt(status, PIPE, opts);
    }
    OptionsRead(sc, ServiceCheck(sc.check, sc.status, 0, [], [], []));
  }

  /** One bar, at the very end. */
  predicate OneTrailingBar(m: Text)
  {
    m != [] && m[|m| - 1] == PIPE && PIPE !in m[..|m| - 1]
  }

  lemma KeptWhen(m: Text)
    ensures Kept(m) == m <==> !OneTrailingBar(m)
  {
    var k := Index(m, PIPE);
    if OneTrailingBar(m) {
      var text := m[..|m| - 1];
      IndexAt(text, PIPE, []);
      assert m == text + [PIPE] + [];
    }
    hide Index;
    assert k < |m| ==> |m[..k]| < |m|;
  }

  /** A service check survives printing and parsing exactly when its message is not a text
      without bars followed by one bar. */
  lemma MessageSurvives(sc: ServiceCheck)
    requires Printable(sc)
    ensures ParseCheck(PrintCheck(sc)) == Some(sc) <==> !OneTrailingBar(sc.message)
  {
    CheckReads(sc);
    KeptWhen(sc.message);
    hide ParseCheck, PrintCheck, Kept, OneTrailingBar;
  }

  /** The failing family is not empty: the message "up|" comes back as "up". */
  lemma TrailingBarIsLost(name: Text)
    requires name != [] && PIPE !in name
    ensures ParseCheck(PrintCheck(ServiceCheck(name, 0, 0, [], [], [117, 112, PIPE]))) ==
            Some(ServiceCheck(name, 0, 0, [], [], [117, 112]))
  {
    hide ParseCheck, PrintCheck;
    CheckReads(ServiceCheck(name, 0, 0, [], [], [117, 112, PIPE]));
    IndexAt([117, 112], PIPE, []);
    assert [117, 112] + [PIPE] + [] == [117, 112, PIPE];
    assert [117, 112, PIPE][..2] == [117, 112];
  }
}
