/** Log messages and the configuration of the source they come from. */
module Messages {
  import opened Basics
  import opened LineProcessor

  datatype Source = Source(service: string, ddsource: string, tags: seq<string>, rules: Rules)

  /** One log line on its way to the intake. `offset` is the file position just past it; a
      journald message carries its opaque `cursor` instead. */
  datatype Message = Message(content: Text, service: string, ddsource: string, tags: seq<string>,
                             id: string, offset: nat, cursor: string)

  function ToMessage(src: Source, id: string, out: Out): Message
  {
    Message(out.content, src.service, src.ddsource, src.tags, id, out.off, "")
  }

  function ToMessages(src: Source, id: string, outs: seq<Out>): (ms: seq<Message>)
    ensures |ms| == |outs|
    ensures forall i | 0 <= i < |outs| :: ms[i] == ToMessage(src, id, outs[i])
  {
    seq(|outs|, i requires 0 <= i < |outs| => ToMessage(src, id, outs[i]))
  }

  lemma ToMessagesSnoc(src: Source, id: string, outs: seq<Out>, out: Out)
    ensures ToMessages(src, id, outs + [out]) == ToMessages(src, id, outs) + [ToMessage(src, id, out)]
  {
  }

  lemma ToMessagesAppend(src: Source, id: string, outs: seq<Out>, more: seq<Out>)
    ensures ToMessages(src, id, outs + more) == ToMessages(src, id, outs) + ToMessages(src, id, more)
  {
  }

  /** What the messages of one file say about it: the content shipped and where it ends. */
  function Facts(ms: seq<Message>, id: string): seq<Out>
  {
    if ms == [] then []
    else
      var before := Facts(ms[..|ms| - 1], id);
      var m := ms[|ms| - 1];
      if m.id == id then before + [Out(m.content, m.offset)] else before
  }

  lemma {:induction false} FactsAppend(a: seq<Message>, b: seq<Message>, id: string)
    ensures Facts(a + b, id) == Facts(a, id) + Facts(b, id)
  {
    if b == [] {
      assert a + b == a;
    } else {
      assert (a + b)[..|a + b| - 1] == a + b[..|b| - 1];
      FactsAppend(a, b[..|b| - 1], id);
    }
  }
}
