/** The reassembly of MQTT messages that arrive cut into fragments. */
module Mqtt {
  import opened Wrappers

  datatype Message = Message(topic: string, payload: string)

  /** A data event; only the first fragment of a message carries its topic. */
  datatype Fragment = Fragment(offset: nat, total: nat, topic: string, data: string)

  /** What has been collected so far. */
  datatype Buffer = Buffer(topic: string, payload: string)

  function Collected(b: Buffer, f: Fragment): Buffer {
    if f.offset == 0 then Buffer(f.topic, f.data) else Buffer(b.topic, b.payload + f.data)
  }

  function Callback(b: Buffer, f: Fragment): Option<Message> {
    var c := Collected(b, f);
    if f.offset + |f.data| >= f.total then Some(Message(c.topic, c.payload)) else None
  }

  class AtlasAsyncMqttClient {
    var incomingTopic: string
    var incomingPayload: string

    ghost function View(): Buffer
      reads this
    {
      Buffer(incomingTopic, incomingPayload)
    }

    constructor ()
      ensures View() == Buffer("", "")
    {
      incomingTopic, incomingPayload := "", "";
    }

    /** The data case of the event handler; `called` is what the message callback is called with. */
    method HandleData(f: Fragment) returns (called: Option<Message>)
      modifies this
      ensures View() == Collected(old(View()), f) && called == Callback(old(View()), f)
    {
      if f.offset == 0 {
        incomingTopic, incomingPayload := f.topic, [];
      }
      incomingPayload := incomingPayload + f.data;
      called := None;
      if f.offset + |f.data| >= f.total {
        called := Some(Message(incomingTopic, incomingPayload));
      }
    }
  }

  function BufferAfter(b: Buffer, fs: seq<Fragment>): Buffer
    decreases |fs|
  {
    if fs == [] then b else BufferAfter(Collected(b, fs[0]), fs[1..])
  }

  /** The messages the callback is called with, in order. */
  function Delivered(b: Buffer, fs: seq<Fragment>): seq<Message>
    decreases |fs|
  {
    if fs == [] then []
    else
      (match Callback(b, fs[0]) case Some(m) => [m] case None => []) + Delivered(Collected(b, fs[0]), fs[1..])
  }

  function Joined(cut: seq<string>): string {
    if cut == [] then "" else cut[0] + Joined(cut[1..])
  }

  /** A cut into nonempty pieces, or one empty piece. */
  predicate IsCut(m: Message, cut: seq<string>) {
    Joined(cut) == m.payload && |cut| > 0 && ((forall i: nat | i < |cut| :: cut[i] != "") || |cut| == 1)
  }

  /** The events for the pieces `cut`, the first of which starts at `offset`. */
  function Sent(m: Message, cut: seq<string>, offset: nat): seq<Fragment> {
    if cut == [] then []
    else [Fragment(offset, |m.payload|, if offset == 0 then m.topic else "", cut[0])] + Sent(m, cut[1..], offset + |cut[0]|)
  }

  lemma {:induction false} RestArrives(b: Buffer, m: Message, cut: seq<string>, offset: nat)
    requires cut != [] && (forall i: nat | i < |cut| :: cut[i] != "") && offset > 0 && b.topic == m.topic
    requires offset <= |m.payload| && b.payload == m.payload[..offset] && Joined(cut) == m.payload[offset..]
    ensures Delivered(b, Sent(m, cut, offset)) == [m]
    decreases |cut|
  {
    var next := offset + |cut[0]|;
    var fs := Sent(m, cut, offset);
    assert fs[1..] == Sent(m, cut[1..], next);
    assert m.payload[..offset] + cut[0] == m.payload[..next];
    assert Collected(b, fs[0]) == Buffer(m.topic, m.payload[..next]);
    if |cut| == 1 {
      assert Joined(cut[1..]) == "";
      assert next == |m.payload| && m.payload[..next] == m.payload;
    } else {
      assert m.payload[next..] == m.payload[offset..][|cut[0]|..] == Joined(cut[1..]);
      assert cut[1..][0] != "";
      RestArrives(Collected(b, fs[0]), m, cut[1..], next);
    }
  }

  /** One message, cut in any way, calls back exactly once, with its topic and its whole payload,
      whatever was collected before. */
  lemma MessageArrives(b: Buffer, m: Message, cut: seq<string>)
    requires IsCut(m, cut)
    ensures Delivered(b, Sent(m, cut, 0)) == [m]
  {
    var fs := Sent(m, cut, 0);
    var next := |cut[0]|;
    assert fs[1..] == Sent(m, cut[1..], next);
    if |cut| == 1 {
      assert Joined(cut[1..]) == "";
      assert cut[0] == m.payload;
    } else {
      assert m.payload[..next] == cut[0] && m.payload[next..] == Joined(cut[1..]);
      assert cut[1..][0] != "";
      RestArrives(Collected(b, fs[0]), m, cut[1..], next);
    }
  }

  lemma {:induction false} DeliveredSplits(b: Buffer, fs: seq<Fragment>, more: seq<Fragment>)
    ensures Delivered(b, fs + more) == Delivered(b, fs) + Delivered(BufferAfter(b, fs), more)
    decreases |fs|
  {
    if fs == [] {
      assert fs + more == more;
    } else {
      assert (fs + more)[1..] == fs[1..] + more;
      DeliveredSplits(Collected(b, fs[0]), fs[1..], more);
    }
  }

  /** The events for a stream of messages, the k-th cut as cuts[k] says. */
  function Stream(ms: seq<Message>, cuts: seq<seq<string>>): seq<Fragment>
    requires |ms| == |cuts|
  {
    if ms == [] then [] else Sent(ms[0], cuts[0], 0) + Stream(ms[1..], cuts[1..])
  }

  /** Any stream of messages, each cut in any way, is delivered message by message, in order. */
  lemma {:induction false} StreamArrives(b: Buffer, ms: seq<Message>, cuts: seq<seq<string>>)
    requires |ms| == |cuts| && forall k: nat | k < |ms| :: IsCut(ms[k], cuts[k])
    ensures Delivered(b, Stream(ms, cuts)) == ms
    decreases |ms|
  {
    if ms != [] {
      var first := Sent(ms[0], cuts[0], 0);
      MessageArrives(b, ms[0], cuts[0]);
      DeliveredSplits(b, first, Stream(ms[1..], cuts[1..]));
      StreamArrives(BufferAfter(b, first), ms[1..], cuts[1..]);
    }
  }
}
