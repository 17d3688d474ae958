/**
 Subscribe-node-set messages as bytes on a control stream. The network of relays is modelled with
 FIFO channels of messages; here the bytes of such a channel, in any chunks, give those messages back.
 */
module SnsStream {
  import opened Bytes
  import opened Sessions
  import opened Codecs
  import opened Framing
  import opened WireMessages

  datatype Read = Message(msg: SnsMsg) | Unreadable

  ghost predicate MsgFits(m: SnsMsg) {
    && 0 <= m.id < 0x1_0000_0000
    && (m.Advertise? ==> |m.nodes| < 0x1_0000 && forall n | n in m.nodes :: 0 <= n < 0x1_0000_0000_0000_0000)
  }

  function ToFrame(m: SnsMsg, priority: byte): Frame {
    var id := if m.id >= 0 then m.id else 0;
    match m
    case Advertise(_, nodes) => Frame(PROTOCOL_VERSION, SNS_ADVERTISED, EncodeSns(SnsBody(id, priority, nodes)))
    case Withdraw(_) => Frame(PROTOCOL_VERSION, SNS_WITHDRAWN, BE(id, 4))
  }

  function FromFrame(f: Frame): Read {
    if f.kind == SNS_ADVERTISED then
      var p := DecodeSns(f.body);
      if p.Parsed? then Message(Advertise(p.value.id, p.value.nodes)) else Unreadable
    else if f.kind == SNS_WITHDRAWN then
      var p := TakeNumber(f.body, 4);
      if p.Parsed? then Message(Withdraw(p.value)) else Unreadable
    else Unreadable
  }

  lemma FrameBack(m: SnsMsg, priority: byte)
    requires MsgFits(m)
    ensures FromFrame(ToFrame(m, priority)) == Message(m)
    ensures FrameOk(ToFrame(m, priority))
  {
    Widths();
    match m {
      case Advertise(id, nodes) =>
        var b := SnsBody(id, priority, nodes);
        SnsBackIff(b, []);
        SnsSizeExact(b, false);
        assert EncodeSns(b) + [] == EncodeSns(b);
      case Withdraw(id) =>
        NumberBack(id, 4, []);
        assert BE(id, 4) + [] == BE(id, 4);
    }
  }

  function Frames(ms: seq<SnsMsg>, priority: byte): (fs: seq<Frame>)
    ensures |fs| == |ms| && forall i | 0 <= i < |ms| :: fs[i] == ToFrame(ms[i], priority)
  {
    if ms == [] then [] else Frames(ms[..|ms| - 1], priority) + [ToFrame(ms[|ms| - 1], priority)]
  }

  /** The messages a reader makes of the frames handed to it. */
  function Messages(fs: seq<Frame>): seq<SnsMsg> {
    if fs == [] then []
    else
      var r := FromFrame(fs[|fs| - 1]);
      Messages(fs[..|fs| - 1]) + if r.Message? then [r.msg] else []
  }

  ghost predicate AllFit(ms: seq<SnsMsg>) {
    forall i | 0 <= i < |ms| :: MsgFits(ms[i])
  }

  lemma {:induction false} MessagesOf(fs: seq<Frame>, ms: seq<SnsMsg>)
    requires |fs| == |ms| && forall i | 0 <= i < |fs| :: FromFrame(fs[i]) == Message(ms[i])
    ensures Messages(fs) == ms
  {
    if fs != [] {
      var n := |fs| - 1;
      MessagesOf(fs[..n], ms[..n]);
      assert FromFrame(fs[n]) == Message(ms[n]);
      assert ms[..n] + [ms[n]] == ms;
    }
  }

  /** Over any split of the bytes of a session's messages, the far end has read the first of them, in
      order, and holds the sets these leave. */
  lemma ChunksGiveMessages(ms: seq<SnsMsg>, priority: byte, chunks: seq<seq<byte>>, bad: Frame -> bool)
    requires AllFit(ms) && Received(chunks) <= Wire(Frames(ms, priority))
    requires forall i | 0 <= i < |ms| :: !bad(ToFrame(ms[i], priority))
    ensures var d := Dispatched(Frames(ms, priority), chunks);
            var read := Messages(ReceiveAll(chunks, bad).out);
            d <= |ms| && read == ms[..d] && Replay(read) == Replay(ms[..d])
  {
    var fs := Frames(ms, priority);
    forall i | 0 <= i < |fs| ensures FrameOk(fs[i]) && !bad(fs[i]) && FromFrame(fs[i]) == Message(ms[i]) {
      FrameBack(ms[i], priority);
    }
    InOrder(fs, chunks, bad);
    var d := Dispatched(fs, chunks);
    MessagesOf(fs[..d], ms[..d]);
  }
}
