/**
 The messages that relays send: a common header with the type and the size of the body, then the body.
 Each is one frame of the control stream.
 */
module WireMessages {
  import opened Bytes
  import opened Codecs
  import opened Framing
  import opened NodeCodec

  const PROTOCOL_VERSION: byte := 1
  const NODE_ADVERTISED := 4
  const NODE_WITHDRAWN := 5
  const SUBSCRIBE_ADVERTISED := 6
  const SUBSCRIBE_WITHDRAWN := 7
  const ANNOUNCE_ADVERTISED := 8
  const ANNOUNCE_WITHDRAWN := 9
  const SNS_ADVERTISED := 10
  const SNS_WITHDRAWN := 11

  /** A message with a common header or, on request, its body alone. */
  function Written(common: bool, kind: nat, body: seq<byte>): seq<byte> {
    if common then FrameBytes(Frame(PROTOCOL_VERSION, kind, body)) else body
  }

  method WriteCommonHeader(common: bool, kind: nat, size: nat) returns (data: seq<byte>)
    ensures data == if common then [PROTOCOL_VERSION] + BE(kind, 2) + BE(size, 4) else []
  {
    data := [];
    if common {
      data := data + [PROTOCOL_VERSION];
      data := data + BE(kind, 2);
      data := data + BE(size, 4);
    }
  }

  /** A header that announces the size of the body that follows it makes one frame. */
  lemma HeaderAndBody(common: bool, kind: nat, head: seq<byte>, size: nat, body: seq<byte>)
    requires head == if common then [PROTOCOL_VERSION] + BE(kind, 2) + BE(size, 4) else []
    requires size == |body|
    ensures head + body == Written(common, kind, body)
  {
    if !common {
      assert [] + body == body;
    }
  }

  method WriteNode(n: NodeInfo, common: bool, withdraw: bool) returns (data: seq<byte>)
    requires NodeFits(n)
    ensures data == Written(common, if withdraw then NODE_WITHDRAWN else NODE_ADVERTISED, EncodeNode(n))
  {
    var kind := if withdraw then NODE_WITHDRAWN else NODE_ADVERTISED;
    var head := WriteCommonHeader(common, kind, NodeSize(n));
    var body := SerializeNode(n);
    NodeSizeExact(n);
    HeaderAndBody(common, kind, head, NodeSize(n), body);
    data := head + body;
  }

  method WriteAnnounce(a: AnnounceInfo, common: bool, withdraw: bool) returns (data: seq<byte>)
    ensures data == Written(common, if withdraw then ANNOUNCE_WITHDRAWN else ANNOUNCE_ADVERTISED, EncodeAnnounce(a))
  {
    var kind := if withdraw then ANNOUNCE_WITHDRAWN else ANNOUNCE_ADVERTISED;
    var head := WriteCommonHeader(common, kind, AnnounceSize(a));
    var body := SerializeAnnounce(a);
    AnnounceSizeExact(a);
    HeaderAndBody(common, kind, head, AnnounceSize(a), body);
    data := head + body;
  }

  method WriteSns(b: SnsBody, common: bool, withdraw: bool) returns (data: seq<byte>)
    requires SnsFits(b)
    ensures data == Written(common, if withdraw then SNS_WITHDRAWN else SNS_ADVERTISED, SnsMessage(b, withdraw))
  {
    var kind := if withdraw then SNS_WITHDRAWN else SNS_ADVERTISED;
    var head := WriteCommonHeader(common, kind, SnsSize(b, withdraw));
    var body := SerializeSns(b, withdraw);
    SnsSizeExact(b, withdraw);
    HeaderAndBody(common, kind, head, SnsSize(b, withdraw), body);
    data := head + body;
  }

  /** At the origin the record's sequence number is bumped first. */
  method WriteSubscribe(s: SubscribeSender, common: bool, withdraw: bool, isOrigin: bool) returns (data: seq<byte>)
    modifies s
    ensures s.info == if isOrigin then Bumped(old(s.info)) else old(s.info)
    ensures data == Written(common, if withdraw then SUBSCRIBE_WITHDRAWN else SUBSCRIBE_ADVERTISED, EncodeSubscribe(s.info))
  {
    var kind := if withdraw then SUBSCRIBE_WITHDRAWN else SUBSCRIBE_ADVERTISED;
    var body := s.Serialize(isOrigin);
    var head := WriteCommonHeader(common, kind, SubscribeSize(s.info));
    SubscribeSizeExact(s.info);
    HeaderAndBody(common, kind, head, SubscribeSize(s.info), body);
    data := head + body;
  }
}
