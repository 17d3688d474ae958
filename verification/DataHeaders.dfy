/** The header at the start of a peer data stream or datagram. */
module DataHeaders {
  import opened Bytes

  const DATAGRAM: byte := 0
  const EXISTING_STREAM: byte := 1
  const NEW_STREAM: byte := 2

  /** `priority` and `ttl` are on the wire only for a new stream. */
  datatype Header = Header(kind: byte, sns: nat, track: nat, priority: nat, ttl: nat)

  predicate InRange(h: Header) {
    h.sns < 0x1_0000_0000 && h.track < 0x1_0000_0000_0000_0000 && h.priority < 256 && h.ttl < 0x1_0000_0000
  }

  /** The length byte and the bytes it counts. */
  function HeaderLen(kind: byte): byte {
    if kind == DATAGRAM then 14 else if kind == NEW_STREAM then 19 else 2
  }

  function Encode(h: Header): seq<byte> {
    if h.kind == EXISTING_STREAM then []
    else if h.kind == DATAGRAM then [HeaderLen(h.kind), h.kind] + BE(h.sns, 4) + BE(h.track, 8)
    else if h.kind == NEW_STREAM then
      [HeaderLen(h.kind), h.kind] + BE(h.sns, 4) + BE(h.track, 8) + BE(h.priority, 1) + BE(h.ttl, 4)
    else [HeaderLen(h.kind), h.kind]
  }

  /** `Empty` and `TooShort` are the errors the source reports; a span that ends inside a field that
      the type calls for is read past its end there, and is `Overrun` here. */
  datatype Parsed = Empty | TooShort | Overrun | Parsed(len: byte, header: Header)

  /** Fields the type does not carry keep the values of `was`. */
  function Decode(s: seq<byte>, was: Header): Parsed {
    if s == [] then Empty
    else if s[0] > |s| then TooShort
    else if |s| < 2 then Overrun
    else if s[1] == DATAGRAM then
      if |s| < 14 then Overrun
      else Parsed(s[0], Header(s[1], Value(s[2..6]), Value(s[6..14]), was.priority, was.ttl))
    else if s[1] == NEW_STREAM then
      if |s| < 19 then Overrun
      else Parsed(s[0], Header(s[1], Value(s[2..6]), Value(s[6..14]), s[14], Value(s[15..19])))
    else Parsed(s[0], was.(kind := s[1]))
  }

  lemma EncodedFields(h: Header, rest: seq<byte>)
    requires h.kind == NEW_STREAM || h.kind == DATAGRAM
    ensures var s := Encode(h) + rest;
            |s| >= HeaderLen(h.kind) && s[0] == HeaderLen(h.kind) && s[1] == h.kind
            && s[2..6] == BE(h.sns, 4) && s[6..14] == BE(h.track, 8)
            && s[HeaderLen(h.kind)..] == rest
            && (h.kind == NEW_STREAM ==> s[14..15] == BE(h.priority, 1) && s[15..19] == BE(h.ttl, 4))
  {
  }

  /** Reading a written header back gives the header and where the payload starts. */
  lemma DecodeEncode(h: Header, rest: seq<byte>, was: Header)
    requires InRange(h) && h.kind != EXISTING_STREAM
    ensures Decode(Encode(h) + rest, was) ==
            Parsed(HeaderLen(h.kind),
                   if h.kind == NEW_STREAM then h
                   else if h.kind == DATAGRAM then h.(priority := was.priority, ttl := was.ttl)
                   else was.(kind := h.kind))
    ensures (Encode(h) + rest)[HeaderLen(h.kind)..] == rest
  {
    if h.kind == NEW_STREAM || h.kind == DATAGRAM {
      EncodedFields(h, rest);
      Widths();
      RoundTrip(h.sns, 4);
      RoundTrip(h.track, 8);
      if h.kind == NEW_STREAM {
        var s := Encode(h) + rest;
        RoundTrip(h.priority, 1);
        RoundTrip(h.ttl, 4);
        assert s[14..15] == [s[14]];
        assert [s[14]][..0] == [];
        assert Value([s[14]]) == s[14];
      }
    }
  }

  // ---------------------------------------------------------------- rewriting the SNS id in place

  /** A relay's change to the bytes it forwards: bytes 2 to 5 become the egress SNS id, cut to 32 bits. */
  function Rewrite(s: seq<byte>, sns: int): (r: seq<byte>)
    ensures |r| == |s|
  {
    if |s| < 6 then s else s[..2] + BE(sns % 0x1_0000_0000, 4) + s[6..]
  }

  /** The rewritten bytes are exactly those of the same header with the other id. */
  lemma RewriteIsReencode(h: Header, sns: int, rest: seq<byte>)
    requires h.kind == NEW_STREAM || h.kind == DATAGRAM
    ensures Rewrite(Encode(h) + rest, sns) == Encode(h.(sns := sns % 0x1_0000_0000)) + rest
  {
  }

  lemma RewriteTwice(s: seq<byte>, a: int, b: int)
    ensures Rewrite(Rewrite(s, a), b) == Rewrite(s, b)
  {
  }

  lemma RewriteAppend(s: seq<byte>, more: seq<byte>, sns: int)
    requires |s| >= 6
    ensures Rewrite(s + more, sns) == Rewrite(s, sns) + more
  {
  }

  /** Rewriting prefixes: what a relay has forwarded so far stays a prefix as more arrives. */
  lemma RewritePrefix(s: seq<byte>, t: seq<byte>, sns: int)
    requires s <= t && |s| >= 6
    ensures Rewrite(s, sns) <= Rewrite(t, sns)
  {
  }

  // ---------------------------------------------------------------- the header object

  class DataHeader {
    var headerLen: byte
    var kind: byte
    var sns: nat
    var track: nat
    var priority: nat
    var ttl: nat

    constructor ()
      ensures View() == Header(NEW_STREAM, 0, 0, 1, 2000) && headerLen == 0
    {
      headerLen, kind, sns, track, priority, ttl := 0, NEW_STREAM, 0, 0, 1, 2000;
    }

    function View(): Header
      reads this
    {
      Header(kind, sns, track, priority, ttl)
    }

    /** Returns the number of bytes `Serialize` reserves. */
    method SizeBytes() returns (size: nat)
      ensures size == if headerLen != 0 then headerLen else HeaderLen(kind)
    {
      if headerLen != 0 {
        return headerLen;
      }
      size := 2;
      if kind == DATAGRAM {
        size := size + 4 + 8;
      } else if kind == NEW_STREAM {
        size := size + 4 + 8;
        size := size + 1 + 4;
      }
    }

    /** Appends the fields and patches byte 0, for which the bytes reserved must suffice: a header length
        that is set must be no smaller than the header. */
    method Serialize() returns (data: seq<byte>)
      requires kind == EXISTING_STREAM || headerLen == 0 || headerLen >= HeaderLen(kind)
      ensures data == Encode(View())
    {
      data := [];
      if kind == EXISTING_STREAM {
        return;
      }
      data := data + [headerLen];
      var len: byte := 2;
      data := data + [kind];
      if kind == DATAGRAM {
        data := data + BE(sns, 4);
        data := data + BE(track, 8);
        len := len + 4 + 8;
      } else if kind == NEW_STREAM {
        data := data + BE(sns, 4);
        data := data + BE(track, 8);
        data := data + BE(priority, 1);
        data := data + BE(ttl, 4);
        len := len + 4 + 8 + 1 + 4;
      }
      data := data[0 := len];
    }

    /** Reads the fields along a moving cursor; the caller supplies a span the fields fit in. */
    method Deserialize(data: seq<byte>) returns (r: Parsed)
      requires !Decode(data, View()).Overrun?
      modifies this
      ensures r == Decode(data, old(View()))
      ensures r.Parsed? ==> r == Parsed(headerLen, View())
      ensures !r.Parsed? ==> View() == old(View())
      ensures headerLen == if data == [] then old(headerLen) else data[0]
    {
      if data == [] {
        return Empty;
      }
      var it := 0;
      headerLen := data[it];
      if headerLen > |data| {
        return TooShort;
      }
      it := it + 1;
      kind := data[it];
      it := it + 1;
      if kind == DATAGRAM || kind == NEW_STREAM {
        sns := ValueOf(data[it..it + 4], 4);
        assert data[2..6][..4] == data[2..6];
        it := it + 4;
        track := ValueOf(data[it..it + 8], 8);
        assert data[6..14][..8] == data[6..14];
        it := it + 8;
      }
      if kind == NEW_STREAM {
        priority := data[it];
        it := it + 1;
        ttl := ValueOf(data[it..it + 4], 4);
        assert data[15..19][..4] == data[15..19];
        it := it + 4;
      }
      r := Parsed(headerLen, View());
    }
  }
}
