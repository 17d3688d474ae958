/**
 The bodies of the peering control messages. A decoder that the source would let read past the end of
 its bytes gives `Overrun` here.
 */
module Codecs {
  import opened Bytes
  import opened Ordered

  datatype Parse<T> = Parsed(value: T, rest: seq<byte>) | Overrun | Rejected

  /** A number of `w` bytes. */
  function TakeNumber(s: seq<byte>, w: nat): Parse<nat> {
    if |s| < w then Overrun else Parsed(Value(s[..w]), s[w..])
  }

  function TakeBytes(s: seq<byte>, n: nat): Parse<seq<byte>> {
    if |s| < n then Overrun else Parsed(s[..n], s[n..])
  }

  lemma NumberBack(n: nat, w: nat, rest: seq<byte>)
    requires n < Pow256(w)
    ensures TakeNumber(BE(n, w) + rest, w) == Parsed(n, rest)
  {
    RoundTrip(n, w);
    assert (BE(n, w) + rest)[..w] == BE(n, w);
  }

  lemma BytesBack(s: seq<byte>, rest: seq<byte>)
    ensures TakeBytes(s + rest, |s|) == Parsed(s, rest)
  {
  }

  // ---------------------------------------------------------------- announce info

  datatype AnnounceInfo = AnnounceInfo(source: nat, hash: nat, ns: seq<seq<byte>>, name: seq<byte>, flags: byte)

  ghost predicate AnnounceFits(a: AnnounceInfo) {
    && a.source < Pow256(8) && a.hash < Pow256(8) && |a.ns| < 0x100 && |a.name| < 0x1_0000
    && forall i | 0 <= i < |a.ns| :: |a.ns[i]| < 0x1_0000
  }

  function EncodeEntries(ns: seq<seq<byte>>): seq<byte> {
    if ns == [] then [] else BE(|ns[0]|, 2) + ns[0] + EncodeEntries(ns[1..])
  }

  function DecodeEntries(s: seq<byte>, n: nat): Parse<seq<seq<byte>>>
    decreases n
  {
    if n == 0 then Parsed([], s)
    else
      var len := TakeNumber(s, 2);
      if !len.Parsed? then Overrun
      else
        var entry := TakeBytes(len.rest, len.value);
        if !entry.Parsed? then Overrun
        else
          var more := DecodeEntries(entry.rest, n - 1);
          if !more.Parsed? then Overrun else Parsed([entry.value] + more.value, more.rest)
  }

  lemma OneEntryBack(e: seq<byte>, tail: seq<byte>, n: nat)
    requires |e| < 0x1_0000 && n > 0 && DecodeEntries(tail, n - 1).Parsed?
    ensures var more := DecodeEntries(tail, n - 1);
            DecodeEntries(BE(|e|, 2) + (e + tail), n) == Parsed([e] + more.value, more.rest)
  {
    Widths();
    NumberBack(|e|, 2, e + tail);
    BytesBack(e, tail);
  }

  lemma EntriesFront(ns: seq<seq<byte>>, rest: seq<byte>)
    requires ns != []
    ensures EncodeEntries(ns) + rest == BE(|ns[0]|, 2) + (ns[0] + (EncodeEntries(ns[1..]) + rest))
    ensures [ns[0]] + ns[1..] == ns
  {
    Regrouped(BE(|ns[0]|, 2), ns[0], EncodeEntries(ns[1..]), rest);
  }

  lemma Regrouped<T>(a: seq<T>, b: seq<T>, c: seq<T>, d: seq<T>)
    ensures a + b + c + d == a + (b + (c + d))
  {
  }

  lemma {:induction false} EntriesBack(ns: seq<seq<byte>>, rest: seq<byte>)
    requires forall i | 0 <= i < |ns| :: |ns[i]| < 0x1_0000
    ensures DecodeEntries(EncodeEntries(ns) + rest, |ns|) == Parsed(ns, rest)
    decreases |ns|
  {
    if ns == [] {
      assert EncodeEntries(ns) + rest == rest;
    } else {
      var tail := EncodeEntries(ns[1..]) + rest;
      EntriesBack(ns[1..], rest);
      assert DecodeEntries(tail, |ns| - 1) == Parsed(ns[1..], rest);
      OneEntryBack(ns[0], tail, |ns|);
      EntriesFront(ns, rest);
    }
  }

  function TotalLen(ns: seq<seq<byte>>): nat {
    if ns == [] then 0 else |ns[0]| + TotalLen(ns[1..])
  }

  lemma {:induction false} EntriesLen(ns: seq<seq<byte>>)
    ensures |EncodeEntries(ns)| == 2 * |ns| + TotalLen(ns)
    decreases |ns|
  {
    if ns != [] {
      EntriesLen(ns[1..]);
    }
  }

  function EncodeAnnounce(a: AnnounceInfo): seq<byte> {
    BE(a.source, 8) + BE(a.hash, 8) + [|a.ns| % 0x100] + EncodeEntries(a.ns) + BE(|a.name|, 2) + a.name + [a.flags]
  }

  function DecodeNameFlags(s: seq<byte>): Parse<(seq<byte>, byte)> {
    var len := TakeNumber(s, 2);
    if !len.Parsed? then Overrun
    else
      var name := TakeBytes(len.rest, len.value);
      if !name.Parsed? || name.rest == [] then Overrun
      else Parsed((name.value, name.rest[0]), name.rest[1..])
  }

  function DecodeNames(s: seq<byte>): Parse<(seq<seq<byte>>, seq<byte>, byte)> {
    var count := TakeNumber(s, 1);
    if !count.Parsed? then Overrun
    else
      var ns := DecodeEntries(count.rest, count.value);
      if !ns.Parsed? then Overrun
      else
        var last := DecodeNameFlags(ns.rest);
        if !last.Parsed? then Overrun else Parsed((ns.value, last.value.0, last.value.1), last.rest)
  }

  function DecodeAnnounce(s: seq<byte>): Parse<AnnounceInfo> {
    var source := TakeNumber(s, 8);
    if !source.Parsed? then Overrun
    else
      var hash := TakeNumber(source.rest, 8);
      if !hash.Parsed? then Overrun
      else
        var names := DecodeNames(hash.rest);
        if !names.Parsed? then Overrun
        else
          Parsed(AnnounceInfo(source.value, hash.value, names.value.0, names.value.1, names.value.2), names.rest)
  }

  lemma OneByte(b: byte)
    ensures BE(b, 1) == [b]
  {
    assert BE(b / 256, 0) == [];
  }

  lemma NameFlagsBack(name: seq<byte>, flags: byte, rest: seq<byte>)
    requires |name| < 0x1_0000
    ensures DecodeNameFlags(BE(|name|, 2) + (name + ([flags] + rest))) == Parsed((name, flags), rest)
  {
    Widths();
    NumberBack(|name|, 2, name + ([flags] + rest));
    BytesBack(name, [flags] + rest);
  }

  lemma NamesBack(ns: seq<seq<byte>>, name: seq<byte>, flags: byte, rest: seq<byte>)
    requires |ns| < 0x100 && |name| < 0x1_0000 && forall i | 0 <= i < |ns| :: |ns[i]| < 0x1_0000
    ensures DecodeNames([|ns|] + (EncodeEntries(ns) + (BE(|name|, 2) + (name + ([flags] + rest))))) ==
            Parsed((ns, name, flags), rest)
  {
    Widths();
    var last := BE(|name|, 2) + (name + ([flags] + rest));
    OneByte(|ns|);
    NumberBack(|ns|, 1, EncodeEntries(ns) + last);
    EntriesBack(ns, last);
    NameFlagsBack(name, flags, rest);
  }

  lemma AnnounceParts(a: AnnounceInfo, rest: seq<byte>)
    requires |a.ns| < 0x100
    ensures EncodeAnnounce(a) + rest ==
            BE(a.source, 8) + (BE(a.hash, 8) + ([|a.ns|] + (EncodeEntries(a.ns)
              + (BE(|a.name|, 2) + (a.name + ([a.flags] + rest))))))
  {
  }

  /** Decoding an announce gives it back, and leaves what follows it. */
  lemma AnnounceBack(a: AnnounceInfo, rest: seq<byte>)
    requires AnnounceFits(a)
    ensures DecodeAnnounce(EncodeAnnounce(a) + rest) == Parsed(a, rest)
  {
    var names := [|a.ns|] + (EncodeEntries(a.ns) + (BE(|a.name|, 2) + (a.name + ([a.flags] + rest))));
    AnnounceParts(a, rest);
    NumberBack(a.source, 8, BE(a.hash, 8) + names);
    NumberBack(a.hash, 8, names);
    NamesBack(a.ns, a.name, a.flags, rest);
  }

  function AnnounceSize(a: AnnounceInfo): nat {
    8 + 8 + 1 + (2 * |a.ns| + TotalLen(a.ns)) + (2 + |a.name|) + 1
  }

  lemma AnnounceSizeExact(a: AnnounceInfo)
    ensures |EncodeAnnounce(a)| == AnnounceSize(a)
  {
    EntriesLen(a.ns);
  }

  /** The encoder, entry by entry. */
  method SerializeAnnounce(a: AnnounceInfo) returns (data: seq<byte>)
    ensures data == EncodeAnnounce(a)
  {
    data := BE(a.source, 8);
    data := data + BE(a.hash, 8);
    data := data + [|a.ns| % 0x100];
    ghost var head := data;
    for i := 0 to |a.ns|
      invariant data + EncodeEntries(a.ns[i..]) == head + EncodeEntries(a.ns)
    {
      assert a.ns[i..][1..] == a.ns[i + 1..];
      assert data + (BE(|a.ns[i]|, 2) + a.ns[i] + EncodeEntries(a.ns[i + 1..])) ==
             data + BE(|a.ns[i]|, 2) + a.ns[i] + EncodeEntries(a.ns[i + 1..]);
      data := data + BE(|a.ns[i]|, 2);
      data := data + a.ns[i];
    }
    assert a.ns[|a.ns|..] == [] && data + [] == data;
    data := data + BE(|a.name|, 2);
    if |a.name| != 0 {
      data := data + a.name;
    }
    data := data + [a.flags];
  }

  // ---------------------------------------------------------------- subscribe node set

  datatype SnsBody = SnsBody(id: nat, priority: byte, nodes: set<int>)

  ghost predicate SnsFits(b: SnsBody) {
    b.id < Pow256(4) && forall n | n in b.nodes :: 0 <= n < Pow256(8)
  }

  function EncodeNodes(ns: seq<int>): seq<byte> {
    if ns == [] then [] else BE(if ns[0] >= 0 then ns[0] else 0, 8) + EncodeNodes(ns[1..])
  }

  function DecodeNodes(s: seq<byte>, n: nat): Parse<set<int>>
    decreases n
  {
    if n == 0 then Parsed({}, s)
    else
      var node := TakeNumber(s, 8);
      if !node.Parsed? then Overrun
      else
        var more := DecodeNodes(node.rest, n - 1);
        if !more.Parsed? then Overrun else Parsed({node.value} + more.value, more.rest)
  }

  /** The nodes in increasing order, their number cut to 16 bits. */
  function EncodeSns(b: SnsBody): seq<byte> {
    BE(b.id, 4) + [b.priority] + BE(|b.nodes|, 2) + EncodeNodes(Sorted(b.nodes))
  }

  function DecodeSns(s: seq<byte>): Parse<SnsBody> {
    var id := TakeNumber(s, 4);
    if !id.Parsed? then Overrun
    else if id.rest == [] then Overrun
    else
      var count := TakeNumber(id.rest[1..], 2);
      if !count.Parsed? then Overrun
      else
        var nodes := DecodeNodes(count.rest, count.value);
        if !nodes.Parsed? then Overrun else Parsed(SnsBody(id.value, id.rest[0], nodes.value), nodes.rest)
  }

  lemma OneNodeBack(x: nat, tail: seq<byte>, n: nat)
    requires x < Pow256(8) && n > 0 && DecodeNodes(tail, n - 1).Parsed?
    ensures var more := DecodeNodes(tail, n - 1);
            DecodeNodes(BE(x, 8) + tail, n) == Parsed({x} + more.value, more.rest)
  {
    NumberBack(x, 8, tail);
  }

  lemma ElementsFront(ns: seq<int>, n: nat)
    requires 0 < n <= |ns|
    ensures Elements(ns[..n]) == {ns[0]} + Elements(ns[1..][..n - 1]) && ns[1..][n - 1..] == ns[n..]
  {
    assert ns[..n] == [ns[0]] + ns[1..][..n - 1];
  }

  lemma {:induction false} NodesBack(ns: seq<int>, n: nat, rest: seq<byte>)
    requires n <= |ns| && forall i | 0 <= i < |ns| :: 0 <= ns[i] < Pow256(8)
    ensures DecodeNodes(EncodeNodes(ns) + rest, n) == Parsed(Elements(ns[..n]), EncodeNodes(ns[n..]) + rest)
    decreases n
  {
    if n == 0 {
      assert ns[0..] == ns && Elements(ns[..0]) == {};
    } else {
      var tail := EncodeNodes(ns[1..]) + rest;
      NodesBack(ns[1..], n - 1, rest);
      OneNodeBack(ns[0], tail, n);
      ElementsFront(ns, n);
      assert EncodeNodes(ns) + rest == BE(ns[0], 8) + tail;
    }
  }

  lemma {:induction false} FewElements(ns: seq<int>)
    ensures |Elements(ns)| <= |ns|
    decreases |ns|
  {
    if ns != [] {
      FewElements(ns[1..]);
      assert ns == [ns[0]] + ns[1..];
      assert Elements(ns) == {ns[0]} + Elements(ns[1..]);
    }
  }

  lemma SortedFits(b: SnsBody)
    requires SnsFits(b)
    ensures forall i | 0 <= i < |b.nodes| :: 0 <= Sorted(b.nodes)[i] < Pow256(8)
  {
    var ns := Sorted(b.nodes);
    forall i | 0 <= i < |ns| ensures 0 <= ns[i] < Pow256(8) {
      assert ns[i] in ns;
      SortedMembers(b.nodes, ns[i]);
    }
  }

  /** What comes back of a set: its first nodes, as many as the 16-bit count says. */
  lemma SnsBackSome(b: SnsBody, rest: seq<byte>)
    requires SnsFits(b)
    ensures var n := |b.nodes| % 0x1_0000;
            n <= |b.nodes| && DecodeSns(EncodeSns(b) + rest) ==
            Parsed(b.(nodes := Elements(Sorted(b.nodes)[..n])), EncodeNodes(Sorted(b.nodes)[n..]) + rest)
  {
    Widths();
    var ns := Sorted(b.nodes);
    var n := |b.nodes| % 0x1_0000;
    var s3 := EncodeNodes(ns) + rest;
    var s2 := BE(|b.nodes|, 2) + s3;
    var s1 := [b.priority] + s2;
    assert EncodeSns(b) + rest == BE(b.id, 4) + s1;
    NumberBack(b.id, 4, s1);
    assert s1[1..] == s2;
    ValueOfBE(|b.nodes|, 2);
    assert s2[..2] == BE(|b.nodes|, 2) && s2[2..] == s3;
    SortedFits(b);
    NodesBack(ns, n, rest);
  }

  /** A set survives encoding and decoding exactly when it has fewer than 65536 nodes. */
  lemma SnsBackIff(b: SnsBody, rest: seq<byte>)
    requires SnsFits(b)
    ensures DecodeSns(EncodeSns(b) + rest) == Parsed(b, rest) <==> |b.nodes| < 0x1_0000
  {
    var ns := Sorted(b.nodes);
    var n := |b.nodes| % 0x1_0000;
    SnsBackSome(b, rest);
    if |b.nodes| < 0x1_0000 {
      assert ns[..n] == ns && ns[n..] == [];
      forall x ensures x in Elements(ns) <==> x in b.nodes {
        SortedMembers(b.nodes, x);
      }
      assert Elements(ns[..n]) == b.nodes;
      assert EncodeNodes(ns[n..]) + rest == rest;
    } else {
      FewElements(ns[..n]);
      assert |Elements(ns[..n])| < |b.nodes|;
    }
  }

  lemma {:induction false} NodesLen(ns: seq<int>)
    ensures |EncodeNodes(ns)| == 8 * |ns|
    decreases |ns|
  {
    if ns != [] {
      NodesLen(ns[1..]);
    }
  }

  function SnsSize(b: SnsBody, withdraw: bool): nat {
    if withdraw then 4 else 4 + 1 + 2 + 8 * |b.nodes|
  }

  /** The body of a message: a withdrawal carries only the id. */
  function SnsMessage(b: SnsBody, withdraw: bool): seq<byte> {
    if withdraw then BE(b.id, 4) else EncodeSns(b)
  }

  lemma SnsSizeExact(b: SnsBody, withdraw: bool)
    ensures |SnsMessage(b, withdraw)| == SnsSize(b, withdraw)
  {
    NodesLen(Sorted(b.nodes));
  }

  lemma WithdrawalBack(b: SnsBody, rest: seq<byte>)
    requires b.id < Pow256(4)
    ensures TakeNumber(SnsMessage(b, true) + rest, 4) == Parsed(b.id, rest)
  {
    NumberBack(b.id, 4, rest);
  }

  /** The encoder walks the set in increasing order. */
  method SerializeSns(b: SnsBody, withdraw: bool) returns (data: seq<byte>)
    requires SnsFits(b)
    ensures data == SnsMessage(b, withdraw)
  {
    data := BE(b.id, 4);
    if withdraw {
      return;
    }
    data := data + [b.priority];
    data := data + BE(|b.nodes|, 2);
    var order := Sorted(b.nodes);
    ghost var head := data;
    assert order[0..] == order;
    for i := 0 to |order|
      invariant data + EncodeNodes(order[i..]) == head + EncodeNodes(order)
    {
      SortedMembers(b.nodes, order[i]);
      assert order[i..][1..] == order[i + 1..];
      assert data + (BE(order[i], 8) + EncodeNodes(order[i + 1..])) == data + BE(order[i], 8) + EncodeNodes(order[i + 1..]);
      data := data + BE(order[i], 8);
    }
    assert order[|order|..] == [] && data + [] == data;
  }

  /** The decoder fills the set node by node; the bytes must hold all of them. */
  method ParseNodes(s: seq<byte>, n: nat) returns (nodes: set<int>)
    requires DecodeNodes(s, n).Parsed?
    ensures nodes == DecodeNodes(s, n).value
  {
    nodes := {};
    var it := s;
    for i := 0 to n
      invariant DecodeNodes(it, n - i).Parsed?
      invariant nodes + DecodeNodes(it, n - i).value == DecodeNodes(s, n).value
    {
      var node := ValueOf(it, 8);
      nodes := nodes + {node};
      it := it[8..];
    }
  }

  // ---------------------------------------------------------------- subscribe info

  datatype SubscribeInfo = SubscribeInfo(seqNo: nat, source: nat, nsHash: nat, nameHash: nat, fullHash: nat, data: seq<byte>)

  ghost predicate SubscribeFits(s: SubscribeInfo) {
    && s.seqNo < 0x1_0000 && s.source < Pow256(8) && s.nsHash < Pow256(8) && s.nameHash < Pow256(8)
    && s.fullHash < Pow256(8) && |s.data| < 0x1_0000_0000
  }

  /** The origin's sequence number goes up with each message and wraps to zero. */
  function Bumped(s: SubscribeInfo): SubscribeInfo {
    s.(seqNo := if s.seqNo < 0xFFFF then s.seqNo + 1 else 0)
  }

  function EncodeSubscribe(s: SubscribeInfo): seq<byte> {
    BE(s.seqNo, 2) + BE(s.source, 8) + BE(s.nsHash, 8) + BE(s.nameHash, 8) + BE(s.fullHash, 8) + BE(|s.data|, 4) + s.data
  }

  /** Only the payload's length is checked against the bytes at hand. */
  function DecodeSubscribe(s: seq<byte>): Parse<SubscribeInfo> {
    if |s| < 38 then Overrun
    else
      var size := Value(s[34..38]);
      if size > |s| - 38 then Rejected
      else
        Parsed(SubscribeInfo(Value(s[0..2]), Value(s[2..10]), Value(s[10..18]), Value(s[18..26]), Value(s[26..34]),
                             s[38..38 + size]), s[38 + size..])
  }

  lemma SubscribeFields(s: SubscribeInfo, rest: seq<byte>)
    ensures var e := EncodeSubscribe(s) + rest;
            && |EncodeSubscribe(s)| == 38 + |s.data|
            && e[0..2] == BE(s.seqNo, 2) && e[2..10] == BE(s.source, 8) && e[10..18] == BE(s.nsHash, 8)
            && e[18..26] == BE(s.nameHash, 8) && e[26..34] == BE(s.fullHash, 8) && e[34..38] == BE(|s.data|, 4)
            && e[38..38 + |s.data|] == s.data && e[38 + |s.data|..] == rest
  {
  }

  lemma SubscribeBack(s: SubscribeInfo, rest: seq<byte>)
    requires SubscribeFits(s)
    ensures DecodeSubscribe(EncodeSubscribe(s) + rest) == Parsed(s, rest)
  {
    Widths();
    SubscribeFields(s, rest);
    RoundTrip(s.seqNo, 2);
    RoundTrip(s.source, 8);
    RoundTrip(s.nsHash, 8);
    RoundTrip(s.nameHash, 8);
    RoundTrip(s.fullHash, 8);
    RoundTrip(|s.data|, 4);
  }

  /** A payload cut short is refused. */
  lemma ShortSubscribeRejected(s: SubscribeInfo, n: nat)
    requires SubscribeFits(s) && 38 <= n < |EncodeSubscribe(s)|
    ensures DecodeSubscribe(EncodeSubscribe(s)[..n]) == Rejected
  {
    Widths();
    SubscribeFields(s, []);
    assert EncodeSubscribe(s) + [] == EncodeSubscribe(s);
    assert EncodeSubscribe(s)[..n][34..38] == EncodeSubscribe(s)[34..38];
    RoundTrip(|s.data|, 4);
  }

  function SubscribeSize(s: SubscribeInfo): nat {
    2 + 8 + 8 + 8 + 8 + 4 + |s.data|
  }

  lemma SubscribeSizeExact(s: SubscribeInfo)
    ensures |EncodeSubscribe(s)| == SubscribeSize(s)
  {
  }

  class SubscribeSender {
    var info: SubscribeInfo

    constructor (info: SubscribeInfo)
      ensures this.info == info
    {
      this.info := info;
    }

    /** Serializing at the origin changes the record itself. */
    method Serialize(isOrigin: bool) returns (data: seq<byte>)
      modifies this
      ensures info == if isOrigin then Bumped(old(info)) else old(info)
      ensures data == EncodeSubscribe(info)
    {
      if isOrigin {
        if info.seqNo < 0xFFFF {
          info := info.(seqNo := info.seqNo + 1);
        } else {
          info := info.(seqNo := 0);
        }
      }
      data := BE(info.seqNo, 2);
      data := data + BE(info.source, 8);
      data := data + BE(info.nsHash, 8);
      data := data + BE(info.nameHash, 8);
      data := data + BE(info.fullHash, 8);
      data := data + BE(|info.data|, 4);
      data := data + info.data;
    }
  }

  lemma BumpedFits(s: SubscribeInfo)
    requires SubscribeFits(s)
    ensures SubscribeFits(Bumped(s)) && Bumped(s).seqNo != s.seqNo
    ensures DecodeSubscribe(EncodeSubscribe(Bumped(s))) == Parsed(Bumped(s), [])
  {
    SubscribeBack(Bumped(s), []);
    assert EncodeSubscribe(Bumped(s)) + [] == EncodeSubscribe(Bumped(s));
  }
}
