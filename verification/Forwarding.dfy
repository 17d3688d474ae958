/**
 The data plane of a relay: bytes of an ingress stream or datagram go to every egress of the
 ingress row as they arrive, with only the SNS id rewritten.
 */
module Forwarding {
  import opened Ordered
  import opened Sessions
  import opened SnsRouting
  import opened Bytes
  import opened DataHeaders

  /** An ingress stream: the session it arrives on and its transport stream id. */
  type StreamKey = (SessionId, int)

  /** One piece of peer data as `ForwardPeerData` is given it. `isNew` marks bytes that begin with a
      header; `offset` is where the payload begins. Datagrams are not `reliable`. */
  datatype Chunk = Chunk(isNew: bool, stream: int, reliable: bool, header: Header, data: seq<byte>, offset: nat)

  /** An egress stream, with the ingress stream it was created for. */
  datatype Egress = Egress(origin: StreamKey, sns: SnsId, data: seq<byte>, open: bool)

  /** The sending side of a peer session: nothing is enqueued unless it is connected. */
  datatype Channel = Channel(up: bool, next: int, streams: map<int, Egress>, grams: seq<seq<byte>>)

  const NEW_CHANNEL := Channel(true, 1, map[], [])

  /** Where a relay's data goes: its sessions, and its client manager stream by stream. */
  datatype Io = Io(channels: map<SessionId, Channel>, client: map<StreamKey, seq<byte>>, clientGrams: seq<seq<byte>>)

  type Fib = map<Ingress, FibRow>

  const DEFAULT_HEADER := Header(NEW_STREAM, 0, 0, 1, 2000)

  function HeadOf(data: seq<byte>): Header {
    var d := Decode(data, DEFAULT_HEADER);
    if d.Parsed? then d.header else DEFAULT_HEADER
  }

  /** The first bytes of a stream or a datagram hold a header of the given kind, in full. */
  predicate FullHeader(data: seq<byte>, kind: byte) {
    (kind == NEW_STREAM || kind == DATAGRAM)
    && |data| >= HeaderLen(kind) && data[0] == HeaderLen(kind) && data[1] == kind
  }

  /** The part of a stream after its header. */
  function Payload(data: seq<byte>): seq<byte> {
    if |data| < HeaderLen(NEW_STREAM) then [] else data[HeaderLen(NEW_STREAM)..]
  }

  lemma FullHeaderDecodes(data: seq<byte>, kind: byte)
    requires FullHeader(data, kind)
    ensures Decode(data, DEFAULT_HEADER).Parsed? && Decode(data, DEFAULT_HEADER).len == HeaderLen(kind)
    ensures HeadOf(data).kind == kind
  {
  }

  /** Rewriting the SNS id changes nothing else that a receiver reads. */
  lemma RewriteKeepsHeader(s: seq<byte>, sns: SnsId)
    requires FullHeader(s, NEW_STREAM)
    ensures FullHeader(Rewrite(s, sns), NEW_STREAM)
    ensures HeadOf(Rewrite(s, sns)) == HeadOf(s).(sns := sns % 0x1_0000_0000)
    ensures Rewrite(s, sns)[HeaderLen(NEW_STREAM)..] == s[HeaderLen(NEW_STREAM)..]
  {
    var t := Rewrite(s, sns);
    assert t[2..6] == BE(sns % 0x1_0000_0000, 4);
    Widths();
    RoundTrip(sns % 0x1_0000_0000, 4);
    assert t[6..14] == s[6..14] && t[15..19] == s[15..19];
  }

  // ---------------------------------------------------------------- one egress

  /** The SNS id is rewritten where the bytes carry one. */
  function OutData(entry: FibEntry, c: Chunk): seq<byte> {
    if c.isNew || !c.reliable then Rewrite(c.data, entry.outSns) else c.data
  }

  function Enqueue(ch: Channel, out: int, data: seq<byte>): Channel {
    if ch.up && out in ch.streams then
      ch.(streams := ch.streams[out := ch.streams[out].(data := ch.streams[out].data + data)])
    else ch
  }

  function EnqueueGram(ch: Channel, data: seq<byte>): Channel {
    if ch.up then ch.(grams := ch.grams + [data]) else ch
  }

  function Create(ch: Channel, origin: StreamKey, sns: SnsId): Channel {
    ch.(next := ch.next + 1, streams := ch.streams[ch.next := Egress(origin, sns, [], true)])
  }

  /** The egress session after the chunk. Bytes of a stream not begun here are left out. */
  function ChannelAfter(ch: Channel, entry: FibEntry, j: SessionId, c: Chunk): Channel {
    if !c.reliable then EnqueueGram(ch, OutData(entry, c))
    else if c.stream in entry.streams then Enqueue(ch, entry.streams[c.stream], OutData(entry, c))
    else if c.isNew then Enqueue(Create(ch, (j, c.stream), entry.outSns), ch.next, OutData(entry, c))
    else ch
  }

  function EntryAfter(ch: Channel, entry: FibEntry, c: Chunk): FibEntry {
    if c.reliable && c.stream !in entry.streams && c.isNew then
      entry.(streams := entry.streams[c.stream := ch.next])
    else entry
  }

  // ---------------------------------------------------------------- the whole row

  function Log<K>(m: map<K, seq<byte>>, k: K): seq<byte> {
    if k in m then m[k] else []
  }

  function ToClient(io: Io, j: SessionId, c: Chunk): Io {
    if c.offset > |c.data| then io
    else if c.reliable then
      io.(client := io.client[(j, c.stream) := Log(io.client, (j, c.stream)) + c.data[c.offset..]])
    else io.(clientGrams := io.clientGrams + [c.data[c.offset..]])
  }

  /** The egresses served: not the session the data came from, and only sessions that exist. */
  predicate Serves(io: Io, row: FibRow, j: SessionId, e: SessionId) {
    e in row && e != j && e != SELF && e in io.channels
  }

  /** The client manager hears of the data: it is an egress and a local subscribe names the track. */
  predicate Hears(row: FibRow, subs: set<nat>, c: Chunk) {
    SELF in row && c.header.track in subs
  }

  function ChannelsAfter(io: Io, row: FibRow, j: SessionId, c: Chunk, es: set<SessionId>): map<SessionId, Channel> {
    map e | e in io.channels ::
      if e in es && Serves(io, row, j, e) then ChannelAfter(io.channels[e], row[e], j, c) else io.channels[e]
  }

  function RowAfter(io: Io, row: FibRow, j: SessionId, c: Chunk, es: set<SessionId>): FibRow {
    map e | e in row :: if e in es && Serves(io, row, j, e) then EntryAfter(io.channels[e], row[e], c) else row[e]
  }

  /** After the egresses `es` have been served. */
  function IoAfter(io: Io, row: FibRow, subs: set<nat>, j: SessionId, c: Chunk, es: set<SessionId>): Io {
    var io1 := io.(channels := ChannelsAfter(io, row, j, c, es));
    if SELF in es && Hears(row, subs, c) then ToClient(io1, j, c) else io1
  }

  /** The table after a chunk from session `j`. */
  function FibAfter(fib: Fib, io: Io, j: SessionId, c: Chunk): Fib {
    var key := (j, c.header.sns);
    if key in fib then fib[key := RowAfter(io, fib[key], j, c, fib[key].Keys)] else fib
  }

  /** Everything a chunk from session `j` makes the relay send. */
  function Sent(fib: Fib, io: Io, subs: set<nat>, j: SessionId, c: Chunk): Io {
    var key := (j, c.header.sns);
    if key in fib then IoAfter(io, fib[key], subs, j, c, fib[key].Keys) else io
  }

  /** The first bytes of a stream carry its header, which is kept; later bytes carry none. */
  function StreamChunk(ctx: map<StreamKey, Header>, j: SessionId, stream: int, data: seq<byte>): Chunk {
    if (j, stream) in ctx then Chunk(false, stream, true, ctx[(j, stream)], data, 0)
    else Chunk(true, stream, true, HeadOf(data), data, HeaderLen(NEW_STREAM))
  }

  function DatagramChunk(data: seq<byte>): Chunk {
    Chunk(true, 0, false, HeadOf(data), data, HeaderLen(DATAGRAM))
  }

  lemma ServeOne(io: Io, row: FibRow, j: SessionId, c: Chunk, seen: set<SessionId>, e: SessionId)
    requires e in row && e !in seen && Serves(io, row, j, e)
    ensures ChannelsAfter(io, row, j, c, seen)[e] == io.channels[e]
    ensures RowAfter(io, row, j, c, seen)[e] == row[e]
    ensures ChannelsAfter(io, row, j, c, seen + {e}) ==
            ChannelsAfter(io, row, j, c, seen)[e := ChannelAfter(io.channels[e], row[e], j, c)]
    ensures RowAfter(io, row, j, c, seen + {e}) ==
            RowAfter(io, row, j, c, seen)[e := EntryAfter(io.channels[e], row[e], c)]
  {
  }

  lemma SkipOne(io: Io, row: FibRow, j: SessionId, c: Chunk, seen: set<SessionId>, e: SessionId)
    requires !Serves(io, row, j, e)
    ensures ChannelsAfter(io, row, j, c, seen + {e}) == ChannelsAfter(io, row, j, c, seen)
    ensures RowAfter(io, row, j, c, seen + {e}) == RowAfter(io, row, j, c, seen)
  {
  }

  lemma ServeNone(io: Io, row: FibRow, j: SessionId, c: Chunk)
    ensures ChannelsAfter(io, row, j, c, {}) == io.channels && RowAfter(io, row, j, c, {}) == row
  {
  }

  // ---------------------------------------------------------------- closing

  function CloseOne(ch: Channel, entry: FibEntry, stream: int): Channel {
    if stream in entry.streams && entry.streams[stream] in ch.streams then
      ch.(streams := ch.streams[entry.streams[stream] := ch.streams[entry.streams[stream]].(open := false)])
    else ch
  }

  function ChannelsClosed(io: Io, row: FibRow, stream: int, es: set<SessionId>): map<SessionId, Channel> {
    map e | e in io.channels ::
      if e in es && e in row && e != SELF then CloseOne(io.channels[e], row[e], stream) else io.channels[e]
  }

  function RowClosed(row: FibRow, stream: int, es: set<SessionId>): FibRow {
    map e | e in row ::
      if e in es && e != SELF then row[e].(streams := row[e].streams - {stream}) else row[e]
  }

  lemma CloseOneMore(io: Io, row: FibRow, stream: int, seen: set<SessionId>, e: SessionId)
    requires e in row && e !in seen && (e != SELF ==> e in io.channels)
    ensures RowClosed(row, stream, seen)[e] == row[e]
    ensures e == SELF ==> ChannelsClosed(io, row, stream, seen + {e}) == ChannelsClosed(io, row, stream, seen)
                          && RowClosed(row, stream, seen + {e}) == RowClosed(row, stream, seen)
    ensures e != SELF ==> ChannelsClosed(io, row, stream, seen)[e] == io.channels[e]
                          && ChannelsClosed(io, row, stream, seen + {e}) ==
                             ChannelsClosed(io, row, stream, seen)[e := CloseOne(io.channels[e], row[e], stream)]
                          && RowClosed(row, stream, seen + {e}) ==
                             RowClosed(row, stream, seen)[e := row[e].(streams := row[e].streams - {stream})]
  {
  }

  lemma CloseNone(io: Io, row: FibRow, stream: int)
    ensures ChannelsClosed(io, row, stream, {}) == io.channels && RowClosed(row, stream, {}) == row
  {
  }

  /** What the client manager was told before, and of the close when it is among the egresses visited. */
  function ToldOfClose(told: seq<(nat, int, bool)>, es: set<SessionId>, close: (nat, int, bool)): seq<(nat, int, bool)> {
    if SELF in es then told + [close] else told
  }

  // ---------------------------------------------------------------- the forwarding object

  class Forwarder {
    const subs: set<nat>
    var fib: Fib
    var channels: map<SessionId, Channel>
    var client: map<StreamKey, seq<byte>>
    var clientGrams: seq<seq<byte>>
    var ctx: map<StreamKey, Header>
    var clientClosed: seq<(nat, int, bool)>

    function View(): Io
      reads this
    {
      Io(channels, client, clientGrams)
    }

    method CreateStream(e: SessionId, origin: StreamKey, sns: SnsId) returns (out: int)
      requires e in channels
      modifies this`channels
      ensures out == old(channels)[e].next
      ensures channels == old(channels)[e := Create(old(channels)[e], origin, sns)]
    {
      out := channels[e].next;
      channels := channels[e := Create(channels[e], origin, sns)];
    }

    method SendData(e: SessionId, out: int, reliable: bool, data: seq<byte>)
      requires e in channels
      modifies this`channels
      ensures channels == old(channels)[e := if reliable then Enqueue(old(channels)[e], out, data)
                                                else EnqueueGram(old(channels)[e], data)]
    {
      if !channels[e].up {
        assert channels[e := channels[e]] == channels;
        return;
      }
      if reliable {
        channels := channels[e := Enqueue(channels[e], out, data)];
      } else {
        channels := channels[e := EnqueueGram(channels[e], data)];
      }
    }

    method PeerDataReceived(j: SessionId, c: Chunk)
      requires c.offset <= |c.data|
      modifies this`client, this`clientGrams
      ensures View() == ToClient(old(View()), j, c)
    {
      if c.reliable {
        client := client[(j, c.stream) := Log(client, (j, c.stream)) + c.data[c.offset..]];
      } else {
        clientGrams := clientGrams + [c.data[c.offset..]];
      }
    }

    /** One pass of the forwarding loop for a peer egress. `buffer` is shared by all passes. */
    method ForwardTo(j: SessionId, c: Chunk, e: SessionId, entry: FibEntry, buffer: seq<byte>)
      returns (entry': FibEntry, buffer': seq<byte>)
      requires e in channels
      requires Rewrite(buffer, 0) == Rewrite(c.data, 0)
      requires c.reliable && !c.isNew ==> buffer == c.data
      modifies this`channels
      ensures channels == old(channels)[e := ChannelAfter(old(channels)[e], entry, j, c)]
      ensures entry' == EntryAfter(old(channels)[e], entry, c)
      ensures Rewrite(buffer', 0) == Rewrite(c.data, 0)
      ensures c.reliable && !c.isNew ==> buffer' == c.data
    {
      entry', buffer' := entry, buffer;
      if c.isNew || !c.reliable {
        RewriteTwice(buffer, 0, entry.outSns);
        RewriteTwice(c.data, 0, entry.outSns);
        RewriteTwice(c.data, entry.outSns, 0);
        buffer' := Rewrite(buffer, entry.outSns);
      }
      var out := 0;
      if c.reliable {
        if c.stream !in entry.streams {
          if !c.isNew {
            assert channels[e := channels[e]] == channels;
            return;
          }
          out := CreateStream(e, (j, c.stream), entry.outSns);
          entry' := entry.(streams := entry.streams[c.stream := out]);
        } else {
          out := entry.streams[c.stream];
        }
      }
      SendData(e, out, c.reliable, buffer');
    }

    /** One pass of the forwarding loop. */
    method ForwardEntry(j: SessionId, c: Chunk, e: SessionId, row: FibRow, buffer: seq<byte>,
                        ghost io0: Io, ghost row0: FibRow, ghost seen: set<SessionId>)
      returns (row': FibRow, buffer': seq<byte>)
      requires j != SELF && c.offset <= |c.data|
      requires e in row0 && e !in seen && row0.Keys - {SELF} <= io0.channels.Keys
      requires Rewrite(buffer, 0) == Rewrite(c.data, 0) && (c.reliable && !c.isNew ==> buffer == c.data)
      requires View() == IoAfter(io0, row0, subs, j, c, seen) && row == RowAfter(io0, row0, j, c, seen)
      modifies this`channels, this`client, this`clientGrams
      ensures Rewrite(buffer', 0) == Rewrite(c.data, 0) && (c.reliable && !c.isNew ==> buffer' == c.data)
      ensures View() == IoAfter(io0, row0, subs, j, c, seen + {e})
      ensures row' == RowAfter(io0, row0, j, c, seen + {e})
    {
      row', buffer' := row, buffer;
      if e == j {
        SkipOne(io0, row0, j, c, seen, e);
        return;
      }
      if e == SELF {
        SkipOne(io0, row0, j, c, seen, e);
        if c.header.track in subs {
          PeerDataReceived(j, c);
        }
        return;
      }
      ServeOne(io0, row0, j, c, seen, e);
      var entry;
      entry, buffer' := ForwardTo(j, c, e, row[e], buffer);
      row' := row[e := entry];
    }

    /** Sends the bytes to every egress of the ingress row, in the order of the row. */
    method ForwardPeerData(j: SessionId, c: Chunk)
      requires j != SELF && c.offset <= |c.data|
      requires (j, c.header.sns) in fib ==> fib[(j, c.header.sns)].Keys - {SELF} <= channels.Keys
      modifies this`fib, this`channels, this`client, this`clientGrams
      ensures fib == FibAfter(old(fib), old(View()), j, c)
      ensures View() == Sent(old(fib), old(View()), subs, j, c)
    {
      var key := (j, c.header.sns);
      if key !in fib {
        return;
      }
      var row: FibRow := fib[key];
      ghost var row0, io0, seen := row, View(), {};
      var order := Sorted(row.Keys);
      var buffer := c.data;
      SeenNone(row0.Keys);
      ServeNone(io0, row0, j, c);
      for k := 0 to |order|
        invariant fib == old(fib) && seen == Seen(row0.Keys, k)
        invariant Rewrite(buffer, 0) == Rewrite(c.data, 0) && (c.reliable && !c.isNew ==> buffer == c.data)
        invariant View() == IoAfter(io0, row0, subs, j, c, seen) && row == RowAfter(io0, row0, j, c, seen)
      {
        SeeOne(row0.Keys, k);
        row, buffer := ForwardEntry(j, c, order[k], row, buffer, io0, row0, seen);
        seen := seen + {order[k]};
      }
      fib := fib[key := row];
    }

    /** Bytes of a peer stream, or with no stream id a datagram, as the transport hands them over. A
        stream or datagram must begin with its whole header. */
    method ProcessReceivedData(j: SessionId, stream: int, reliable: bool, data: seq<byte>)
      requires j != SELF
      requires if !reliable then FullHeader(data, DATAGRAM)
               else (j, stream) !in ctx ==> FullHeader(data, NEW_STREAM)
      requires forall k | k in fib :: fib[k].Keys - {SELF} <= channels.Keys
      modifies this
      ensures var c := if reliable then StreamChunk(old(ctx), j, stream, data) else DatagramChunk(data);
              && fib == FibAfter(old(fib), old(View()), j, c)
              && View() == Sent(old(fib), old(View()), subs, j, c)
              && ctx == if reliable then old(ctx)[(j, stream) := c.header] else old(ctx)
    {
      var isNew := !reliable || (j, stream) !in ctx;
      if isNew {
        FullHeaderDecodes(data, if reliable then NEW_STREAM else DATAGRAM);
        var header := Decode(data, DEFAULT_HEADER).header;
        if reliable {
          ctx := ctx[(j, stream) := header];
        }
        ForwardPeerData(j, Chunk(true, if reliable then stream else 0, reliable, header, data, data[0]));
      } else {
        assert ctx[(j, stream) := ctx[(j, stream)]] == ctx;
        ForwardPeerData(j, Chunk(false, stream, true, ctx[(j, stream)], data, 0));
      }
    }

    method PeerStreamClosed(track: nat, stream: int, reset: bool)
      modifies this`clientClosed
      ensures clientClosed == old(clientClosed) + [(track, stream, reset)]
    {
      clientClosed := clientClosed + [(track, stream, reset)];
    }

    /** One pass of the closing loop. */
    method CloseEntry(e: SessionId, row: FibRow, stream: int, track: nat, reset: bool,
                      ghost io0: Io, ghost row0: FibRow, ghost seen: set<SessionId>, ghost told0: seq<(nat, int, bool)>)
      returns (row': FibRow)
      requires e in row0 && e !in seen && row0.Keys - {SELF} <= io0.channels.Keys
      requires clientClosed == ToldOfClose(told0, seen, (track, stream, reset))
      requires channels == ChannelsClosed(io0, row0, stream, seen) && row == RowClosed(row0, stream, seen)
      modifies this`channels, this`clientClosed
      ensures channels == ChannelsClosed(io0, row0, stream, seen + {e})
      ensures row' == RowClosed(row0, stream, seen + {e})
      ensures clientClosed == ToldOfClose(told0, seen + {e}, (track, stream, reset))
    {
      row' := row;
      CloseOneMore(io0, row0, stream, seen, e);
      if e == SELF {
        PeerStreamClosed(track, stream, reset);
        return;
      }
      if stream in row[e].streams {
        channels := channels[e := CloseOne(channels[e], row[e], stream)];
        row' := row[e := row[e].(streams := row[e].streams - {stream})];
      } else {
        assert row[e].(streams := row[e].streams - {stream}) == row[e];
        assert channels[e := channels[e]] == channels && row[e := row[e]] == row;
      }
    }

    /** The closing loop over the egresses of a row. */
    method CloseRow(row0: FibRow, stream: int, track: nat, reset: bool) returns (row: FibRow)
      requires row0.Keys - {SELF} <= channels.Keys
      modifies this`channels, this`clientClosed
      ensures channels == ChannelsClosed(old(View()), row0, stream, row0.Keys)
      ensures row == RowClosed(row0, stream, row0.Keys)
      ensures clientClosed == ToldOfClose(old(clientClosed), row0.Keys, (track, stream, reset))
    {
      row := row0;
      ghost var io0, told0, seen := View(), clientClosed, {};
      var order := Sorted(row.Keys);
      SeenNone(row0.Keys);
      CloseNone(io0, row0, stream);
      for k := 0 to |order|
        invariant seen == Seen(row0.Keys, k)
        invariant channels == ChannelsClosed(io0, row0, stream, seen) && row == RowClosed(row0, stream, seen)
        invariant clientClosed == ToldOfClose(told0, seen, (track, stream, reset))
      {
        SeeOne(row0.Keys, k);
        row := CloseEntry(order[k], row, stream, track, reset, io0, row0, seen, told0);
        seen := seen + {order[k]};
      }
    }

    /** Closes every egress stream of an ingress stream, and tells the client manager once if it is an
        egress of the row. */
    method CloseStream(j: SessionId, sns: SnsId, stream: int, track: nat, reset: bool)
      requires (j, sns) in fib ==> fib[(j, sns)].Keys - {SELF} <= channels.Keys
      modifies this`fib, this`channels, this`clientClosed
      ensures clientClosed == if (j, sns) in old(fib) && SELF in old(fib)[(j, sns)]
                              then old(clientClosed) + [(track, stream, reset)] else old(clientClosed)
      ensures var key := (j, sns);
              if key in old(fib) then
                && channels == ChannelsClosed(old(View()), old(fib)[key], stream, old(fib)[key].Keys)
                && fib == old(fib)[key := RowClosed(old(fib)[key], stream, old(fib)[key].Keys)]
              else channels == old(channels) && fib == old(fib)
    {
      var key := (j, sns);
      if key !in fib {
        return;
      }
      var row := CloseRow(fib[key], stream, track, reset);
      fib := fib[key := row];
    }
  }
}
