/**
 Whole runs of one relay's data plane: chunks of any number of ingress streams, datagrams, SNS
 updates, lost sessions and closes, in any order.
 */
module Pipeline {
  import opened Sessions
  import opened SnsRouting
  import opened SnsNetwork
  import opened Bytes
  import opened DataHeaders
  import opened Forwarding

  /** A relay with its data plane and the tracks that its own clients subscribe to. `ctx` holds the
      header read from each ingress stream. `got` records the bytes received on it, `heard` the streams
      whose every chunk so far went to the client manager. */
  datatype Pipe = Pipe(relay: Relay, subs: set<nat>, io: Io, ctx: map<StreamKey, Header>,
                       got: map<StreamKey, seq<byte>>, heard: set<StreamKey>)

  function Forwarded(p: Pipe, j: SessionId, c: Chunk): Pipe {
    p.(relay := p.relay.(fib := FibAfter(p.relay.fib, p.io, j, c)), io := Sent(p.relay.fib, p.io, p.subs, j, c))
  }

  predicate ClientListens(p: Pipe, j: SessionId, h: Header) {
    SELF in Row(p.relay, (j, h.sns)) && h.track in p.subs
  }

  function Received(p: Pipe, j: SessionId, stream: int, data: seq<byte>): Pipe {
    var s, c := (j, stream), StreamChunk(p.ctx, j, stream, data);
    var listens := ClientListens(p, j, c.header);
    Forwarded(p, j, c).(
      ctx := p.ctx[s := c.header],
      got := p.got[s := Log(p.got, s) + data],
      heard := if !listens then p.heard - {s} else if c.isNew then p.heard + {s} else p.heard)
  }

  function Closed(p: Pipe, j: SessionId, sns: SnsId, stream: int): Pipe {
    var key := (j, sns);
    if key !in p.relay.fib then p
    else
      var row := p.relay.fib[key];
      p.(relay := p.relay.(fib := p.relay.fib[key := RowClosed(row, stream, row.Keys)]),
         io := p.io.(channels := ChannelsClosed(p.io, row, stream, row.Keys)))
  }

  /** A session after a change to the sets of its own subscribes. */
  function Resubscribed(p: Pipe, e: SessionId, s: Session): Pipe {
    if e in p.relay.sessions then p.(relay := WithSession(p.relay, e, s)) else p
  }

  /** A session that is no longer connected sends neither data nor control messages, and its ingress rows
      are purged. */
  function Lost(p: Pipe, e: SessionId): Pipe
    requires e in p.io.channels
  {
    var q := p.(io := p.io.(channels := p.io.channels[e := p.io.channels[e].(up := false)]));
    q.(relay := Disconnected(p.relay, e))
  }

  /** Best sessions and subscribes may change at any time, as may the sets that peers advertise. */
  datatype Event =
    | Data(j: SessionId, stream: int, data: seq<byte>)
    | Datagram(j: SessionId, data: seq<byte>)
    | Sns(j: SessionId, msg: SnsMsg, ref: int)
    | Subscribe(e: SessionId, track: TrackHash, node: NodeId)
    | Unsubscribe(e: SessionId, track: TrackHash, node: NodeId)
    | Local(subs: set<nat>)
    | Reroute(best: map<NodeId, SessionId>)
    | Down(e: SessionId)
    | Close(j: SessionId, sns: SnsId, stream: int)

  ghost predicate Allowed(p: Pipe, event: Event) {
    match event
    case Data(j, stream, data) =>
      j in p.io.channels && ((j, stream) !in p.ctx ==> FullHeader(data, NEW_STREAM))
    case Datagram(j, data) => j in p.io.channels && FullHeader(data, DATAGRAM)
    case Sns(j, msg, ref) => j in p.io.channels && FreshRef(p.relay, (j, msg.id), ref)
    case Down(e) => e in p.io.channels
    case _ => true
  }

  function Happen(p: Pipe, event: Event): Pipe {
    match event
    case Data(j, stream, data) => Received(p, j, stream, data)
    case Datagram(j, data) =>
      Forwarded(p, j, DatagramChunk(data))
    case Sns(j, msg, ref) => p.(relay := Take(p.relay, j, msg, ref))
    case Subscribe(e, track, node) => Resubscribed(p, e, AddSub(SessionIn(p.relay, e), track, node))
    case Unsubscribe(e, track, node) => Resubscribed(p, e, RemoveSub(SessionIn(p.relay, e), track, node))
    case Local(subs) => p.(subs := subs)
    case Reroute(best) => p.(relay := p.relay.(best := best))
    case Down(e) => if e in p.io.channels then Lost(p, e) else p
    case Close(j, sns, stream) => Closed(p, j, sns, stream)
  }

  // ---------------------------------------------------------------- the invariant

  /** An egress stream carries a prefix of its ingress stream with only the SNS id changed. */
  ghost predicate Faithful(eg: Egress, got: map<StreamKey, seq<byte>>) {
    eg.origin in got && |got[eg.origin]| >= 6 && eg.data <= Rewrite(got[eg.origin], eg.sns)
  }

  ghost predicate ChannelOk(ch: Channel, got: map<StreamKey, seq<byte>>) {
    forall out | out in ch.streams :: out < ch.next && Faithful(ch.streams[out], got)
  }

  /** An egress stream still mapped from its ingress stream is open; on a live session it has everything. */
  ghost predicate Mapped(ch: Channel, entry: FibEntry, s: StreamKey, got: map<StreamKey, seq<byte>>)
    requires s.1 in entry.streams
  {
    var out := entry.streams[s.1];
    && out in ch.streams && ch.streams[out].origin == s && ch.streams[out].sns == entry.outSns && ch.streams[out].open
    && s in got && (ch.up ==> ch.streams[out].data == Rewrite(got[s], entry.outSns))
  }

  /** Streams mapped in the entry for `e` of the row of `k` belong to that row. */
  ghost predicate EntryOk(p: Pipe, k: Ingress, e: SessionId)
    requires k in p.relay.fib && e in p.relay.fib[k]
  {
    forall st | st in p.relay.fib[k][e].streams ::
      && e != SELF && e != k.0 && e in p.io.channels
      && Mapped(p.io.channels[e], p.relay.fib[k][e], (k.0, st), p.got)
      && (k.0, st) in p.ctx && p.ctx[(k.0, st)].sns == k.1
  }

  ghost predicate TableOk(p: Pipe) {
    && RelayInv(p.relay) && p.io.channels.Keys == p.relay.sessions.Keys
    && (forall k, e | k in p.relay.fib && e in p.relay.fib[k] && e != SELF :: e in p.relay.sessions)
  }

  ghost predicate Begins(data: seq<byte>, h: Header) {
    FullHeader(data, NEW_STREAM) && HeadOf(data) == h
  }

  ghost predicate LogsOk(got: map<StreamKey, seq<byte>>, ctx: map<StreamKey, Header>) {
    got.Keys == ctx.Keys && forall s | s in got :: Begins(got[s], ctx[s])
  }

  /** A stream heard from its start has given the client manager exactly its payload. */
  ghost predicate ClientOk(client: map<StreamKey, seq<byte>>, got: map<StreamKey, seq<byte>>, heard: set<StreamKey>) {
    && (forall s | s in client :: s in got)
    && (forall s | s in heard :: s in got && Log(client, s) == Payload(got[s]))
  }

  ghost predicate PipeInv(p: Pipe) {
    && TableOk(p) && LogsOk(p.got, p.ctx) && ClientOk(p.io.client, p.got, p.heard)
    && (forall e | e in p.io.channels :: ChannelOk(p.io.channels[e], p.got))
    && (forall k, e | k in p.relay.fib && e in p.relay.fib[k] :: EntryOk(p, k, e))
  }

  // ---------------------------------------------------------------- one chunk, one egress

  /** The logs after a chunk of stream `s`. */
  ghost predicate GotMore(got: map<StreamKey, seq<byte>>, got': map<StreamKey, seq<byte>>, s: StreamKey, data: seq<byte>) {
    got' == got[s := Log(got, s) + data]
  }

  lemma FaithfulGrows(eg: Egress, got: map<StreamKey, seq<byte>>, got': map<StreamKey, seq<byte>>, s: StreamKey, data: seq<byte>)
    requires Faithful(eg, got) && GotMore(got, got', s, data)
    ensures Faithful(eg, got')
  {
    if eg.origin == s {
      RewritePrefix(got[s], got'[s], eg.sns);
    }
  }

  lemma IdleChannel(ch: Channel, got: map<StreamKey, seq<byte>>, got': map<StreamKey, seq<byte>>, s: StreamKey, data: seq<byte>)
    requires ChannelOk(ch, got) && GotMore(got, got', s, data)
    ensures ChannelOk(ch, got')
  {
    forall out | out in ch.streams ensures Faithful(ch.streams[out], got') {
      FaithfulGrows(ch.streams[out], got, got', s, data);
    }
  }

  /** What the forwarding of a chunk of stream (j, c.stream) relies on. */
  ghost predicate ChunkOk(c: Chunk, j: SessionId, got: map<StreamKey, seq<byte>>) {
    && c.reliable
    && (c.isNew <==> (j, c.stream) !in got)
    && (if c.isNew then |c.data| >= 6 else |got[(j, c.stream)]| >= 6)
  }

  ghost predicate StreamsOk(ch: Channel, entry: FibEntry, j: SessionId, got: map<StreamKey, seq<byte>>) {
    forall st | st in entry.streams :: Mapped(ch, entry, (j, st), got)
  }

  lemma ChannelStep(ch: Channel, entry: FibEntry, j: SessionId, c: Chunk,
                    got: map<StreamKey, seq<byte>>, got': map<StreamKey, seq<byte>>)
    requires ChannelOk(ch, got) && StreamsOk(ch, entry, j, got) && ChunkOk(c, j, got)
    requires GotMore(got, got', (j, c.stream), c.data)
    ensures ChannelOk(ChannelAfter(ch, entry, j, c), got')
  {
    IdleChannel(ch, got, got', (j, c.stream), c.data);
    var s := (j, c.stream);
    if c.stream in entry.streams {
      assert Mapped(ch, entry, s, got);
      RewriteAppend(got[s], c.data, entry.outSns);
    }
  }

  lemma EntryStep(ch: Channel, entry: FibEntry, j: SessionId, c: Chunk,
                  got: map<StreamKey, seq<byte>>, got': map<StreamKey, seq<byte>>, st: int)
    requires ChannelOk(ch, got) && StreamsOk(ch, entry, j, got) && ChunkOk(c, j, got)
    requires GotMore(got, got', (j, c.stream), c.data)
    requires st in EntryAfter(ch, entry, c).streams
    ensures Mapped(ChannelAfter(ch, entry, j, c), EntryAfter(ch, entry, c), (j, st), got')
  {
    var s := (j, c.stream);
    if c.stream in entry.streams {
      assert Mapped(ch, entry, s, got);
      RewriteAppend(got[s], c.data, entry.outSns);
    }
    if st in entry.streams {
      assert Mapped(ch, entry, (j, st), got);
    }
  }

  /** A stream of another ingress stream is left alone. */
  lemma OtherStream(ch: Channel, entry: FibEntry, j: SessionId, c: Chunk, got: map<StreamKey, seq<byte>>, out: int)
    requires ChannelOk(ch, got) && StreamsOk(ch, entry, j, got) && c.reliable
    requires out in ch.streams && ch.streams[out].origin != (j, c.stream)
    ensures var ch' := ChannelAfter(ch, entry, j, c);
            ch'.up == ch.up && out in ch'.streams && ch'.streams[out] == ch.streams[out]
  {
    if c.stream in entry.streams {
      assert Mapped(ch, entry, (j, c.stream), got);
    }
  }

  // ---------------------------------------------------------------- one chunk, the whole relay

  /** Egress `e` is served by a chunk for the row `key`. */
  ghost predicate Served(p: Pipe, key: Ingress, e: SessionId) {
    key in p.relay.fib && Serves(p.io, p.relay.fib[key], key.0, e)
  }

  lemma ForwardedShape(p: Pipe, j: SessionId, c: Chunk, e: SessionId)
    requires e in p.io.channels
    ensures var q, key := Forwarded(p, j, c), (j, c.header.sns);
            e in q.io.channels && q.io.channels[e] ==
              if Served(p, key, e) then ChannelAfter(p.io.channels[e], p.relay.fib[key][e], j, c) else p.io.channels[e]
  {
  }

  lemma ForwardedRow(p: Pipe, j: SessionId, c: Chunk, k: Ingress, e: SessionId)
    ensures var q, key := Forwarded(p, j, c), (j, c.header.sns);
            && (k in q.relay.fib <==> k in p.relay.fib)
            && (k in p.relay.fib ==> (e in q.relay.fib[k] <==> e in p.relay.fib[k]))
            && (k in p.relay.fib && e in p.relay.fib[k] ==>
                  q.relay.fib[k][e] == if k == key && Served(p, key, e)
                                       then EntryAfter(p.io.channels[e], p.relay.fib[k][e], c) else p.relay.fib[k][e])
  {
  }

  lemma ForwardedTable(p: Pipe, j: SessionId, c: Chunk)
    requires TableOk(p)
    ensures TableOk(Forwarded(p, j, c))
    ensures var q := Forwarded(p, j, c); q.ctx == p.ctx && q.got == p.got && q.heard == p.heard
  {
    var q := Forwarded(p, j, c);
    forall k, e | k in q.relay.fib && e in q.relay.fib[k] && e != SELF ensures e in q.relay.sessions {
      ForwardedRow(p, j, c, k, e);
    }
  }

  lemma RowStreams(p: Pipe, k: Ingress, e: SessionId)
    requires PipeInv(p) && k in p.relay.fib && e in p.relay.fib[k]
    ensures e in p.io.channels ==> StreamsOk(p.io.channels[e], p.relay.fib[k][e], k.0, p.got)
    ensures !Served(p, k, e) ==> p.relay.fib[k][e].streams == map[]
  {
    assert EntryOk(p, k, e);
    if !Served(p, k, e) {
      forall st ensures st !in p.relay.fib[k][e].streams {
      }
    }
  }

  /** A chunk of stream (j, stream) that the relay may receive. */
  ghost predicate Fitting(p: Pipe, j: SessionId, stream: int, data: seq<byte>) {
    (j, stream) !in p.ctx ==> FullHeader(data, NEW_STREAM)
  }

  lemma ChunkFits(p: Pipe, j: SessionId, stream: int, data: seq<byte>)
    requires PipeInv(p) && Fitting(p, j, stream, data)
    ensures ChunkOk(StreamChunk(p.ctx, j, stream, data), j, p.got)
  {
  }

  lemma ReceivedParts(p: Pipe, j: SessionId, stream: int, data: seq<byte>)
    ensures var q, f := Received(p, j, stream, data), Forwarded(p, j, StreamChunk(p.ctx, j, stream, data));
            && q.relay == f.relay && q.io == f.io
            && GotMore(p.got, q.got, (j, stream), data)
            && q.ctx == p.ctx[(j, stream) := StreamChunk(p.ctx, j, stream, data).header]
  {
  }

  lemma ReceivedChannel(p: Pipe, j: SessionId, stream: int, data: seq<byte>, e: SessionId)
    requires PipeInv(p) && Fitting(p, j, stream, data) && e in p.io.channels
    ensures var q := Received(p, j, stream, data);
            e in q.io.channels && ChannelOk(q.io.channels[e], q.got)
  {
    var c, q := StreamChunk(p.ctx, j, stream, data), Received(p, j, stream, data);
    ForwardedShape(p, j, c, e);
    ReceivedParts(p, j, stream, data);
    ChunkFits(p, j, stream, data);
    assert ChannelOk(p.io.channels[e], p.got);
    if Served(p, (j, c.header.sns), e) {
      RowStreams(p, (j, c.header.sns), e);
      ChannelStep(p.io.channels[e], p.relay.fib[(j, c.header.sns)][e], j, c, p.got, q.got);
    } else {
      IdleChannel(p.io.channels[e], p.got, q.got, (j, stream), data);
    }
  }

  lemma ReceivedOwnEntry(p: Pipe, j: SessionId, stream: int, data: seq<byte>, e: SessionId, c: Chunk, key: Ingress, q: Pipe)
    requires c == StreamChunk(p.ctx, j, stream, data) && key == (j, c.header.sns) && q == Received(p, j, stream, data)
    requires PipeInv(p) && Fitting(p, j, stream, data)
    requires key in p.relay.fib && e in p.relay.fib[key]
    ensures key in q.relay.fib && e in q.relay.fib[key] && EntryOk(q, key, e)
  {
    ForwardedRow(p, j, c, key, e);
    ReceivedParts(p, j, stream, data);
    assert EntryOk(p, key, e);
    if Served(p, key, e) {
      RowStreams(p, key, e);
      ForwardedShape(p, j, c, e);
      forall st | st in q.relay.fib[key][e].streams
        ensures Mapped(q.io.channels[e], q.relay.fib[key][e], (j, st), q.got)
                && (j, st) in q.ctx && q.ctx[(j, st)].sns == key.1
      {
        OwnStream(p, j, stream, data, p.io.channels[e], p.relay.fib[key][e], c, st, q);
        assert st != stream ==> st in p.relay.fib[key][e].streams;
      }
    } else {
      RowStreams(p, key, e);
    }
  }

  lemma OwnStream(p: Pipe, j: SessionId, stream: int, data: seq<byte>, ch: Channel, entry: FibEntry, c: Chunk, st: int, q: Pipe)
    requires c == StreamChunk(p.ctx, j, stream, data) && GotMore(p.got, q.got, (j, stream), data)
    requires PipeInv(p) && Fitting(p, j, stream, data)
    requires ChannelOk(ch, p.got) && StreamsOk(ch, entry, j, p.got) && st in EntryAfter(ch, entry, c).streams
    ensures Mapped(ChannelAfter(ch, entry, j, c), EntryAfter(ch, entry, c), (j, st), q.got)
    ensures st in entry.streams || st == stream
  {
    ChunkFits(p, j, stream, data);
    EntryStep(ch, entry, j, c, p.got, q.got, st);
  }

  lemma ReceivedOtherStream(p: Pipe, j: SessionId, stream: int, data: seq<byte>,
                            k: Ingress, e: SessionId, st: int)
    requires PipeInv(p) && Fitting(p, j, stream, data)
    requires k in p.relay.fib && e in p.relay.fib[k] && k != (j, StreamChunk(p.ctx, j, stream, data).header.sns)
    requires st in p.relay.fib[k][e].streams
    ensures var q := Received(p, j, stream, data);
            && e in q.io.channels && Mapped(q.io.channels[e], p.relay.fib[k][e], (k.0, st), q.got)
            && (k.0, st) in q.ctx && q.ctx[(k.0, st)].sns == k.1
  {
    var c, q := StreamChunk(p.ctx, j, stream, data), Received(p, j, stream, data);
    assert EntryOk(p, k, e);
    assert (k.0, st) != (j, stream);
    ForwardedShape(p, j, c, e);
    ReceivedParts(p, j, stream, data);
    var key := (j, c.header.sns);
    if Served(p, key, e) {
      RowStreams(p, key, e);
      assert ChannelOk(p.io.channels[e], p.got);
      OtherStream(p.io.channels[e], p.relay.fib[key][e], j, c, p.got, p.relay.fib[k][e].streams[st]);
    }
  }

  lemma ReceivedEntry(p: Pipe, j: SessionId, stream: int, data: seq<byte>, k: Ingress, e: SessionId)
    requires PipeInv(p) && Fitting(p, j, stream, data)
    requires k in p.relay.fib && e in p.relay.fib[k]
    ensures var q := Received(p, j, stream, data);
            k in q.relay.fib && e in q.relay.fib[k] && EntryOk(q, k, e)
  {
    var c, q := StreamChunk(p.ctx, j, stream, data), Received(p, j, stream, data);
    if k == (j, c.header.sns) {
      ReceivedOwnEntry(p, j, stream, data, e, c, k, q);
    } else {
      ForwardedRow(p, j, c, k, e);
      assert EntryOk(p, k, e);
      forall st | st in q.relay.fib[k][e].streams
        ensures e in q.io.channels && Mapped(q.io.channels[e], q.relay.fib[k][e], (k.0, st), q.got)
                && (k.0, st) in q.ctx && q.ctx[(k.0, st)].sns == k.1
      {
        ReceivedOtherStream(p, j, stream, data, k, e, st);
      }
    }
  }

  lemma HeaderStays(s: seq<byte>, more: seq<byte>)
    requires FullHeader(s, NEW_STREAM)
    ensures FullHeader(s + more, NEW_STREAM) && HeadOf(s + more) == HeadOf(s)
  {
    var t := s + more;
    assert t[2..6] == s[2..6] && t[6..14] == s[6..14] && t[15..19] == s[15..19];
  }

  lemma LogsStep(got: map<StreamKey, seq<byte>>, ctx: map<StreamKey, Header>, s: StreamKey, data: seq<byte>, h: Header)
    requires LogsOk(got, ctx)
    requires if s in ctx then h == ctx[s] else Begins(data, h)
    ensures LogsOk(got[s := Log(got, s) + data], ctx[s := h])
  {
    if s in got {
      assert Begins(got[s], h);
      HeaderStays(got[s], data);
    } else {
      assert [] + data == data;
    }
  }

  /** What the client manager has after a chunk: one more piece of the stream when it listens. */
  lemma ClientAfter(p: Pipe, j: SessionId, c: Chunk)
    requires c.reliable && c.offset <= |c.data|
    ensures Forwarded(p, j, c).io.client ==
            if ClientListens(p, j, c.header)
            then p.io.client[(j, c.stream) := Log(p.io.client, (j, c.stream)) + c.data[c.offset..]] else p.io.client
  {
  }

  lemma PayloadGrows(log: seq<byte>, data: seq<byte>)
    requires |log| >= HeaderLen(NEW_STREAM)
    ensures Payload(log + data) == Payload(log) + data
  {
  }

  lemma ClientStep(client: map<StreamKey, seq<byte>>, got: map<StreamKey, seq<byte>>, heard: set<StreamKey>,
                   s: StreamKey, data: seq<byte>, listens: bool)
    requires ClientOk(client, got, heard)
    requires if s in got then |got[s]| >= HeaderLen(NEW_STREAM) else |data| >= HeaderLen(NEW_STREAM)
    ensures var more := if s in got then data else Payload(data);
            ClientOk(if listens then client[s := Log(client, s) + more] else client,
                     got[s := Log(got, s) + data],
                     if !listens then heard - {s} else if s !in got then heard + {s} else heard)
  {
    if s in got {
      PayloadGrows(got[s], data);
    } else {
      assert s !in client && [] + data == data && [] + Payload(data) == Payload(data);
    }
  }

  lemma ReceivedClient(p: Pipe, j: SessionId, stream: int, data: seq<byte>)
    requires PipeInv(p) && Fitting(p, j, stream, data)
    ensures var q := Received(p, j, stream, data); ClientOk(q.io.client, q.got, q.heard)
  {
    var c, s := StreamChunk(p.ctx, j, stream, data), (j, stream);
    if s in p.got {
      assert Begins(p.got[s], p.ctx[s]);
      assert data[0..] == data;
    }
    ClientAfter(p, j, c);
    ClientStep(p.io.client, p.got, p.heard, s, data, ClientListens(p, j, c.header));
  }

  lemma ReceivedKeeps(p: Pipe, j: SessionId, stream: int, data: seq<byte>)
    requires PipeInv(p) && Fitting(p, j, stream, data)
    ensures PipeInv(Received(p, j, stream, data))
  {
    var c, q := StreamChunk(p.ctx, j, stream, data), Received(p, j, stream, data);
    ReceivedParts(p, j, stream, data);
    ForwardedTable(p, j, c);
    LogsStep(p.got, p.ctx, (j, stream), data, c.header);
    ReceivedClient(p, j, stream, data);
    forall e | e in q.io.channels ensures ChannelOk(q.io.channels[e], q.got) {
      ReceivedChannel(p, j, stream, data, e);
    }
    forall k, e | k in q.relay.fib && e in q.relay.fib[k] ensures EntryOk(q, k, e) {
      ForwardedRow(p, j, c, k, e);
      ReceivedEntry(p, j, stream, data, k, e);
    }
  }

  // ---------------------------------------------------------------- the other events

  /** Nothing is added to the streams of the channel, and none is closed but those of the ingress
      streams `shut`. */
  ghost predicate Quiet(ch: Channel, ch': Channel, shut: set<StreamKey>) {
    && (ch'.up ==> ch.up) && ch'.next == ch.next && ch'.streams.Keys == ch.streams.Keys
    && forall out | out in ch.streams ::
         || ch'.streams[out] == ch.streams[out]
         || (ch.streams[out].origin in shut && ch'.streams[out] == ch.streams[out].(open := false))
  }

  ghost predicate Fewer(entry: FibEntry, entry': FibEntry) {
    entry'.outSns == entry.outSns
    && forall st | st in entry'.streams :: st in entry.streams && entry'.streams[st] == entry.streams[st]
  }

  /** An entry after a quiet event: a new one without streams, or the old one with fewer and none of the
      closed. */
  ghost predicate EntryQuiet(p: Pipe, q: Pipe, k: Ingress, e: SessionId, shut: set<StreamKey>)
    requires k in q.relay.fib && e in q.relay.fib[k]
  {
    || q.relay.fib[k][e].streams == map[]
    || (k in p.relay.fib && e in p.relay.fib[k] && Fewer(p.relay.fib[k][e], q.relay.fib[k][e])
        && forall st | st in q.relay.fib[k][e].streams :: (k.0, st) !in shut)
  }

  ghost predicate PipeQuiet(p: Pipe, q: Pipe, shut: set<StreamKey>) {
    && q.got == p.got && q.ctx == p.ctx && q.heard == p.heard && q.io.client == p.io.client
    && q.io.channels.Keys == p.io.channels.Keys
    && (forall e | e in p.io.channels :: Quiet(p.io.channels[e], q.io.channels[e], shut))
    && (forall k, e | k in q.relay.fib && e in q.relay.fib[k] :: EntryQuiet(p, q, k, e, shut))
  }

  lemma QuietChannel(ch: Channel, ch': Channel, got: map<StreamKey, seq<byte>>, shut: set<StreamKey>)
    requires ChannelOk(ch, got) && Quiet(ch, ch', shut)
    ensures ChannelOk(ch', got)
  {
    forall out | out in ch'.streams ensures out < ch'.next && Faithful(ch'.streams[out], got) {
      assert Faithful(ch.streams[out], got);
    }
  }

  lemma QuietEntry(p: Pipe, q: Pipe, k: Ingress, e: SessionId, shut: set<StreamKey>)
    requires PipeInv(p) && PipeQuiet(p, q, shut) && k in q.relay.fib && e in q.relay.fib[k]
    ensures EntryOk(q, k, e)
  {
    assert EntryQuiet(p, q, k, e, shut);
    if q.relay.fib[k][e].streams != map[] {
      assert EntryOk(p, k, e);
    }
  }

  lemma QuietKeeps(p: Pipe, q: Pipe, shut: set<StreamKey>)
    requires PipeInv(p) && TableOk(q) && PipeQuiet(p, q, shut)
    ensures PipeInv(q)
  {
    forall e | e in q.io.channels ensures ChannelOk(q.io.channels[e], q.got) {
      QuietChannel(p.io.channels[e], q.io.channels[e], p.got, shut);
    }
    forall k, e | k in q.relay.fib && e in q.relay.fib[k] ensures EntryOk(q, k, e) {
      QuietEntry(p, q, k, e, shut);
    }
  }

  lemma DatagramKeeps(p: Pipe, j: SessionId, c: Chunk)
    requires PipeInv(p) && !c.reliable
    ensures PipeInv(Forwarded(p, j, c))
  {
    var q := Forwarded(p, j, c);
    ForwardedTable(p, j, c);
    forall e | e in p.io.channels ensures e in q.io.channels && Quiet(p.io.channels[e], q.io.channels[e], {}) {
      ForwardedShape(p, j, c, e);
    }
    forall k, e | k in q.relay.fib && e in q.relay.fib[k] ensures EntryQuiet(p, q, k, e, {}) {
      DatagramEntry(p, j, c, k, e, q);
    }
    QuietKeeps(p, q, {});
  }

  lemma DatagramEntry(p: Pipe, j: SessionId, c: Chunk, k: Ingress, e: SessionId, q: Pipe)
    requires q == Forwarded(p, j, c) && !c.reliable && k in q.relay.fib && e in q.relay.fib[k]
    ensures EntryQuiet(p, q, k, e, {})
  {
    ForwardedRow(p, j, c, k, e);
  }

  /** A datagram reaches each connected egress once, with only the SNS id changed. */
  lemma DatagramOnce(p: Pipe, j: SessionId, data: seq<byte>, e: SessionId)
    requires j in p.io.channels && e in p.io.channels && FullHeader(data, DATAGRAM)
    ensures var q, key := Happen(p, Datagram(j, data)), (j, HeadOf(data).sns);
            e in q.io.channels && q.io.channels[e].grams ==
              if Served(p, key, e) && p.io.channels[e].up
              then p.io.channels[e].grams + [Rewrite(data, p.relay.fib[key][e].outSns)]
              else p.io.channels[e].grams
  {
    ForwardedShape(p, j, DatagramChunk(data), e);
  }

  lemma TakeTable(r: Relay, from: SessionId, msg: SnsMsg, ref: int)
    requires RelayInv(r) && FreshRef(r, (from, msg.id), ref)
    ensures var r', key := Take(r, from, msg, ref), (from, msg.id);
            && RelayInv(r') && SameBut(r, r', key)
            && (forall e | e in Row(r', key) :: Row(r', key)[e].streams == map[] && (e == SELF || e in r'.sessions))
  {
    var key := (from, msg.id);
    match msg
    case Advertise(id, nodes) =>
      AdvertiseFrame(r, key, nodes, ref);
      AdvertiseRow(r, key, nodes, ref);
    case Withdraw(id) =>
      WithdrawKeepsInv(r, key);
  }

  lemma SnsKeeps(p: Pipe, j: SessionId, msg: SnsMsg, ref: int)
    requires PipeInv(p) && FreshRef(p.relay, (j, msg.id), ref)
    ensures PipeInv(p.(relay := Take(p.relay, j, msg, ref)))
  {
    TakeTable(p.relay, j, msg, ref);
    var q := p.(relay := Take(p.relay, j, msg, ref));
    forall k, e | k in q.relay.fib && e in q.relay.fib[k]
      ensures EntryQuiet(p, q, k, e, {}) && (e != SELF ==> e in q.relay.sessions)
    {
      if k == (j, msg.id) {
        assert e in Row(q.relay, k);
      }
    }
    QuietKeeps(p, q, {});
  }

  /** The stream that a close ends: one whose header named this SNS id, or none. */
  function Shut(p: Pipe, j: SessionId, sns: SnsId, stream: int): set<StreamKey> {
    if (j, stream) in p.ctx && p.ctx[(j, stream)].sns == sns then {(j, stream)} else {}
  }

  lemma CloseQuiet(p: Pipe, j: SessionId, sns: SnsId, stream: int, e: SessionId)
    requires PipeInv(p) && e in p.io.channels
    ensures var q := Closed(p, j, sns, stream);
            e in q.io.channels && Quiet(p.io.channels[e], q.io.channels[e], Shut(p, j, sns, stream))
  {
    ClosedChannel(p, j, sns, stream, e);
    if (j, sns) in p.relay.fib && e in p.relay.fib[(j, sns)] {
      assert EntryOk(p, (j, sns), e);
    }
  }

  lemma ClosedChannel(p: Pipe, j: SessionId, sns: SnsId, stream: int, e: SessionId)
    requires e in p.io.channels
    ensures var q, row := Closed(p, j, sns, stream), Row(p.relay, (j, sns));
            e in q.io.channels && q.io.channels[e] ==
              if e in row && e != SELF then CloseOne(p.io.channels[e], row[e], stream) else p.io.channels[e]
  {
  }

  lemma ClosedRow(p: Pipe, j: SessionId, sns: SnsId, stream: int, k: Ingress, e: SessionId)
    ensures var q := Closed(p, j, sns, stream);
            && (k in q.relay.fib <==> k in p.relay.fib)
            && (k in p.relay.fib ==> (e in q.relay.fib[k] <==> e in p.relay.fib[k]))
            && (k in p.relay.fib && e in p.relay.fib[k] ==>
                  q.relay.fib[k][e] == if k == (j, sns) && e != SELF
                                       then p.relay.fib[k][e].(streams := p.relay.fib[k][e].streams - {stream})
                                       else p.relay.fib[k][e])
  {
  }

  lemma ClosedEntry(p: Pipe, j: SessionId, sns: SnsId, stream: int, k: Ingress, e: SessionId)
    requires PipeInv(p) && k in Closed(p, j, sns, stream).relay.fib && e in Closed(p, j, sns, stream).relay.fib[k]
    ensures EntryQuiet(p, Closed(p, j, sns, stream), k, e, Shut(p, j, sns, stream))
    ensures k in p.relay.fib && e in p.relay.fib[k]
  {
    ClosedRow(p, j, sns, stream, k, e);
    assert EntryOk(p, k, e);
  }

  lemma CloseKeeps(p: Pipe, j: SessionId, sns: SnsId, stream: int)
    requires PipeInv(p)
    ensures PipeInv(Closed(p, j, sns, stream))
  {
    var q, shut := Closed(p, j, sns, stream), Shut(p, j, sns, stream);
    forall e | e in p.io.channels ensures e in q.io.channels && Quiet(p.io.channels[e], q.io.channels[e], shut) {
      CloseQuiet(p, j, sns, stream, e);
    }
    forall k, e | k in q.relay.fib && e in q.relay.fib[k]
      ensures EntryQuiet(p, q, k, e, shut) && (e != SELF ==> e in q.relay.sessions)
    {
      ClosedEntry(p, j, sns, stream, k, e);
    }
    QuietKeeps(p, q, shut);
  }

  lemma ResubscribedKeeps(p: Pipe, e: SessionId, s: Session)
    requires PipeInv(p) && SessionInv(s)
    ensures PipeInv(Resubscribed(p, e, s))
  {
    if e in p.relay.sessions {
      assert p.relay.sessions[e := s].Keys == p.relay.sessions.Keys;
      QuietKeeps(p, Resubscribed(p, e, s), {});
    }
  }

  lemma SubscribeKeeps(p: Pipe, e: SessionId, track: TrackHash, node: NodeId)
    requires PipeInv(p)
    ensures PipeInv(Resubscribed(p, e, AddSub(SessionIn(p.relay, e), track, node)))
    ensures PipeInv(Resubscribed(p, e, RemoveSub(SessionIn(p.relay, e), track, node)))
  {
    NewSessionInv();
    AddSubKeeps(SessionIn(p.relay, e), track, node);
    RemoveSubKeeps(SessionIn(p.relay, e), track, node);
    ResubscribedKeeps(p, e, AddSub(SessionIn(p.relay, e), track, node));
    ResubscribedKeeps(p, e, RemoveSub(SessionIn(p.relay, e), track, node));
  }

  lemma RerouteKeeps(p: Pipe, best: map<NodeId, SessionId>)
    requires PipeInv(p)
    ensures PipeInv(p.(relay := p.relay.(best := best)))
  {
    QuietKeeps(p, p.(relay := p.relay.(best := best)), {});
  }

  lemma ChannelDownKeeps(p: Pipe, e: SessionId, q: Pipe)
    requires PipeInv(p) && e in p.io.channels
    requires q == p.(io := p.io.(channels := p.io.channels[e := p.io.channels[e].(up := false)]))
    ensures PipeInv(q)
  {
    assert q.io.channels.Keys == p.io.channels.Keys;
    QuietKeeps(p, q, {});
  }

  lemma DownKeeps(p: Pipe, e: SessionId)
    requires PipeInv(p) && e in p.io.channels
    ensures PipeInv(Lost(p, e))
  {
    var q := p.(io := p.io.(channels := p.io.channels[e := p.io.channels[e].(up := false)]));
    ChannelDownKeeps(p, e, q);
    RowsPurgedKeeps(q, e);
    var purged := q.(relay := q.relay.(fib := RowsWithout(q.relay.fib, e)));
    ResubscribedKeeps(purged, e, SessionIn(p.relay, e).(connected := false));
  }

  lemma RowsPurgedKeeps(p: Pipe, e: SessionId)
    requires PipeInv(p)
    ensures PipeInv(p.(relay := p.relay.(fib := RowsWithout(p.relay.fib, e))))
  {
    QuietKeeps(p, p.(relay := p.relay.(fib := RowsWithout(p.relay.fib, e))), {});
  }

  lemma EventKeeps(p: Pipe, event: Event)
    requires PipeInv(p) && Allowed(p, event)
    ensures PipeInv(Happen(p, event))
  {
    match event
    case Data(j, stream, data) => ReceivedKeeps(p, j, stream, data);
    case Datagram(j, data) =>
      DatagramKeeps(p, j, DatagramChunk(data));
    case Sns(j, msg, ref) => SnsKeeps(p, j, msg, ref);
    case Subscribe(e, track, node) => SubscribeKeeps(p, e, track, node);
    case Unsubscribe(e, track, node) => SubscribeKeeps(p, e, track, node);
    case Local(subs) => QuietKeeps(p, p.(subs := subs), {});
    case Reroute(best) => RerouteKeeps(p, best);
    case Down(e) => DownKeeps(p, e);
    case Close(j, sns, stream) => CloseKeeps(p, j, sns, stream);
  }

  // ---------------------------------------------------------------- runs

  ghost predicate Happens(p: Pipe, events: seq<Event>)
    decreases |events|
  {
    events == [] || (Allowed(p, events[0]) && Happens(Happen(p, events[0]), events[1..]))
  }

  ghost function Afterwards(p: Pipe, events: seq<Event>): Pipe
    decreases |events|
  {
    if events == [] then p else Afterwards(Happen(p, events[0]), events[1..])
  }

  /** A relay with open sessions, no rows and no data yet. */
  ghost predicate Idle(p: Pipe) {
    && RelayInv(p.relay) && p.relay.fib == map[] && p.io.channels.Keys == p.relay.sessions.Keys
    && (forall e | e in p.io.channels :: p.io.channels[e] == NEW_CHANNEL)
    && p.io.client == map[] && p.io.clientGrams == [] && p.ctx == map[] && p.got == map[] && p.heard == {}
  }

  lemma {:induction false} EventsKeep(p: Pipe, events: seq<Event>)
    requires PipeInv(p) && Happens(p, events)
    ensures PipeInv(Afterwards(p, events))
    decreases |events|
  {
    if events != [] {
      EventKeeps(p, events[0]);
      EventsKeep(Happen(p, events[0]), events[1..]);
    }
  }

  ghost predicate ReachedPipe(p: Pipe) {
    exists start, events :: Idle(start) && Happens(start, events) && p == Afterwards(start, events)
  }

  lemma ReachedPipeInv(p: Pipe)
    requires ReachedPipe(p)
    ensures PipeInv(p)
  {
    var start, events :| Idle(start) && Happens(start, events) && p == Afterwards(start, events);
    assert PipeInv(start);
    EventsKeep(start, events);
  }

  /** Pipeline fidelity, over every run: each egress stream of a session carries a prefix of its
      ingress stream with only bytes 2 to 5 changed, to the SNS id the stream was created with. */
  lemma EgressFidelity(p: Pipe, e: SessionId, out: int)
    requires ReachedPipe(p) && e in p.io.channels && out in p.io.channels[e].streams
    ensures var eg := p.io.channels[e].streams[out];
            eg.origin in p.got && eg.data <= Rewrite(p.got[eg.origin], eg.sns)
  {
    ReachedPipeInv(p);
    assert ChannelOk(p.io.channels[e], p.got);
    assert Faithful(p.io.channels[e].streams[out], p.got);
  }

  /** While the row still maps the stream and the session is connected, nothing is missing. */
  lemma EgressComplete(p: Pipe, k: Ingress, e: SessionId, stream: int)
    requires ReachedPipe(p)
    requires k in p.relay.fib && e in p.relay.fib[k] && stream in p.relay.fib[k][e].streams
    ensures e in p.io.channels && p.relay.fib[k][e].streams[stream] in p.io.channels[e].streams
    ensures (k.0, stream) in p.got
    ensures p.io.channels[e].up ==>
              p.io.channels[e].streams[p.relay.fib[k][e].streams[stream]].data ==
              Rewrite(p.got[(k.0, stream)], p.relay.fib[k][e].outSns)
  {
    ReachedPipeInv(p);
    assert EntryOk(p, k, e);
  }

  /** A client manager that listened from the start of a stream has exactly the payload. */
  lemma ClientFidelity(p: Pipe, s: StreamKey)
    requires ReachedPipe(p) && s in p.heard
    ensures s in p.got && FullHeader(p.got[s], NEW_STREAM)
    ensures Log(p.io.client, s) == p.got[s][HeaderLen(NEW_STREAM)..]
  {
    ReachedPipeInv(p);
    assert Begins(p.got[s], p.ctx[s]);
  }

  // ---------------------------------------------------------------- many hops

  /** Bytes `to` are a prefix of `from` with the SNS id changed. */
  ghost predicate Carries(to: seq<byte>, from: seq<byte>, id: SnsId) {
    |to| <= |from| && to <= Rewrite(from, id)
  }

  lemma CarriesOn(first: seq<byte>, from: seq<byte>, to: seq<byte>, id: SnsId, id': SnsId)
    requires |to| >= 6 && Carries(to, from, id') && Carries(from, first, id)
    ensures Carries(to, first, id')
  {
    RewriteTwice(first, id, id');
    RewritePrefix(from, Rewrite(first, id), id');
  }

  /** One relay of a chain: its state, and the egress stream by which it passes the stream on. */
  datatype Hop = Hop(pipe: Pipe, e: SessionId, out: int)

  ghost predicate HopOk(h: Hop) {
    ReachedPipe(h.pipe) && h.e in h.pipe.io.channels && h.out in h.pipe.io.channels[h.e].streams
  }

  function Passed(h: Hop): Egress {
    if h.e in h.pipe.io.channels && h.out in h.pipe.io.channels[h.e].streams
    then h.pipe.io.channels[h.e].streams[h.out] else Egress((0, 0), 0, [], false)
  }

  /** What the relay has received of the stream that it passes on. */
  function Got(h: Hop): seq<byte> {
    Log(h.pipe.got, Passed(h).origin)
  }

  /** Relays, each in a state that some run reaches, joined by a stream: each has received some of
      what the one before has sent, in order. */
  ghost predicate Chain(hs: seq<Hop>) {
    && (forall i | 0 <= i < |hs| :: HopOk(hs[i]))
    && (forall i | 0 < i < |hs| :: Got(hs[i]) <= Passed(hs[i - 1]).data)
  }

  lemma HopFaithful(h: Hop)
    requires HopOk(h)
    ensures FullHeader(Got(h), NEW_STREAM) && Carries(Passed(h).data, Got(h), Passed(h).sns)
  {
    ReachedPipeInv(h.pipe);
    EgressFidelity(h.pipe, h.e, h.out);
    assert Begins(h.pipe.got[Passed(h).origin], h.pipe.ctx[Passed(h).origin]);
  }

  /** A relay that got a prefix of `from` passes on a prefix of it with its own id. */
  lemma HopCarries(h: Hop, from: seq<byte>)
    requires HopOk(h) && Got(h) <= from
    ensures Carries(Passed(h).data, from, Passed(h).sns)
  {
    HopFaithful(h);
    RewritePrefix(Got(h), from, Passed(h).sns);
  }

  lemma {:induction false} ChainCarries(hs: seq<Hop>, n: nat)
    requires Chain(hs) && n < |hs| && |Passed(hs[n]).data| >= 6
    ensures Carries(Passed(hs[n]).data, Got(hs[0]), Passed(hs[n]).sns)
  {
    if n == 0 {
      HopFaithful(hs[0]);
    } else {
      HopCarries(hs[n], Passed(hs[n - 1]).data);
      ChainCarries(hs, n - 1);
      CarriesOn(Got(hs[0]), Passed(hs[n - 1]).data, Passed(hs[n]).data, Passed(hs[n - 1]).sns, Passed(hs[n]).sns);
    }
  }

  lemma CarriesHeader(last: seq<byte>, first: seq<byte>, id: SnsId)
    requires Carries(last, first, id) && FullHeader(first, NEW_STREAM) && |last| >= HeaderLen(NEW_STREAM)
    ensures FullHeader(last, NEW_STREAM) && HeadOf(last) == HeadOf(first).(sns := id % 0x1_0000_0000)
    ensures Payload(last) <= Payload(first)
  {
    RewriteKeepsHeader(first, id);
    PrefixKeepsHeader(last, Rewrite(first, id));
  }

  /** Over any number of hops, whatever each relay has been through: once the last has passed on a
      header it is the first relay's, with another SNS id, and what follows is a prefix of the payload
      that the first relay received. */
  lemma HopsFaithful(hs: seq<Hop>)
    requires Chain(hs) && hs != []
    requires |Passed(hs[|hs| - 1]).data| >= HeaderLen(NEW_STREAM)
    ensures var first, last, id := Got(hs[0]), Passed(hs[|hs| - 1]).data, Passed(hs[|hs| - 1]).sns;
            && FullHeader(first, NEW_STREAM) && FullHeader(last, NEW_STREAM)
            && last <= Rewrite(first, id)
            && HeadOf(last) == HeadOf(first).(sns := id % 0x1_0000_0000)
            && Payload(last) <= Payload(first)
  {
    HopFaithful(hs[0]);
    ChainCarries(hs, |hs| - 1);
    CarriesHeader(Passed(hs[|hs| - 1]).data, Got(hs[0]), Passed(hs[|hs| - 1]).sns);
  }

  /** A client manager past the last hop that listened from the start of the stream has a prefix of the
      payload that the first relay received, from its first byte on. */
  lemma ClientPastHops(hs: seq<Hop>, p: Pipe, s: StreamKey)
    requires Chain(hs) && hs != []
    requires ReachedPipe(p) && s in p.heard && Log(p.got, s) <= Passed(hs[|hs| - 1]).data
    ensures Log(p.io.client, s) <= Payload(Got(hs[0]))
    ensures HeadOf(Log(p.got, s)).track == HeadOf(Got(hs[0])).track
  {
    ClientFidelity(p, s);
    HopsFaithful(hs);
    PrefixKeepsHeader(p.got[s], Passed(hs[|hs| - 1]).data);
  }

  lemma PrefixKeepsHeader(s: seq<byte>, t: seq<byte>)
    requires s <= t && FullHeader(t, NEW_STREAM) && |s| >= HeaderLen(NEW_STREAM)
    ensures FullHeader(s, NEW_STREAM) && HeadOf(s) == HeadOf(t)
    ensures s[HeaderLen(NEW_STREAM)..] <= t[HeaderLen(NEW_STREAM)..]
  {
    HeaderStays(s, t[|s|..]);
    assert s + t[|s|..] == t;
  }
}
