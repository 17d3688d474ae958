/**
 The life of the streams of a relay's data plane over its runs: when an egress stream is mapped from its
 ingress stream, when it is closed, and exactly what the client manager and each egress are given.
 */
module StreamLife {
  import opened Sessions
  import opened SnsRouting
  import opened SnsNetwork
  import opened Bytes
  import opened DataHeaders
  import opened Forwarding
  import opened Pipeline

  // ---------------------------------------------------------------- when a stream is mapped

  /** The row of `k` maps its stream `st` to the egress stream `out` of session `e`. */
  ghost predicate Maps(p: Pipe, k: Ingress, e: SessionId, st: int, out: int) {
    k in p.relay.fib && e in p.relay.fib[k] && st in p.relay.fib[k][e].streams && p.relay.fib[k][e].streams[st] == out
  }

  /** Session `e` is an egress of the row and not the session that the data comes from. */
  ghost predicate Egresses(p: Pipe, k: Ingress, e: SessionId) {
    e in Row(p.relay, k) && e != k.0 && e != SELF && e in p.io.channels
  }

  /** The event brings the first bytes of a stream whose header names the row, of which `e` is an egress;
      `out` is the next stream id of its session. */
  ghost predicate Starts(p: Pipe, event: Event, k: Ingress, e: SessionId, st: int, out: int) {
    && event.Data? && (event.j, event.stream) == (k.0, st) && (k.0, st) !in p.ctx
    && HeadOf(event.data).sns == k.1 && Egresses(p, k, e)
    && out == p.io.channels[e].next
  }

  /** The stream is closed, its row is updated or withdrawn, or the session that it arrives on is lost. */
  predicate Ends(event: Event, k: Ingress, st: int) {
    match event
    case Close(j, sns, stream) => (j, sns) == k && stream == st
    case Sns(j, msg, ref) => (j, msg.id) == k
    case Down(e) => e == k.0
    case _ => false
  }

  lemma MappedWhere(p: Pipe, k: Ingress, e: SessionId, st: int, out: int)
    requires PipeInv(p) && Maps(p, k, e, st, out)
    ensures e != SELF && e != k.0 && e in p.io.channels && out in p.io.channels[e].streams
    ensures out < p.io.channels[e].next
    ensures Mapped(p.io.channels[e], p.relay.fib[k][e], (k.0, st), p.got)
    ensures (k.0, st) in p.ctx && p.ctx[(k.0, st)].sns == k.1
  {
    assert EntryOk(p, k, e);
    assert ChannelOk(p.io.channels[e], p.got);
  }

  /** No egress stream is mapped twice. */
  lemma MappedOnce(p: Pipe, k: Ingress, k': Ingress, e: SessionId, st: int, st': int, out: int)
    requires PipeInv(p) && Maps(p, k, e, st, out) && Maps(p, k', e, st', out)
    ensures k == k' && st == st'
  {
    MappedWhere(p, k, e, st, out);
    MappedWhere(p, k', e, st', out);
  }

  lemma ForwardedMaps(p: Pipe, j: SessionId, c: Chunk, k: Ingress, e: SessionId, st: int, out: int)
    requires PipeInv(p)
    requires c.reliable && c.isNew ==> (j, c.stream) !in p.ctx
    ensures Maps(Forwarded(p, j, c), k, e, st, out) <==>
            || Maps(p, k, e, st, out)
            || (c.reliable && c.isNew && k == (j, c.header.sns) && st == c.stream && Egresses(p, k, e)
                && out == p.io.channels[e].next)
  {
    ForwardedRow(p, j, c, k, e);
    if k in p.relay.fib && e in p.relay.fib[k] && st in p.relay.fib[k][e].streams {
      MappedWhere(p, k, e, st, p.relay.fib[k][e].streams[st]);
    }
  }

  lemma DataMaps(p: Pipe, j: SessionId, stream: int, data: seq<byte>, k: Ingress, e: SessionId, st: int, out: int)
    requires PipeInv(p)
    ensures Maps(Received(p, j, stream, data), k, e, st, out) <==>
            Maps(p, k, e, st, out) || Starts(p, Data(j, stream, data), k, e, st, out)
  {
    ForwardedMaps(p, j, StreamChunk(p.ctx, j, stream, data), k, e, st, out);
  }

  lemma SnsMaps(p: Pipe, j: SessionId, msg: SnsMsg, ref: int, k: Ingress, e: SessionId, st: int, out: int)
    requires PipeInv(p) && FreshRef(p.relay, (j, msg.id), ref)
    ensures Maps(p.(relay := Take(p.relay, j, msg, ref)), k, e, st, out) <==>
            Maps(p, k, e, st, out) && (j, msg.id) != k
  {
    TakeTable(p.relay, j, msg, ref);
    var r' := Take(p.relay, j, msg, ref);
    assert e in Row(r', k) && k == (j, msg.id) ==> Row(r', k)[e].streams == map[];
  }

  lemma CloseMaps(p: Pipe, j: SessionId, sns: SnsId, stream: int, k: Ingress, e: SessionId, st: int, out: int)
    requires PipeInv(p)
    ensures Maps(Closed(p, j, sns, stream), k, e, st, out) <==>
            Maps(p, k, e, st, out) && !((j, sns) == k && stream == st)
  {
    ClosedRow(p, j, sns, stream, k, e);
    if Maps(p, k, e, st, out) {
      MappedWhere(p, k, e, st, out);
    }
  }

  /** When an egress stream is mapped: exactly from the first bytes of its ingress stream on, as long as the
      stream is not closed, its row not updated and its ingress session not lost. */
  lemma MapsStep(p: Pipe, event: Event, k: Ingress, e: SessionId, st: int, out: int)
    requires PipeInv(p) && Allowed(p, event)
    ensures Maps(Happen(p, event), k, e, st, out) <==>
            (Maps(p, k, e, st, out) && !Ends(event, k, st)) || Starts(p, event, k, e, st, out)
  {
    match event
    case Data(j, stream, data) => DataMaps(p, j, stream, data, k, e, st, out);
    case Datagram(j, data) => ForwardedMaps(p, j, DatagramChunk(data), k, e, st, out);
    case Sns(j, msg, ref) => SnsMaps(p, j, msg, ref, k, e, st, out);
    case Close(j, sns, stream) => CloseMaps(p, j, sns, stream, k, e, st, out);
    case _ =>
  }

  // ---------------------------------------------------------------- when a stream is closed

  /** What a close does to the streams of an egress session: those that the row mapped from the closed stream
      are closed, every other stream and all else of the session is as before. */
  lemma CloseEnds(p: Pipe, j: SessionId, sns: SnsId, stream: int, e: SessionId)
    requires PipeInv(p) && e in p.io.channels
    ensures e in Closed(p, j, sns, stream).io.channels
    ensures var ch, ch' := p.io.channels[e], Closed(p, j, sns, stream).io.channels[e];
            && ch'.up == ch.up && ch'.next == ch.next && ch'.grams == ch.grams && ch'.streams.Keys == ch.streams.Keys
            && forall out | out in ch.streams ::
                 ch'.streams[out] == ch.streams[out].(open := ch.streams[out].open && !Maps(p, (j, sns), e, stream, out))
  {
    ClosedChannel(p, j, sns, stream, e);
    if (j, sns) in p.relay.fib && e in p.relay.fib[(j, sns)] {
      assert EntryOk(p, (j, sns), e);
    }
  }

  lemma ChunkKeepsOpen(ch: Channel, entry: FibEntry, j: SessionId, c: Chunk, out: int)
    requires out in ch.streams && out < ch.next
    ensures var ch' := ChannelAfter(ch, entry, j, c);
            out in ch'.streams && ch'.streams[out] == ch.streams[out].(data := ch'.streams[out].data)
  {
  }

  lemma ForwardedOpen(p: Pipe, j: SessionId, c: Chunk, e: SessionId, out: int)
    requires PipeInv(p) && e in p.io.channels && out in p.io.channels[e].streams
    ensures var q := Forwarded(p, j, c);
            e in q.io.channels && out in q.io.channels[e].streams
            && q.io.channels[e].streams[out] == p.io.channels[e].streams[out].(data := q.io.channels[e].streams[out].data)
  {
    ForwardedShape(p, j, c, e);
    assert ChannelOk(p.io.channels[e], p.got);
    if Served(p, (j, c.header.sns), e) {
      ChunkKeepsOpen(p.io.channels[e], p.relay.fib[(j, c.header.sns)][e], j, c, out);
    }
  }

  /** An egress stream is closed by nothing but a close of the stream that it is mapped from, and it keeps
      its origin and SNS id. */
  lemma OpenStep(p: Pipe, event: Event, e: SessionId, out: int)
    requires PipeInv(p) && Allowed(p, event) && e in p.io.channels && out in p.io.channels[e].streams
    ensures e in Happen(p, event).io.channels && out in Happen(p, event).io.channels[e].streams
    ensures var was, now := p.io.channels[e].streams[out], Happen(p, event).io.channels[e].streams[out];
            && now.origin == was.origin && now.sns == was.sns
            && (now.open <==> was.open && !(event.Close? && Maps(p, (event.j, event.sns), e, event.stream, out)))
  {
    match event
    case Data(j, stream, data) =>
      ReceivedParts(p, j, stream, data);
      ForwardedOpen(p, j, StreamChunk(p.ctx, j, stream, data), e, out);
    case Datagram(j, data) => ForwardedOpen(p, j, DatagramChunk(data), e, out);
    case Close(j, sns, stream) => CloseEnds(p, j, sns, stream, e);
    case _ =>
  }

  /** What a session has been given on its streams and as datagrams. */
  ghost predicate SameBytes(ch: Channel, ch': Channel) {
    && ch'.grams == ch.grams
    && (forall out | out in ch.streams :: out in ch'.streams && ch'.streams[out].data == ch.streams[out].data)
    && (forall out | out in ch'.streams && out !in ch.streams :: ch'.streams[out].data == [])
  }

  lemma ForwardedSilent(p: Pipe, j: SessionId, c: Chunk, e: SessionId)
    requires PipeInv(p) && e in p.io.channels && !p.io.channels[e].up
    ensures e in Forwarded(p, j, c).io.channels && !Forwarded(p, j, c).io.channels[e].up
    ensures SameBytes(p.io.channels[e], Forwarded(p, j, c).io.channels[e])
  {
    ForwardedShape(p, j, c, e);
    assert ChannelOk(p.io.channels[e], p.got);
  }

  /** A session that has lost its connection does not get it back, and is given nothing more. */
  lemma DownIsSilent(p: Pipe, event: Event, e: SessionId)
    requires PipeInv(p) && Allowed(p, event) && e in p.io.channels && !p.io.channels[e].up
    ensures e in Happen(p, event).io.channels && !Happen(p, event).io.channels[e].up
    ensures SameBytes(p.io.channels[e], Happen(p, event).io.channels[e])
  {
    match event
    case Data(j, stream, data) =>
      ReceivedParts(p, j, stream, data);
      ForwardedSilent(p, j, StreamChunk(p.ctx, j, stream, data), e);
    case Datagram(j, data) => ForwardedSilent(p, j, DatagramChunk(data), e);
    case Close(j, sns, stream) => CloseEnds(p, j, sns, stream, e);
    case _ =>
  }

  /** Over every run: an egress stream that a row maps is open. */
  lemma MappedIsOpen(p: Pipe, k: Ingress, e: SessionId, st: int, out: int)
    requires ReachedPipe(p) && Maps(p, k, e, st, out)
    ensures e in p.io.channels && out in p.io.channels[e].streams && p.io.channels[e].streams[out].open
  {
    ReachedPipeInv(p);
    MappedWhere(p, k, e, st, out);
  }

  /** No row maps the stream. */
  ghost predicate Unmapped(p: Pipe, e: SessionId, out: int) {
    forall k, st :: !Maps(p, k, e, st, out)
  }

  /** An open stream that no row maps. */
  ghost predicate Orphan(p: Pipe, e: SessionId, out: int) {
    e in p.io.channels && out in p.io.channels[e].streams && p.io.channels[e].streams[out].open && Unmapped(p, e, out)
  }

  lemma OrphanStep(p: Pipe, event: Event, e: SessionId, out: int)
    requires PipeInv(p) && Allowed(p, event) && Orphan(p, e, out)
    ensures Orphan(Happen(p, event), e, out)
  {
    OpenStep(p, event, e, out);
    assert ChannelOk(p.io.channels[e], p.got);
    forall k, st ensures !Maps(Happen(p, event), k, e, st, out) {
      MapsStep(p, event, k, e, st, out);
    }
  }

  /** It stays so over every run: nothing can close it any more. */
  lemma {:induction false} OrphanStays(p: Pipe, events: seq<Event>, e: SessionId, out: int)
    requires PipeInv(p) && Happens(p, events) && Orphan(p, e, out)
    ensures Orphan(Afterwards(p, events), e, out)
    decreases |events|
  {
    if events != [] {
      EventKeeps(p, events[0]);
      OrphanStep(p, events[0], e, out);
      OrphanStays(Happen(p, events[0]), events[1..], e, out);
    }
  }

  /** An update of the row, or the loss of the ingress session, in mid-stream leaves the egress stream open
      for good; a close leaves it closed. So a mapped stream whose mapping ends is closed if and only if a
      close ended it. */
  lemma EndedClosedIff(p: Pipe, event: Event, events: seq<Event>, k: Ingress, e: SessionId, st: int, out: int)
    requires PipeInv(p) && Maps(p, k, e, st, out)
    requires Allowed(p, event) && Ends(event, k, st) && Happens(Happen(p, event), events)
    ensures var end := Afterwards(Happen(p, event), events);
            e in end.io.channels && out in end.io.channels[e].streams
            && (!end.io.channels[e].streams[out].open <==> event.Close?)
  {
    MappedWhere(p, k, e, st, out);
    OpenStep(p, event, e, out);
    EventKeeps(p, event);
    var q := Happen(p, event);
    if event.Close? {
      ClosedStays(q, events, e, out);
    } else {
      forall k', st' ensures !Maps(q, k', e, st', out) {
        MapsStep(p, event, k', e, st', out);
        if Maps(p, k', e, st', out) {
          MappedOnce(p, k, k', e, st, st', out);
        }
      }
      OrphanStays(q, events, e, out);
    }
  }

  lemma {:induction false} ClosedStays(p: Pipe, events: seq<Event>, e: SessionId, out: int)
    requires PipeInv(p) && Happens(p, events)
    requires e in p.io.channels && out in p.io.channels[e].streams && !p.io.channels[e].streams[out].open
    ensures var end := Afterwards(p, events);
            e in end.io.channels && out in end.io.channels[e].streams && !end.io.channels[e].streams[out].open
    decreases |events|
  {
    if events != [] {
      EventKeeps(p, events[0]);
      OpenStep(p, events[0], e, out);
      ClosedStays(Happen(p, events[0]), events[1..], e, out);
    }
  }

  // ---------------------------------------------------------------- a stream that nothing ends

  ghost predicate NoneEnds(events: seq<Event>, k: Ingress, st: int) {
    forall i | 0 <= i < |events| :: !Ends(events[i], k, st)
  }

  lemma {:induction false} MappingStays(p: Pipe, events: seq<Event>, k: Ingress, e: SessionId, st: int, out: int)
    requires PipeInv(p) && Happens(p, events) && NoneEnds(events, k, st) && Maps(p, k, e, st, out)
    ensures PipeInv(Afterwards(p, events)) && Maps(Afterwards(p, events), k, e, st, out)
    ensures e in p.io.channels && out in p.io.channels[e].streams
    ensures var end := Afterwards(p, events);
            e in end.io.channels && out in end.io.channels[e].streams
            && end.io.channels[e].streams[out].sns == p.io.channels[e].streams[out].sns
    decreases |events|
  {
    MappedWhere(p, k, e, st, out);
    if events != [] {
      assert !Ends(events[0], k, st);
      EventKeeps(p, events[0]);
      MapsStep(p, events[0], k, e, st, out);
      OpenStep(p, events[0], e, out);
      assert NoneEnds(events[1..], k, st);
      MappingStays(Happen(p, events[0]), events[1..], k, e, st, out);
    }
  }

  lemma StartedStream(p: Pipe, event: Event, k: Ingress, e: SessionId, st: int, out: int)
    requires PipeInv(p) && Allowed(p, event) && Starts(p, event, k, e, st, out)
    ensures Maps(Happen(p, event), k, e, st, out)
    ensures var q := Happen(p, event);
            e in q.io.channels && out in q.io.channels[e].streams
            && q.io.channels[e].streams[out].sns == p.relay.fib[k][e].outSns
  {
    MapsStep(p, event, k, e, st, out);
    EventKeeps(p, event);
    MappedWhere(Happen(p, event), k, e, st, out);
    var c := StreamChunk(p.ctx, event.j, event.stream, event.data);
    ForwardedRow(p, event.j, c, k, e);
    ReceivedParts(p, event.j, event.stream, event.data);
  }

  /** A stream goes whole to every egress of its row: from its first bytes on, whatever else happens, as long
      as nothing ends the mapping, each egress that the row had then has one open stream for it, and while
      connected that stream has every byte received, the SNS id rewritten to the row's. */
  lemma StreamGoesWhole(p: Pipe, event: Event, events: seq<Event>, k: Ingress, e: SessionId, st: int)
    requires PipeInv(p) && Allowed(p, event) && Egresses(p, k, e)
    requires Starts(p, event, k, e, st, p.io.channels[e].next)
    requires Happens(Happen(p, event), events) && NoneEnds(events, k, st)
    ensures var end, out := Afterwards(Happen(p, event), events), p.io.channels[e].next;
            && Maps(end, k, e, st, out) && e in end.io.channels && out in end.io.channels[e].streams
            && end.io.channels[e].streams[out].open && (k.0, st) in end.got
            && (end.io.channels[e].up ==>
                  end.io.channels[e].streams[out].data == Rewrite(end.got[(k.0, st)], p.relay.fib[k][e].outSns))
  {
    var q, out := Happen(p, event), p.io.channels[e].next;
    StartedStream(p, event, k, e, st, out);
    EventKeeps(p, event);
    MappingStays(q, events, k, e, st, out);
    MappedWhere(Afterwards(q, events), k, e, st, out);
  }

  // ---------------------------------------------------------------- what is handed over, over runs

  /** What an event gives the client manager of ingress stream `s`: the bytes after the header in the first
      chunk and all of a later one, when it listens. */
  function PieceHeard(p: Pipe, event: Event, s: StreamKey): seq<byte> {
    if event.Data? && (event.j, event.stream) == s
       && ClientListens(p, event.j, if s in p.ctx then p.ctx[s] else HeadOf(event.data))
    then if s in p.ctx then event.data else Payload(event.data)
    else []
  }

  /** The datagram payload that an event gives the client manager. */
  function GramHeard(p: Pipe, event: Event): seq<seq<byte>> {
    if event.Datagram? && ClientListens(p, event.j, HeadOf(event.data)) && HeaderLen(DATAGRAM) <= |event.data|
    then [event.data[HeaderLen(DATAGRAM)..]] else []
  }

  /** The datagram that an event puts on session `e`. */
  ghost function GramSent(p: Pipe, event: Event, e: SessionId): seq<seq<byte>> {
    if event.Datagram? then
      var key := (event.j, HeadOf(event.data).sns);
      if Egresses(p, key, e) && p.io.channels[e].up then [Rewrite(event.data, p.relay.fib[key][e].outSns)] else []
    else []
  }

  lemma StreamHeard(p: Pipe, event: Event, s: StreamKey)
    requires Allowed(p, event)
    ensures Log(Happen(p, event).io.client, s) == Log(p.io.client, s) + PieceHeard(p, event, s)
  {
    if event.Data? {
      var c := StreamChunk(p.ctx, event.j, event.stream, event.data);
      ReceivedParts(p, event.j, event.stream, event.data);
      ClientAfter(p, event.j, c);
      assert c.data[c.offset..] == if s in p.ctx && (event.j, event.stream) == s then event.data else c.data[c.offset..];
    }
  }

  /** A datagram's payload goes to the client manager once, when it listens to the track. */
  lemma DatagramHeard(p: Pipe, j: SessionId, data: seq<byte>)
    requires j in p.io.channels && FullHeader(data, DATAGRAM)
    ensures Happen(p, Datagram(j, data)).io.clientGrams ==
            p.io.clientGrams + if ClientListens(p, j, HeadOf(data)) then [data[HeaderLen(DATAGRAM)..]] else []
  {
  }

  /** No other event gives the client manager a datagram. */
  lemma GramsHeardStep(p: Pipe, event: Event)
    requires Allowed(p, event)
    ensures Happen(p, event).io.clientGrams == p.io.clientGrams + GramHeard(p, event)
  {
    if event.Datagram? {
      DatagramHeard(p, event.j, event.data);
    }
  }

  lemma GramsSentStep(p: Pipe, event: Event, e: SessionId)
    requires Allowed(p, event) && e in p.io.channels
    ensures e in Happen(p, event).io.channels
    ensures Happen(p, event).io.channels[e].grams == p.io.channels[e].grams + GramSent(p, event, e)
  {
    match event
    case Data(j, stream, data) =>
      ReceivedParts(p, j, stream, data);
      ForwardedShape(p, j, StreamChunk(p.ctx, j, stream, data), e);
    case Datagram(j, data) => DatagramOnce(p, j, data, e);
    case Close(j, sns, stream) => ClosedChannel(p, j, sns, stream, e);
    case _ =>
  }

  function HeardOf(p: Pipe, events: seq<Event>, s: StreamKey): seq<byte>
    decreases |events|
  {
    if events == [] then [] else PieceHeard(p, events[0], s) + HeardOf(Happen(p, events[0]), events[1..], s)
  }

  function GramsHeard(p: Pipe, events: seq<Event>): seq<seq<byte>>
    decreases |events|
  {
    if events == [] then [] else GramHeard(p, events[0]) + GramsHeard(Happen(p, events[0]), events[1..])
  }

  ghost function GramsSent(p: Pipe, events: seq<Event>, e: SessionId): seq<seq<byte>>
    decreases |events|
  {
    if events == [] then [] else GramSent(p, events[0], e) + GramsSent(Happen(p, events[0]), events[1..], e)
  }

  /** Over every run the client manager has, of each stream, exactly the payload of the chunks that came while
      it listened, in order. */
  lemma {:induction false} RunHeard(p: Pipe, events: seq<Event>, s: StreamKey)
    requires Happens(p, events)
    ensures Log(Afterwards(p, events).io.client, s) == Log(p.io.client, s) + HeardOf(p, events, s)
    decreases |events|
  {
    if events != [] {
      StreamHeard(p, events[0], s);
      RunHeard(Happen(p, events[0]), events[1..], s);
    }
  }

  /** And the payloads of exactly the datagrams that came while it listened, in order. */
  lemma {:induction false} RunGramsHeard(p: Pipe, events: seq<Event>)
    requires Happens(p, events)
    ensures Afterwards(p, events).io.clientGrams == p.io.clientGrams + GramsHeard(p, events)
    decreases |events|
  {
    if events != [] {
      GramsHeardStep(p, events[0]);
      RunGramsHeard(Happen(p, events[0]), events[1..]);
    }
  }

  /** Each session carries exactly the datagrams that came while it was a connected egress, in order. */
  lemma {:induction false} RunGramsSent(p: Pipe, events: seq<Event>, e: SessionId)
    requires Happens(p, events) && e in p.io.channels
    ensures e in Afterwards(p, events).io.channels
    ensures Afterwards(p, events).io.channels[e].grams == p.io.channels[e].grams + GramsSent(p, events, e)
    decreases |events|
  {
    if events != [] {
      GramsSentStep(p, events[0], e);
      RunGramsSent(Happen(p, events[0]), events[1..], e);
    }
  }

  lemma IdleEmpty(p: Pipe, s: StreamKey, e: SessionId)
    requires Idle(p) && e in p.io.channels
    ensures Log(p.io.client, s) == [] && p.io.clientGrams == [] && p.io.channels[e].grams == []
  {
  }

  lemma NothingBefore<T>(whole: seq<T>, before: seq<T>, after: seq<T>)
    requires whole == before + after && before == []
    ensures whole == after
  {
  }

  /** From an idle relay: nothing was handed over before. */
  lemma HandedOver(start: Pipe, events: seq<Event>, s: StreamKey, e: SessionId)
    requires Idle(start) && Happens(start, events) && e in start.io.channels
    ensures var p := Afterwards(start, events);
            && Log(p.io.client, s) == HeardOf(start, events, s)
            && p.io.clientGrams == GramsHeard(start, events)
            && e in p.io.channels && p.io.channels[e].grams == GramsSent(start, events, e)
  {
    IdleEmpty(start, s, e);
    var p := Afterwards(start, events);
    RunHeard(start, events, s);
    NothingBefore(Log(p.io.client, s), Log(start.io.client, s), HeardOf(start, events, s));
    RunGramsHeard(start, events);
    NothingBefore(p.io.clientGrams, start.io.clientGrams, GramsHeard(start, events));
    RunGramsSent(start, events, e);
    NothingBefore(p.io.channels[e].grams, start.io.channels[e].grams, GramsSent(start, events, e));
  }
}
