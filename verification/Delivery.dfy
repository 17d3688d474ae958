/**
 Exactly-once delivery. In a settled network whose routes shorten the distance to every node, each
 relay hands a stream to the egresses of the ingress row, and what the copies still owe adds up to
 what the stream owed: one receipt for every relay of the ingress set that subscribes to the track.
 */
module Delivery {
  import opened Ordered
  import opened Sessions
  import opened SnsRouting
  import opened SnsNetwork
  import opened SnsGrowth
  import opened Bytes
  import opened DataHeaders
  import opened Forwarding

  /** A stream, header and payload, on its way to an end of a session. */
  datatype Flight = Flight(at: End, data: seq<byte>)

  /** A client manager (by its relay), the track and the payload it was given. */
  type Receipt = (NodeId, nat, seq<byte>)

  /** Relays whose clients subscribe to a track. */
  type Subscribers = set<(NodeId, nat)>

  datatype Air = Air(flights: seq<Flight>, received: multiset<Receipt>)

  // ---------------------------------------------------------------- what a relay does with a stream

  function NewChunk(f: Flight): Chunk {
    StreamChunk(map[], f.at.1, 0, f.data)
  }

  function SnsOf(f: Flight): SnsId {
    HeadOf(f.data).sns
  }

  function TrackOf(f: Flight): nat {
    HeadOf(f.data).track
  }

  function PayloadOf(f: Flight): seq<byte> {
    Payload(f.data)
  }

  function IngressRow(net: Net, f: Flight): FibRow {
    Row(RelayAt(net, f.at.0), (f.at.1, SnsOf(f)))
  }

  function CopyTo(links: Links, row: FibRow, f: Flight, e: SessionId): seq<Flight> {
    if e in row && e != SELF && e != f.at.1 then
      [Flight(FarEnd(links, (f.at.0, e)), OutData(row[e], NewChunk(f)))]
    else []
  }

  function Gather(es: seq<SessionId>, send: SessionId -> seq<Flight>): seq<Flight> {
    if es == [] then [] else Gather(es[..|es| - 1], send) + send(es[|es| - 1])
  }

  function Copier(links: Links, row: FibRow, f: Flight): SessionId -> seq<Flight> {
    e => CopyTo(links, row, f, e)
  }

  function Copies(links: Links, row: FibRow, f: Flight, es: seq<SessionId>): seq<Flight> {
    Gather(es, Copier(links, row, f))
  }

  function HeardBy(subs: Subscribers, row: FibRow, f: Flight): multiset<Receipt> {
    if SELF in row && (f.at.0, TrackOf(f)) in subs then multiset{(f.at.0, TrackOf(f), PayloadOf(f))}
    else multiset{}
  }

  /** Flight `i` arrives: its relay sends the copies and informs its client manager. */
  function Land(net: Net, links: Links, subs: Subscribers, air: Air, i: nat): Air
    requires i < |air.flights|
  {
    var f := air.flights[i];
    var row := IngressRow(net, f);
    Air(air.flights[..i] + air.flights[i + 1..] + Copies(links, row, f, Sorted(row.Keys)),
        air.received + HeardBy(subs, row, f))
  }

  /** The ingress row that relay `u` with table `fib` has for a stream of these bytes from session `j`. */
  function RowFor(fib: Fib, j: SessionId, data: seq<byte>): FibRow {
    if (j, HeadOf(data).sns) in fib then fib[(j, HeadOf(data).sns)] else map[]
  }

  /** A copy is what the data plane puts on a connected egress session: a new stream with these bytes,
      whatever other streams the row carries there. */
  lemma CopyIsSent(fib: Fib, io: Io, subs: set<nat>, j: SessionId, stream: int, data: seq<byte>, e: SessionId,
                   links: Links, u: NodeId)
    requires FullHeader(data, NEW_STREAM)
    requires var row := RowFor(fib, j, data); e in row && e != SELF && e != j && stream !in row[e].streams
    requires e in io.channels && io.channels[e].up
    ensures var io' := Sent(fib, io, subs, j, StreamChunk(map[], j, stream, data));
            e in io'.channels && io.channels[e].next in io'.channels[e].streams
            && CopyTo(links, RowFor(fib, j, data), Flight((u, j), data), e) ==
               [Flight(FarEnd(links, (u, e)), io'.channels[e].streams[io.channels[e].next].data)]
  {
    var row := RowFor(fib, j, data);
    var c := StreamChunk(map[], j, stream, data);
    assert Serves(io, row, j, e);
    assert Sent(fib, io, subs, j, c).channels[e] == ChannelAfter(io.channels[e], row[e], j, c);
    assert [] + OutData(row[e], c) == OutData(row[e], c);
  }

  /** Where no copy goes nothing is put on the session. */
  lemma NothingElseSent(fib: Fib, io: Io, subs: set<nat>, j: SessionId, stream: int, data: seq<byte>, e: SessionId,
                        links: Links, u: NodeId)
    requires e in io.channels && SELF !in io.channels
    requires CopyTo(links, RowFor(fib, j, data), Flight((u, j), data), e) == []
    ensures var io' := Sent(fib, io, subs, j, StreamChunk(map[], j, stream, data));
            e in io'.channels && io'.channels[e] == io.channels[e]
  {
    assert !Serves(io, RowFor(fib, j, data), j, e);
  }

  /** The tracks that the clients of one relay subscribe to. */
  function TracksAt(subs: Subscribers, u: NodeId): set<nat> {
    set x | x in subs && x.0 == u :: x.1
  }

  /** A receipt is what the data plane gives the client manager: the stream's payload, once, and only
      where the relay is in the row and its clients subscribe to the track. */
  lemma ReceiptIsGiven(fib: Fib, io: Io, subs: Subscribers, j: SessionId, stream: int, data: seq<byte>, u: NodeId)
    requires FullHeader(data, NEW_STREAM) && (j, stream) !in io.client
    ensures var f, row := Flight((u, j), data), RowFor(fib, j, data);
            var io' := Sent(fib, io, TracksAt(subs, u), j, StreamChunk(map[], j, stream, data));
            if HeardBy(subs, row, f) == multiset{} then io'.client == io.client
            else HeardBy(subs, row, f) == multiset{(u, TrackOf(f), PayloadOf(f))}
                 && io'.client == io.client[(j, stream) := PayloadOf(f)]
  {
    var track, row := HeadOf(data).track, RowFor(fib, j, data);
    assert track in TracksAt(subs, u) <==> (u, track) in subs by {
      assert (u, track).0 == u && (u, track).1 == track;
    }
    assert [] + data[HeaderLen(NEW_STREAM)..] == data[HeaderLen(NEW_STREAM)..];
    if SELF in row && (u, track) in subs {
      assert (u, track, PayloadOf(Flight((u, j), data))) in HeardBy(subs, row, Flight((u, j), data));
    }
  }

  // ---------------------------------------------------------------- what a stream owes

  ghost function ReceiptSet(nodes: set<NodeId>, track: nat, payload: seq<byte>, subs: Subscribers): set<Receipt> {
    set n | n in nodes && (n, track) in subs :: (n, track, payload)
  }

  /** One receipt for each relay of `nodes` that subscribes to the track. */
  ghost function Receipts(nodes: set<NodeId>, track: nat, payload: seq<byte>, subs: Subscribers): multiset<Receipt> {
    multiset(ReceiptSet(nodes, track, payload, subs))
  }

  /** The set an end was told of under an id. */
  ghost function ToldSet(net: Net, links: Links, x: End, id: SnsId): set<NodeId> {
    if id in Told(net, links, x) then Told(net, links, x)[id] else {}
  }

  ghost function Owes(net: Net, links: Links, subs: Subscribers, f: Flight): multiset<Receipt> {
    Receipts(ToldSet(net, links, f.at, SnsOf(f)), TrackOf(f), PayloadOf(f), subs)
  }

  ghost function Total(fs: seq<Flight>, debt: Flight -> multiset<Receipt>): multiset<Receipt> {
    if fs == [] then multiset{} else Total(fs[..|fs| - 1], debt) + debt(fs[|fs| - 1])
  }

  ghost function Debt(net: Net, links: Links, subs: Subscribers): Flight -> multiset<Receipt> {
    f => Owes(net, links, subs, f)
  }

  ghost function AllOwe(net: Net, links: Links, subs: Subscribers, fs: seq<Flight>): multiset<Receipt> {
    Total(fs, Debt(net, links, subs))
  }

  lemma ReceiptsApart(a: set<NodeId>, b: set<NodeId>, track: nat, payload: seq<byte>, subs: Subscribers)
    requires a !! b
    ensures Receipts(a + b, track, payload, subs) == Receipts(a, track, payload, subs) + Receipts(b, track, payload, subs)
  {
    var ra, rb := ReceiptSet(a, track, payload, subs), ReceiptSet(b, track, payload, subs);
    assert ReceiptSet(a + b, track, payload, subs) == ra + rb;
    assert ra !! rb;
  }

  lemma {:induction false} TotalAppend(fs: seq<Flight>, gs: seq<Flight>, debt: Flight -> multiset<Receipt>)
    ensures Total(fs + gs, debt) == Total(fs, debt) + Total(gs, debt)
  {
    if gs == [] {
      assert fs + gs == fs;
    } else {
      TotalAppend(fs, gs[..|gs| - 1], debt);
      assert (fs + gs)[..|fs + gs| - 1] == fs + gs[..|gs| - 1];
    }
  }

  lemma TotalOne(f: Flight, debt: Flight -> multiset<Receipt>)
    ensures Total([f], debt) == debt(f)
  {
    assert [f][..0] == [];
  }

  lemma TotalAround(fs: seq<Flight>, f: Flight, gs: seq<Flight>, debt: Flight -> multiset<Receipt>)
    ensures Total(fs + ([f] + gs), debt) == Total(fs + gs, debt) + debt(f)
  {
    TotalAppend(fs, [f] + gs, debt);
    TotalAppend([f], gs, debt);
    TotalOne(f, debt);
    TotalAppend(fs, gs, debt);
  }

  lemma TotalWithout(fs: seq<Flight>, i: nat, debt: Flight -> multiset<Receipt>)
    requires i < |fs|
    ensures Total(fs, debt) == Total(fs[..i] + fs[i + 1..], debt) + debt(fs[i])
  {
    TotalAround(fs[..i], fs[i], fs[i + 1..], debt);
    assert fs == fs[..i] + ([fs[i]] + fs[i + 1..]);
  }

  // ---------------------------------------------------------------- the network

  type Distance = (NodeId, NodeId) -> nat

  /** Each relay routes to every other relay, over a session to a relay nearer to it. */
  ghost predicate Shortens(net: Net, links: Links, routes: Routes, dist: Distance) {
    forall u, n | u in net.relays && n in net.relays && n != u ::
      u in routes && n in routes[u] && (u, routes[u][n]) in links
      && dist(links[(u, routes[u][n])].0, n) < dist(u, n)
  }

  /** Routes name relays of the network only, and no relay routes to itself. */
  ghost predicate RoutesWithin(net: Net, routes: Routes) {
    forall u | u in routes :: routes[u].Keys <= net.relays.Keys - {u}
  }

  /** No session has used up the 32-bit ids. */
  ghost predicate IdsFit(net: Net) {
    forall u, e | u in net.relays && e in net.relays[u].sessions :: net.relays[u].sessions[e].nextCtx <= 0x1_0000_0000
  }

  ghost predicate Ready(net: Net, links: Links, routes: Routes, dist: Distance) {
    Settled(net, links, routes) && Shortens(net, links, routes, dist) && RoutesWithin(net, routes) && IdsFit(net)
  }

  lemma {:induction false} LogWithin(log: seq<SnsMsg>, ok: set<NodeId>, id: SnsId)
    requires GrowingLog(log, ok) && id in Replay(log)
    ensures Replay(log)[id] <= ok
  {
    if log != [] && id in Replay(log[..|log| - 1]) {
      LogWithin(log[..|log| - 1], ok, id);
    }
  }

  /** An end that has read everything was told all that the sender's session has sent. */
  lemma ToldIsReplay(net: Net, links: Links, x: End)
    requires x in links && ReadCount(net, x) == |Wire(net, links, x)|
    requires links[x].0 in net.relays && links[x].1 in net.relays[links[x].0].sessions
    ensures Told(net, links, x) == Replay(net.relays[links[x].0].sessions[links[x].1].sent)
  {
    var log := net.relays[links[x].0].sessions[links[x].1].sent;
    assert Wire(net, links, x) == log;
    assert Prefix(log, |log|) == log;
  }

  /** What a settled network says of one end: its relay splits every set it was told of, and it was
      told all that the other end sent. */
  ghost predicate EndSettled(net: Net, links: Links, routes: Routes, x: End) {
    && x in links && links[x] in links && links[links[x]] == x
    && x.0 in net.relays && x.0 in routes && net.relays[x.0].best == routes[x.0]
    && GrowRelay(net.relays[x.0]) && RelayWired(net.relays[x.0], x.0, links)
    && RowsSplit(net.relays[x.0], x.1, Told(net, links, x))
    && links[x].0 in net.relays && links[x].1 in net.relays[links[x].0].sessions
    && Told(net, links, x) == Replay(net.relays[links[x].0].sessions[links[x].1].sent)
  }

  lemma SettledEnd(net: Net, links: Links, routes: Routes, x: End)
    requires Settled(net, links, routes) && x in links
    ensures EndSettled(net, links, routes, x)
  {
    SettledInv(net, links, routes);
    EndRelay(net, links, x);
    EndRelay(net, links, links[x]);
    ToldIsReplay(net, links, x);
    assert GrowEnd(net, links, x);
  }

  /** A relay after the ingress set `nodes` of end `x`: each part of the set leaves by a session of
      its own, other than the ingress, and the far end of that session was told exactly that part. */
  ghost predicate PartTold(net: Net, links: Links, x: End, id: SnsId, nodes: set<NodeId>, e: SessionId) {
    var r := RelayAt(net, x.0);
    && e in Row(r, (x.1, id)) && e != x.1 && (x.0, e) in links
    && var out := Row(r, (x.1, id))[e].outSns;
       0 <= out < 0x1_0000_0000
       && out in Told(net, links, links[(x.0, e)])
       && Told(net, links, links[(x.0, e)])[out] == Via(r, nodes, e)
  }

  ghost predicate Routed(net: Net, links: Links, x: End, id: SnsId, nodes: set<NodeId>) {
    var r := RelayAt(net, x.0);
    && r.self == x.0
    && (forall n | n in nodes :: HasEgress(r, n) && (n != r.self ==> EgressOf(r, n) != SELF))
    && Row(r, (x.1, id)).Keys == Targets(r, nodes)
    && (forall e | e in Targets(r, nodes) && e != SELF :: PartTold(net, links, x, id, nodes, e))
  }

  /** The sender of a set routes its nodes over the session, so the receiver is nearer to them. */
  lemma SenderRoutes(net: Net, links: Links, routes: Routes, dist: Distance, x: End, id: SnsId, n: NodeId)
    requires EndSettled(net, links, routes, x) && EndSettled(net, links, routes, links[x])
    requires Shortens(net, links, routes, dist) && RoutesWithin(net, routes)
    requires id in Told(net, links, x) && n in Told(net, links, x)[id]
    ensures n in net.relays && dist(x.0, n) < dist(links[x].0, n)
  {
    var u, e := links[x].0, links[x].1;
    var sender := net.relays[u].sessions[e];
    assert GrowSession(sender, Behind(net.relays[u].best, e));
    LogWithin(sender.sent, Behind(net.relays[u].best, e), id);
    assert n in routes[u] && routes[u][n] == e;
  }

  /** A node of an ingress set is routed on, never back. */
  ghost predicate RoutedOn(net: Net, links: Links, dist: Distance, x: End, n: NodeId) {
    var r := RelayAt(net, x.0);
    && HasEgress(r, n) && EgressOf(r, n) != x.1
    && (n != x.0 ==> (x.0, EgressOf(r, n)) in links && EgressOf(r, n) != SELF
                     && dist(links[(x.0, EgressOf(r, n))].0, n) < dist(x.0, n))
  }

  lemma NodeRoutedOn(net: Net, links: Links, routes: Routes, dist: Distance, x: End, id: SnsId, n: NodeId)
    requires EndSettled(net, links, routes, x) && EndSettled(net, links, routes, links[x]) && x.1 != SELF
    requires ValidLinks(links) && Shortens(net, links, routes, dist) && RoutesWithin(net, routes)
    requires id in Told(net, links, x) && n in Told(net, links, x)[id]
    ensures RoutedOn(net, links, dist, x, n)
  {
    SenderRoutes(net, links, routes, dist, x, id, n);
    var r := net.relays[x.0];
    if n != x.0 {
      assert (x.0, routes[x.0][n]) in links;
      assert r.best[n] in r.sessions;
    }
  }

  /** What the far end of session `e` of relay `r` was told of a set that `e` holds. */
  lemma SetTold(r: Relay, e: SessionId, key: Ingress, told: map<SnsId, set<NodeId>>)
    requires RelayInv(r) && e in r.sessions && r.sessions[e].connected && key in r.sessions[e].peerSns
    requires told == Replay(r.sessions[e].sent)
    ensures var s := r.sessions[e].peerSns[key];
            0 < s.id < r.sessions[e].nextCtx && s.id in told && told[s.id] == s.nodes
  {
    assert SessionInv(r.sessions[e]);
  }

  lemma SettledPart(net: Net, links: Links, routes: Routes, x: End, id: SnsId, nodes: set<NodeId>, e: SessionId)
    requires EndSettled(net, links, routes, x) && IdsFit(net)
    requires RowSplits(net.relays[x.0], (x.1, id), nodes)
    requires e in Targets(net.relays[x.0], nodes) && e != SELF && e != x.1
    requires (x.0, e) in links && EndSettled(net, links, routes, links[(x.0, e)]) && links[links[(x.0, e)]] == (x.0, e)
    ensures PartTold(net, links, x, id, nodes, e)
  {
    var r := net.relays[x.0];
    assert OutMatches(r, (x.1, id), e);
    SetTold(r, e, (x.1, id), Told(net, links, links[(x.0, e)]));
  }

  /** The tables of a network that is ready for data, end by end. */
  ghost predicate Tables(net: Net, links: Links, routes: Routes, dist: Distance) {
    && ValidLinks(links) && (forall x | x in links :: EndSettled(net, links, routes, x))
    && Shortens(net, links, routes, dist) && RoutesWithin(net, routes) && IdsFit(net)
  }

  lemma ReadyTables(net: Net, links: Links, routes: Routes, dist: Distance)
    requires Ready(net, links, routes, dist)
    ensures Tables(net, links, routes, dist)
  {
    SettledInv(net, links, routes);
    forall x | x in links ensures EndSettled(net, links, routes, x) {
      SettledEnd(net, links, routes, x);
    }
  }

  lemma TablesPart(net: Net, links: Links, routes: Routes, dist: Distance, x: End, id: SnsId, nodes: set<NodeId>, e: SessionId)
    requires Tables(net, links, routes, dist) && x in links
    requires SplitsOnward(net, links, dist, x, id, nodes)
    requires e in Targets(net.relays[x.0], nodes) && e != SELF
    ensures PartTold(net, links, x, id, nodes, e)
  {
    assert EndSettled(net, links, routes, x);
    var n :| n in nodes && HasEgress(net.relays[x.0], n) && EgressOf(net.relays[x.0], n) == e;
    assert RoutedOn(net, links, dist, x, n);
    assert EndSettled(net, links, routes, links[(x.0, e)]);
    SettledPart(net, links, routes, x, id, nodes, e);
  }

  /** The row of an ingress set splits it, and sends every node onward. */
  ghost predicate SplitsOnward(net: Net, links: Links, dist: Distance, x: End, id: SnsId, nodes: set<NodeId>) {
    && x.0 in net.relays && net.relays[x.0].self == x.0
    && RowSplits(net.relays[x.0], (x.1, id), nodes)
    && (forall n | n in nodes :: RoutedOn(net, links, dist, x, n))
  }

  lemma TablesOnward(net: Net, links: Links, routes: Routes, dist: Distance, x: End, id: SnsId)
    requires Tables(net, links, routes, dist) && x in links && id in Told(net, links, x)
    ensures SplitsOnward(net, links, dist, x, id, Told(net, links, x)[id])
  {
    assert EndSettled(net, links, routes, x);
    assert EndSettled(net, links, routes, links[x]);
    forall n | n in Told(net, links, x)[id] ensures RoutedOn(net, links, dist, x, n) {
      NodeRoutedOn(net, links, routes, dist, x, id, n);
    }
  }

  lemma PartsRouted(net: Net, links: Links, dist: Distance, x: End, id: SnsId, nodes: set<NodeId>)
    requires SplitsOnward(net, links, dist, x, id, nodes)
    requires forall e | e in Targets(net.relays[x.0], nodes) && e != SELF :: PartTold(net, links, x, id, nodes, e)
    ensures Routed(net, links, x, id, nodes)
  {
    var r := net.relays[x.0];
    forall n | n in nodes ensures HasEgress(r, n) && (n != r.self ==> EgressOf(r, n) != SELF) {
      assert RoutedOn(net, links, dist, x, n);
    }
  }

  lemma TablesRouted(net: Net, links: Links, routes: Routes, dist: Distance, x: End, id: SnsId)
    requires Tables(net, links, routes, dist) && x in links && id in Told(net, links, x)
    ensures Routed(net, links, x, id, Told(net, links, x)[id])
  {
    var nodes := Told(net, links, x)[id];
    TablesOnward(net, links, routes, dist, x, id);
    forall e | e in Targets(net.relays[x.0], nodes) && e != SELF ensures PartTold(net, links, x, id, nodes, e) {
      TablesPart(net, links, routes, dist, x, id, nodes, e);
    }
    PartsRouted(net, links, dist, x, id, nodes);
  }

  // ---------------------------------------------------------------- one landing

  ghost predicate FlightOk(net: Net, links: Links, f: Flight) {
    f.at in links && FullHeader(f.data, NEW_STREAM) && SnsOf(f) in Told(net, links, f.at)
  }

  /** Nodes that leave by one of the sessions `es`. */
  ghost function Beyond(r: Relay, nodes: set<NodeId>, es: set<SessionId>): set<NodeId> {
    set n | n in nodes && HasEgress(r, n) && EgressOf(r, n) in es && EgressOf(r, n) != SELF
  }

  lemma BeyondOne(r: Relay, nodes: set<NodeId>, es: set<SessionId>, e: SessionId)
    requires e !in es
    ensures Beyond(r, nodes, es + {e}) == Beyond(r, nodes, es) + PartBehind(r, nodes, e)
    ensures Beyond(r, nodes, es) !! PartBehind(r, nodes, e)
  {
  }

  lemma CopyReads(links: Links, row: FibRow, f: Flight, e: SessionId)
    requires FullHeader(f.data, NEW_STREAM) && e in row && e != SELF && e != f.at.1
    ensures var cs := CopyTo(links, row, f, e);
            && |cs| == 1 && cs == [cs[0]] && cs[0].at == FarEnd(links, (f.at.0, e))
            && FullHeader(cs[0].data, NEW_STREAM) && SnsOf(cs[0]) == row[e].outSns % 0x1_0000_0000
            && TrackOf(cs[0]) == TrackOf(f) && PayloadOf(cs[0]) == PayloadOf(f)
  {
    RewriteKeepsHeader(f.data, row[e].outSns);
    assert OutData(row[e], NewChunk(f)) == Rewrite(f.data, row[e].outSns);
  }

  /** The copy for one egress owes exactly the part of the set behind it. */
  lemma CopyOwes(net: Net, links: Links, subs: Subscribers, f: Flight, nodes: set<NodeId>, e: SessionId)
    requires FlightOk(net, links, f) && PartTold(net, links, f.at, SnsOf(f), nodes, e) && ValidLinks(links)
    requires e != SELF
    ensures var cs := CopyTo(links, IngressRow(net, f), f, e);
            |cs| == 1 && cs == [cs[0]] && FlightOk(net, links, cs[0])
            && cs[0].at == links[(f.at.0, e)]
            && ToldSet(net, links, cs[0].at, SnsOf(cs[0])) == Via(RelayAt(net, f.at.0), nodes, e)
            && Owes(net, links, subs, cs[0]) ==
               Receipts(Via(RelayAt(net, f.at.0), nodes, e), TrackOf(f), PayloadOf(f), subs)
  {
    CopyReads(links, IngressRow(net, f), f, e);
  }

  ghost predicate FlightsOk(net: Net, links: Links, fs: seq<Flight>) {
    forall i | 0 <= i < |fs| :: FlightOk(net, links, fs[i])
  }

  lemma FlightsAppend(net: Net, links: Links, fs: seq<Flight>, gs: seq<Flight>)
    requires FlightsOk(net, links, fs) && FlightsOk(net, links, gs)
    ensures FlightsOk(net, links, fs + gs)
  {
  }

  /** Flights that can land and together owe one receipt for each subscriber among `nodes`. */
  ghost predicate OweFor(net: Net, links: Links, subs: Subscribers, fs: seq<Flight>,
                         nodes: set<NodeId>, track: nat, payload: seq<byte>) {
    FlightsOk(net, links, fs) && AllOwe(net, links, subs, fs) == Receipts(nodes, track, payload, subs)
  }

  lemma JoinOwes(net: Net, links: Links, subs: Subscribers, fs: seq<Flight>, gs: seq<Flight>,
                 a: set<NodeId>, b: set<NodeId>, track: nat, payload: seq<byte>)
    requires a !! b && OweFor(net, links, subs, fs, a, track, payload) && OweFor(net, links, subs, gs, b, track, payload)
    ensures OweFor(net, links, subs, fs + gs, a + b, track, payload)
  {
    FlightsAppend(net, links, fs, gs);
    TotalAppend(fs, gs, Debt(net, links, subs));
    ReceiptsApart(a, b, track, payload, subs);
  }

  /** What the first `k` of the egresses are sent. */
  function GatherTo(es: set<SessionId>, k: nat, send: SessionId -> seq<Flight>): seq<Flight> {
    if k <= |es| then Gather(Sorted(es)[..k], send) else []
  }

  lemma GatherNext(es: set<SessionId>, k: nat, send: SessionId -> seq<Flight>)
    requires k < |es|
    ensures GatherTo(es, k + 1, send) == GatherTo(es, k, send) + send(Sorted(es)[k])
  {
    GatherPrefix(Sorted(es), k, send);
  }

  lemma GatherPrefix(order: seq<SessionId>, k: nat, send: SessionId -> seq<Flight>)
    requires k < |order|
    ensures Gather(order[..k + 1], send) == Gather(order[..k], send) + send(order[k])
  {
    assert order[..k + 1][..k] == order[..k];
  }

  /** The part of a set that one egress of its row takes. */
  ghost function PartBehind(r: Relay, nodes: set<NodeId>, e: SessionId): set<NodeId> {
    if e == SELF then {} else Via(r, nodes, e)
  }

  lemma CopyOwesFor(net: Net, links: Links, subs: Subscribers, f: Flight, nodes: set<NodeId>, e: SessionId)
    requires FlightOk(net, links, f) && ValidLinks(links)
    requires e != SELF ==> PartTold(net, links, f.at, SnsOf(f), nodes, e)
    ensures OweFor(net, links, subs, CopyTo(links, IngressRow(net, f), f, e),
                   PartBehind(RelayAt(net, f.at.0), nodes, e), TrackOf(f), PayloadOf(f))
  {
    if e != SELF {
      CopyOwes(net, links, subs, f, nodes, e);
      TotalOne(CopyTo(links, IngressRow(net, f), f, e)[0], Debt(net, links, subs));
    }
  }

  /** The copies for the first `k` egresses `es` of a set owe what lies behind them. */
  ghost predicate PartsOwe(net: Net, links: Links, subs: Subscribers, f: Flight, nodes: set<NodeId>,
                           es: set<SessionId>, k: nat)
    requires k <= |es|
  {
    OweFor(net, links, subs, GatherTo(es, k, Copier(links, IngressRow(net, f), f)),
           Beyond(RelayAt(net, f.at.0), nodes, Seen(es, k)), TrackOf(f), PayloadOf(f))
  }

  lemma CopyIsNext(net: Net, links: Links, subs: Subscribers, f: Flight, nodes: set<NodeId>, es: set<SessionId>, k: nat)
    requires FlightOk(net, links, f) && ValidLinks(links) && k < |es|
    requires Sorted(es)[k] != SELF ==> PartTold(net, links, f.at, SnsOf(f), nodes, Sorted(es)[k])
    requires PartsOwe(net, links, subs, f, nodes, es, k)
    ensures PartsOwe(net, links, subs, f, nodes, es, k + 1)
  {
    var r, row, e := RelayAt(net, f.at.0), IngressRow(net, f), Sorted(es)[k];
    SeeOne(es, k);
    GatherNext(es, k, Copier(links, row, f));
    BeyondOne(r, nodes, Seen(es, k), e);
    CopyOwesFor(net, links, subs, f, nodes, e);
    JoinOwes(net, links, subs, GatherTo(es, k, Copier(links, row, f)), CopyTo(links, row, f, e),
             Beyond(r, nodes, Seen(es, k)), PartBehind(r, nodes, e), TrackOf(f), PayloadOf(f));
  }

  lemma {:induction false} CopiesOwe(net: Net, links: Links, subs: Subscribers, f: Flight, nodes: set<NodeId>,
                                     es: set<SessionId>, k: nat)
    requires FlightOk(net, links, f) && ValidLinks(links) && k <= |es|
    requires forall e | e in es && e != SELF :: PartTold(net, links, f.at, SnsOf(f), nodes, e)
    ensures PartsOwe(net, links, subs, f, nodes, es, k)
  {
    if k == 0 {
      NoneOwe(net, links, subs, f, nodes, es);
    } else {
      CopiesOwe(net, links, subs, f, nodes, es, k - 1);
      SeeOne(es, k - 1);
      CopyIsNext(net, links, subs, f, nodes, es, k - 1);
    }
  }

  lemma NoneOwe(net: Net, links: Links, subs: Subscribers, f: Flight, nodes: set<NodeId>, es: set<SessionId>)
    ensures PartsOwe(net, links, subs, f, nodes, es, 0)
  {
    SeenNone(es);
    assert Beyond(RelayAt(net, f.at.0), nodes, {}) == {};
  }

  lemma BeyondAll(r: Relay, nodes: set<NodeId>)
    requires forall n | n in nodes :: HasEgress(r, n) && (n != r.self ==> EgressOf(r, n) != SELF)
    ensures Beyond(r, nodes, Targets(r, nodes)) == nodes - {r.self}
    ensures SELF in Targets(r, nodes) <==> r.self in nodes
  {
    if r.self in nodes {
      assert EgressOf(r, r.self) == SELF;
    }
    forall n | n in nodes ensures EgressOf(r, n) in Targets(r, nodes) {
    }
  }

  /** What the client manager hears is what the stream owed its own relay. */
  lemma HeardOwes(net: Net, subs: Subscribers, f: Flight, nodes: set<NodeId>)
    requires SELF in IngressRow(net, f) <==> f.at.0 in nodes
    ensures HeardBy(subs, IngressRow(net, f), f) == Receipts(nodes * {f.at.0}, TrackOf(f), PayloadOf(f), subs)
  {
    var u, t, p := f.at.0, TrackOf(f), PayloadOf(f);
    var rs := ReceiptSet(nodes * {u}, t, p, subs);
    if u in nodes && (u, t) in subs {
      assert rs == {(u, t, p)};
    } else {
      assert rs == {};
    }
  }

  lemma GatherAll(es: set<SessionId>, send: SessionId -> seq<Flight>)
    ensures GatherTo(es, |es|, send) == Gather(Sorted(es), send)
  {
    assert Sorted(es)[..|es|] == Sorted(es);
  }

  /** One landing: what was owed is now heard or owed by the copies. */
  lemma LandingOwes(net: Net, links: Links, subs: Subscribers, f: Flight, nodes: set<NodeId>)
    requires FlightOk(net, links, f) && ValidLinks(links) && Routed(net, links, f.at, SnsOf(f), nodes)
    requires nodes == Told(net, links, f.at)[SnsOf(f)]
    ensures var row := IngressRow(net, f);
            var cs := Copies(links, row, f, Sorted(row.Keys));
            && FlightsOk(net, links, cs)
            && Owes(net, links, subs, f) == AllOwe(net, links, subs, cs) + HeardBy(subs, row, f)
  {
    var r, row := RelayAt(net, f.at.0), IngressRow(net, f);
    var es := Targets(r, nodes);
    CopiesOwe(net, links, subs, f, nodes, es, |es|);
    GatherAll(es, Copier(links, row, f));
    BeyondAll(r, nodes);
    HeardOwes(net, subs, f, nodes);
    ReceiptsApart(nodes - {r.self}, nodes * {r.self}, TrackOf(f), PayloadOf(f), subs);
    assert (nodes - {r.self}) + (nodes * {r.self}) == nodes;
  }

  lemma WithoutOk(net: Net, links: Links, fs: seq<Flight>, i: nat)
    requires FlightsOk(net, links, fs) && i < |fs|
    ensures FlightsOk(net, links, fs[..i] + fs[i + 1..])
  {
  }

  ghost function Worth(net: Net, links: Links, subs: Subscribers, air: Air): multiset<Receipt> {
    air.received + AllOwe(net, links, subs, air.flights)
  }

  lemma WorthKept(air: Air, i: nat, cs: seq<Flight>, heard: multiset<Receipt>, debt: Flight -> multiset<Receipt>)
    requires i < |air.flights| && debt(air.flights[i]) == Total(cs, debt) + heard
    ensures air.received + Total(air.flights, debt) ==
            (air.received + heard) + Total(air.flights[..i] + air.flights[i + 1..] + cs, debt)
  {
    TotalWithout(air.flights, i, debt);
    TotalAppend(air.flights[..i] + air.flights[i + 1..], cs, debt);
  }

  lemma LandFlights(net: Net, links: Links, fs: seq<Flight>, i: nat, cs: seq<Flight>)
    requires FlightsOk(net, links, fs) && i < |fs| && FlightsOk(net, links, cs)
    ensures FlightsOk(net, links, fs[..i] + fs[i + 1..] + cs)
  {
    WithoutOk(net, links, fs, i);
    FlightsAppend(net, links, fs[..i] + fs[i + 1..], cs);
  }

  /** Conservation: a landing changes neither what is received plus owed, nor that copies can land. */
  lemma LandConserves(net: Net, links: Links, routes: Routes, dist: Distance, subs: Subscribers, air: Air, i: nat)
    requires Tables(net, links, routes, dist) && FlightsOk(net, links, air.flights) && i < |air.flights|
    ensures FlightsOk(net, links, Land(net, links, subs, air, i).flights)
    ensures Worth(net, links, subs, Land(net, links, subs, air, i)) == Worth(net, links, subs, air)
  {
    var f := air.flights[i];
    var row := IngressRow(net, f);
    var cs := Copies(links, row, f, Sorted(row.Keys));
    assert FlightOk(net, links, f);
    TablesRouted(net, links, routes, dist, f.at, SnsOf(f));
    LandingOwes(net, links, subs, f, Told(net, links, f.at)[SnsOf(f)]);
    LandFlights(net, links, air.flights, i, cs);
    WorthKept(air, i, cs, HeardBy(subs, row, f), Debt(net, links, subs));
  }

  // ---------------------------------------------------------------- runs

  ghost predicate CanLand(net: Net, links: Links, subs: Subscribers, air: Air, steps: seq<nat>)
    decreases |steps|
  {
    steps == [] ||
    (steps[0] < |air.flights| && CanLand(net, links, subs, Land(net, links, subs, air, steps[0]), steps[1..]))
  }

  ghost function Landed(net: Net, links: Links, subs: Subscribers, air: Air, steps: seq<nat>): Air
    requires CanLand(net, links, subs, air, steps)
    decreases |steps|
  {
    if steps == [] then air else Landed(net, links, subs, Land(net, links, subs, air, steps[0]), steps[1..])
  }

  lemma {:induction false} LandedConserves(net: Net, links: Links, routes: Routes, dist: Distance,
                                           subs: Subscribers, air: Air, steps: seq<nat>)
    requires Tables(net, links, routes, dist) && FlightsOk(net, links, air.flights)
    requires CanLand(net, links, subs, air, steps)
    ensures Worth(net, links, subs, Landed(net, links, subs, air, steps)) == Worth(net, links, subs, air)
    decreases |steps|
  {
    if steps != [] {
      LandConserves(net, links, routes, dist, subs, air, steps[0]);
      LandedConserves(net, links, routes, dist, subs, Land(net, links, subs, air, steps[0]), steps[1..]);
    }
  }

  lemma ReceiptOnce(nodes: set<NodeId>, track: nat, payload: seq<byte>, subs: Subscribers, receipt: Receipt)
    ensures Receipts(nodes, track, payload, subs)[receipt] ==
            if receipt.0 in nodes && (receipt.0, track) in subs && receipt.1 == track && receipt.2 == payload then 1 else 0
  {
    var rs := ReceiptSet(nodes, track, payload, subs);
    assert receipt == (receipt.0, receipt.1, receipt.2);
    assert multiset(rs)[receipt] == if receipt in rs then 1 else 0;
    var n := receipt.0;
    if n in nodes && (n, track) in subs {
      assert (n, track, payload) in rs;
    }
  }

  /** The air when only `f` is in flight. */
  function Launch(f: Flight): Air {
    Air([f], multiset{})
  }

  lemma WorthOfOne(net: Net, links: Links, subs: Subscribers, f: Flight)
    ensures Worth(net, links, subs, Launch(f)) == Owes(net, links, subs, f)
  {
    TotalOne(f, Debt(net, links, subs));
  }

  lemma WorthOfNone(net: Net, links: Links, subs: Subscribers, air: Air)
    requires air.flights == []
    ensures Worth(net, links, subs, air) == air.received
  {
  }

  /** Once nothing is in flight, everything owed has been received, whatever the order of landings. */
  lemma AllLanded(net: Net, links: Links, routes: Routes, dist: Distance, subs: Subscribers, air: Air, steps: seq<nat>)
    requires Tables(net, links, routes, dist) && FlightsOk(net, links, air.flights)
    requires CanLand(net, links, subs, air, steps)
    requires Landed(net, links, subs, air, steps).flights == []
    ensures Landed(net, links, subs, air, steps).received == Worth(net, links, subs, air)
  {
    LandedConserves(net, links, routes, dist, subs, air, steps);
    WorthOfNone(net, links, subs, Landed(net, links, subs, air, steps));
  }

  lemma LaunchOk(net: Net, links: Links, f: Flight)
    requires FlightOk(net, links, f)
    ensures FlightsOk(net, links, Launch(f).flights)
  {
  }

  lemma TablesOnce(net: Net, links: Links, routes: Routes, dist: Distance, subs: Subscribers,
                   f: Flight, air: Air, steps: seq<nat>, receipt: Receipt)
    requires Tables(net, links, routes, dist) && FlightOk(net, links, f) && air == Launch(f)
    requires CanLand(net, links, subs, air, steps) && Landed(net, links, subs, air, steps).flights == []
    ensures Landed(net, links, subs, air, steps).received[receipt] == Owes(net, links, subs, f)[receipt]
  {
    LaunchOk(net, links, f);
    AllLanded(net, links, routes, dist, subs, air, steps);
    WorthOfOne(net, links, subs, f);
  }

  lemma OwesOnce(net: Net, links: Links, subs: Subscribers, f: Flight, receipt: Receipt)
    requires FlightOk(net, links, f)
    ensures var nodes := Told(net, links, f.at)[SnsOf(f)];
            Owes(net, links, subs, f)[receipt] ==
            if receipt.0 in nodes && (receipt.0, TrackOf(f)) in subs && receipt.1 == TrackOf(f) && receipt.2 == PayloadOf(f)
            then 1 else 0
  {
    ReceiptOnce(Told(net, links, f.at)[SnsOf(f)], TrackOf(f), PayloadOf(f), subs, receipt);
  }

  /** Exactly-once delivery: a stream that entered with the set `nodes` has, once nothing is in
      flight, been given to the client manager of each subscribing relay of the set once, and to no
      other, with its payload unchanged. */
  lemma ExactlyOnce(net: Net, links: Links, routes: Routes, dist: Distance, subs: Subscribers,
                    f: Flight, steps: seq<nat>, receipt: Receipt)
    requires Ready(net, links, routes, dist) && FlightOk(net, links, f)
    requires CanLand(net, links, subs, Launch(f), steps)
    requires Landed(net, links, subs, Launch(f), steps).flights == []
    ensures var nodes := Told(net, links, f.at)[SnsOf(f)];
            Landed(net, links, subs, Launch(f), steps).received[receipt] ==
            if receipt.0 in nodes && (receipt.0, TrackOf(f)) in subs && receipt.1 == TrackOf(f) && receipt.2 == PayloadOf(f)
            then 1 else 0
  {
    ReadyTables(net, links, routes, dist);
    TablesOnce(net, links, routes, dist, subs, f, Launch(f), steps, receipt);
    OwesOnce(net, links, subs, f, receipt);
  }

  // ---------------------------------------------------------------- every stream lands

  ghost function SumOver(nodes: set<NodeId>, w: NodeId -> nat): nat {
    if nodes == {} then 0 else w(Max(nodes)) + SumOver(nodes - {Max(nodes)}, w)
  }

  lemma {:induction false} SumWithout(nodes: set<NodeId>, n: NodeId, w: NodeId -> nat)
    requires n in nodes
    ensures SumOver(nodes, w) == w(n) + SumOver(nodes - {n}, w)
  {
    var m := Max(nodes);
    if n != m {
      SumWithout(nodes - {m}, n, w);
      SumWithout(nodes - {n}, m, w);
      assert nodes - {m} - {n} == nodes - {n} - {m};
    }
  }

  lemma {:induction false} SumApart(a: set<NodeId>, b: set<NodeId>, w: NodeId -> nat)
    requires a !! b
    ensures SumOver(a + b, w) == SumOver(a, w) + SumOver(b, w)
  {
    if b == {} {
      assert a + b == a;
    } else {
      var m := Max(b);
      SumApart(a, b - {m}, w);
      SumWithout(a + b, m, w);
      assert a + b - {m} == a + (b - {m});
    }
  }

  /** Where every term is smaller, so is the sum, by at least one for each term. */
  lemma {:induction false} SumSmaller(nodes: set<NodeId>, w: NodeId -> nat, w': NodeId -> nat)
    requires forall n | n in nodes :: w(n) < w'(n)
    ensures SumOver(nodes, w) + |nodes| <= SumOver(nodes, w')
  {
    if nodes != {} {
      SumSmaller(nodes - {Max(nodes)}, w, w');
    }
  }

  ghost function From(dist: Distance, u: NodeId): NodeId -> nat {
    n => dist(u, n)
  }

  /** One more than the hops a stream may still take. */
  ghost function Weight(net: Net, links: Links, dist: Distance): Flight -> nat {
    (f: Flight) => 1 + SumOver(ToldSet(net, links, f.at, SnsOf(f)), From(dist, f.at.0))
  }

  ghost function Load(fs: seq<Flight>, w: Flight -> nat): nat {
    if fs == [] then 0 else Load(fs[..|fs| - 1], w) + w(fs[|fs| - 1])
  }

  lemma {:induction false} LoadAppend(fs: seq<Flight>, gs: seq<Flight>, w: Flight -> nat)
    ensures Load(fs + gs, w) == Load(fs, w) + Load(gs, w)
  {
    if gs == [] {
      assert fs + gs == fs;
    } else {
      LoadAppend(fs, gs[..|gs| - 1], w);
      assert (fs + gs)[..|fs + gs| - 1] == fs + gs[..|gs| - 1];
    }
  }

  lemma LoadOne(f: Flight, w: Flight -> nat)
    ensures Load([f], w) == w(f)
  {
    assert [f][..0] == [];
  }

  lemma LoadAround(fs: seq<Flight>, f: Flight, gs: seq<Flight>, w: Flight -> nat)
    ensures Load(fs + ([f] + gs), w) == Load(fs + gs, w) + w(f)
  {
    LoadAppend(fs, [f] + gs, w);
    LoadAppend([f], gs, w);
    LoadOne(f, w);
    LoadAppend(fs, gs, w);
  }

  lemma LoadWithout(fs: seq<Flight>, i: nat, w: Flight -> nat)
    requires i < |fs|
    ensures Load(fs, w) == Load(fs[..i] + fs[i + 1..], w) + w(fs[i])
  {
    LoadAround(fs[..i], fs[i], fs[i + 1..], w);
    assert fs == fs[..i] + ([fs[i]] + fs[i + 1..]);
  }

  /** A copy weighs no more than what its part of the set weighed at the relay before. */
  lemma CopyWeighs(net: Net, links: Links, dist: Distance, f: Flight, nodes: set<NodeId>, e: SessionId)
    requires FlightOk(net, links, f) && ValidLinks(links)
    requires e != SELF && PartTold(net, links, f.at, SnsOf(f), nodes, e)
    requires Via(RelayAt(net, f.at.0), nodes, e) != {} && RelayAt(net, f.at.0).self == f.at.0
    requires forall n | n in nodes :: RoutedOn(net, links, dist, f.at, n)
    ensures Load(CopyTo(links, IngressRow(net, f), f, e), Weight(net, links, dist)) <=
            SumOver(Via(RelayAt(net, f.at.0), nodes, e), From(dist, f.at.0))
  {
    var r, u := RelayAt(net, f.at.0), f.at.0;
    var part, far := Via(r, nodes, e), links[(u, e)].0;
    CopyOwes(net, links, {}, f, nodes, e);
    var cs := CopyTo(links, IngressRow(net, f), f, e);
    LoadOne(cs[0], Weight(net, links, dist));
    forall n | n in part ensures From(dist, far)(n) < From(dist, u)(n) {
      assert RoutedOn(net, links, dist, f.at, n);
    }
    SumSmaller(part, From(dist, far), From(dist, u));
  }

  /** The copy for `e`, if any, weighs no more than the nodes behind `e` did. */
  ghost predicate CopyLight(net: Net, links: Links, dist: Distance, f: Flight, nodes: set<NodeId>, e: SessionId) {
    Load(CopyTo(links, IngressRow(net, f), f, e), Weight(net, links, dist)) <=
    SumOver(PartBehind(RelayAt(net, f.at.0), nodes, e), From(dist, f.at.0))
  }

  lemma CopyIsLight(net: Net, links: Links, dist: Distance, f: Flight, nodes: set<NodeId>, e: SessionId)
    requires FlightOk(net, links, f) && ValidLinks(links) && RelayAt(net, f.at.0).self == f.at.0
    requires e in Targets(RelayAt(net, f.at.0), nodes)
    requires e != SELF ==> PartTold(net, links, f.at, SnsOf(f), nodes, e)
    requires forall n | n in nodes :: RoutedOn(net, links, dist, f.at, n)
    ensures CopyLight(net, links, dist, f, nodes, e)
  {
    if e != SELF {
      var n :| n in nodes && HasEgress(RelayAt(net, f.at.0), n) && EgressOf(RelayAt(net, f.at.0), n) == e;
      assert n in Via(RelayAt(net, f.at.0), nodes, e);
      CopyWeighs(net, links, dist, f, nodes, e);
    }
  }

  /** The copies for the first `k` egresses weigh no more than the nodes behind them did. */
  ghost predicate PartsWeigh(net: Net, links: Links, dist: Distance, f: Flight, nodes: set<NodeId>,
                             es: set<SessionId>, k: nat)
    requires k <= |es|
  {
    Load(GatherTo(es, k, Copier(links, IngressRow(net, f), f)), Weight(net, links, dist)) <=
    SumOver(Beyond(RelayAt(net, f.at.0), nodes, Seen(es, k)), From(dist, f.at.0))
  }

  lemma WeighNext(net: Net, links: Links, dist: Distance, f: Flight, nodes: set<NodeId>, es: set<SessionId>, k: nat)
    requires k < |es| && PartsWeigh(net, links, dist, f, nodes, es, k)
    requires CopyLight(net, links, dist, f, nodes, Sorted(es)[k])
    ensures PartsWeigh(net, links, dist, f, nodes, es, k + 1)
  {
    var r, row, e := RelayAt(net, f.at.0), IngressRow(net, f), Sorted(es)[k];
    SeeOne(es, k);
    GatherNext(es, k, Copier(links, row, f));
    LoadAppend(GatherTo(es, k, Copier(links, row, f)), CopyTo(links, row, f, e), Weight(net, links, dist));
    BeyondOne(r, nodes, Seen(es, k), e);
    SumApart(Beyond(r, nodes, Seen(es, k)), PartBehind(r, nodes, e), From(dist, f.at.0));
  }

  lemma {:induction false} CopiesWeigh(net: Net, links: Links, dist: Distance, f: Flight, nodes: set<NodeId>,
                                       es: set<SessionId>, k: nat)
    requires k <= |es| && forall e | e in es :: CopyLight(net, links, dist, f, nodes, e)
    ensures PartsWeigh(net, links, dist, f, nodes, es, k)
  {
    if k == 0 {
      assert GatherTo(es, 0, Copier(links, IngressRow(net, f), f)) == [];
    } else {
      CopiesWeigh(net, links, dist, f, nodes, es, k - 1);
      SeeOne(es, k - 1);
      WeighNext(net, links, dist, f, nodes, es, k - 1);
    }
  }

  lemma SumWithin(a: set<NodeId>, b: set<NodeId>, w: NodeId -> nat)
    requires a <= b
    ensures SumOver(a, w) <= SumOver(b, w)
  {
    SumApart(a, b - a, w);
    assert a + (b - a) == b;
  }

  lemma LandingWeighs(net: Net, links: Links, dist: Distance, f: Flight, nodes: set<NodeId>)
    requires FlightOk(net, links, f) && ValidLinks(links) && Routed(net, links, f.at, SnsOf(f), nodes)
    requires nodes == Told(net, links, f.at)[SnsOf(f)]
    requires forall n | n in nodes :: RoutedOn(net, links, dist, f.at, n)
    ensures Load(Copies(links, IngressRow(net, f), f, Sorted(IngressRow(net, f).Keys)), Weight(net, links, dist)) <
            Weight(net, links, dist)(f)
  {
    var r := RelayAt(net, f.at.0);
    var es := Targets(r, nodes);
    forall e | e in es ensures CopyLight(net, links, dist, f, nodes, e) {
      CopyIsLight(net, links, dist, f, nodes, e);
    }
    CopiesWeigh(net, links, dist, f, nodes, es, |es|);
    GatherAll(es, Copier(links, IngressRow(net, f), f));
    SumWithin(Beyond(r, nodes, Seen(es, |es|)), nodes, From(dist, f.at.0));
  }

  lemma LandLightens(net: Net, links: Links, routes: Routes, dist: Distance, subs: Subscribers, air: Air, i: nat)
    requires Tables(net, links, routes, dist) && FlightsOk(net, links, air.flights) && i < |air.flights|
    ensures Load(Land(net, links, subs, air, i).flights, Weight(net, links, dist)) <
            Load(air.flights, Weight(net, links, dist))
  {
    var f, w := air.flights[i], Weight(net, links, dist);
    assert FlightOk(net, links, f);
    TablesRouted(net, links, routes, dist, f.at, SnsOf(f));
    TablesOnward(net, links, routes, dist, f.at, SnsOf(f));
    LandingWeighs(net, links, dist, f, Told(net, links, f.at)[SnsOf(f)]);
    LoadWithout(air.flights, i, w);
    LoadAppend(air.flights[..i] + air.flights[i + 1..],
               Copies(links, IngressRow(net, f), f, Sorted(IngressRow(net, f).Keys)), w);
  }

  /** No run has more landings than the distances allow, so every stream comes to rest. */
  lemma {:induction false} LandingsBounded(net: Net, links: Links, routes: Routes, dist: Distance,
                                           subs: Subscribers, air: Air, steps: seq<nat>)
    requires Tables(net, links, routes, dist) && FlightsOk(net, links, air.flights)
    requires CanLand(net, links, subs, air, steps)
    ensures |steps| + Load(Landed(net, links, subs, air, steps).flights, Weight(net, links, dist)) <=
            Load(air.flights, Weight(net, links, dist))
    decreases |steps|
  {
    if steps != [] {
      LandConserves(net, links, routes, dist, subs, air, steps[0]);
      LandLightens(net, links, routes, dist, subs, air, steps[0]);
      LandingsBounded(net, links, routes, dist, subs, Land(net, links, subs, air, steps[0]), steps[1..]);
    }
  }
}
