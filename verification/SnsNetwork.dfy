/**
 Relays joined by peer sessions that exchange subscribe-node-sets over FIFO control streams.
 A run is any interleaving of local subscribes and unsubscribes, changes of a relay's best
 sessions, and deliveries of the next control message of a session.
 */
module SnsNetwork {
  import opened Ordered
  import opened Sessions
  import opened SnsRouting

  /** One end of a peer session: a relay and its own id for the session. */
  type End = (NodeId, SessionId)

  /** Joins the two ends of each session. */
  type Links = map<End, End>

  ghost predicate ValidLinks(links: Links) {
    forall x | x in links :: links[x] in links && links[links[x]] == x && x.1 != SELF
  }

  /** `read` counts the messages an end has taken from its control stream. */
  datatype Net = Net(relays: map<NodeId, Relay>, read: map<End, int>)

  /** Relay `u` has the id `u`, and a session exactly where one of its links ends. */
  ghost predicate RelayWired(r: Relay, u: NodeId, links: Links) {
    r.self == u && forall e :: e in r.sessions <==> (u, e) in links
  }

  ghost predicate Wired(net: Net, links: Links) {
    && ValidLinks(links)
    && (forall x | x in links :: x.0 in net.relays && x in net.read)
    && (forall u | u in net.relays :: RelayWired(net.relays[u], u, links))
  }

  function RelayAt(net: Net, u: NodeId): Relay {
    if u in net.relays then net.relays[u] else Relay(u, map[], map[], map[])
  }

  function SessionIn(r: Relay, e: SessionId): Session {
    if e in r.sessions then r.sessions[e] else NEW_SESSION
  }

  function SessionAt(net: Net, x: End): Session {
    SessionIn(RelayAt(net, x.0), x.1)
  }

  function FarEnd(links: Links, x: End): End {
    if x in links then links[x] else x
  }

  /** Everything ever put on the control stream that end `x` reads. */
  function Wire(net: Net, links: Links, x: End): seq<SnsMsg> {
    SessionAt(net, FarEnd(links, x)).sent
  }

  function ReadCount(net: Net, x: End): int {
    if x in net.read then net.read[x] else 0
  }

  function Prefix<T>(s: seq<T>, n: int): seq<T> {
    if 0 <= n <= |s| then s[..n] else s
  }

  datatype Step =
    | Subscribe(at: End, track: TrackHash, node: NodeId)
    | Unsubscribe(at: End, track: TrackHash, node: NodeId)
    | Reroute(relay: NodeId, best: map<NodeId, SessionId>)
    | Disconnect(at: End)
    | Receive(at: End, ref: int)

  function WithRelay(net: Net, r: Relay): Net {
    net.(relays := net.relays[r.self := r])
  }

  function WithSession(r: Relay, e: SessionId, s: Session): Relay {
    r.(sessions := r.sessions[e := s])
  }

  /** A relay whose session `e` is no longer connected: nothing more is sent on it, and the ingress rows
      of the session are purged. */
  function Disconnected(r: Relay, e: SessionId): Relay {
    WithSession(r, e, SessionIn(r, e).(connected := false)).(fib := RowsWithout(r.fib, e))
  }

  /** A relay takes one SNS message from session `from`. */
  function Take(r: Relay, from: SessionId, msg: SnsMsg, ref: int): Relay {
    match msg
    case Advertise(id, nodes) => OnAdvertise(r, (from, id), nodes, ref)
    case Withdraw(id) => OnWithdraw(r, (from, id))
  }

  /** The next message waiting at end `x`. */
  function Next(net: Net, links: Links, x: End): SnsMsg
    requires 0 <= ReadCount(net, x) < |Wire(net, links, x)|
  {
    Wire(net, links, x)[ReadCount(net, x)]
  }

  ghost predicate Enabled(net: Net, links: Links, step: Step) {
    match step
    case Subscribe(at, track, node) => at in links
    case Unsubscribe(at, track, node) => at in links
    case Reroute(relay, best) => relay in net.relays
    case Disconnect(at) => at in links
    case Receive(at, ref) =>
      && at in links
      && 0 <= ReadCount(net, at) < |Wire(net, links, at)|
      && FreshRef(RelayAt(net, at.0), (at.1, Next(net, links, at).id), ref)
  }

  /** The relay that a step changes, after the step. */
  function Changed(net: Net, links: Links, step: Step): Relay
    requires step.Receive? ==> 0 <= ReadCount(net, step.at) < |Wire(net, links, step.at)|
  {
    match step
    case Subscribe(at, track, node) =>
      WithSession(RelayAt(net, at.0), at.1, AddSub(SessionAt(net, at), track, node))
    case Unsubscribe(at, track, node) =>
      WithSession(RelayAt(net, at.0), at.1, RemoveSub(SessionAt(net, at), track, node))
    case Reroute(relay, best) => RelayAt(net, relay).(best := best)
    case Disconnect(at) => Disconnected(RelayAt(net, at.0), at.1)
    case Receive(at, ref) => Take(RelayAt(net, at.0), at.1, Next(net, links, at), ref)
  }

  function Apply(net: Net, links: Links, step: Step): Net
    requires step.Receive? ==> 0 <= ReadCount(net, step.at) < |Wire(net, links, step.at)|
  {
    var net' := WithRelay(net, Changed(net, links, step));
    if step.Receive? then net'.(read := net.read[step.at := ReadCount(net, step.at) + 1]) else net'
  }

  // ---------------------------------------------------------------- control streams only grow

  /** A session that has lost its connection does not get it back. */
  ghost predicate LogsGrow(r: Relay, r': Relay) {
    r'.sessions.Keys == r.sessions.Keys
    && forall e | e in r.sessions :: r.sessions[e].sent <= r'.sessions[e].sent
                                     && (r'.sessions[e].connected ==> r.sessions[e].connected)
  }

  lemma {:induction false} MarkAllLogs(r: Relay, key: Ingress, ref: int, ns: seq<NodeId>)
    ensures LogsGrow(r, MarkAll(r, key, ref, ns))
  {
    if ns != [] {
      MarkAllLogs(r, key, ref, ns[..|ns| - 1]);
    }
  }

  lemma TakeLogs(r: Relay, from: SessionId, msg: SnsMsg, ref: int)
    ensures LogsGrow(r, Take(r, from, msg, ref))
  {
    match msg
    case Advertise(id, nodes) =>
      MarkAllLogs(Opened(r, (from, id)), (from, id), ref, Sorted(nodes));
    case Withdraw(id) =>
  }

  lemma TakeKeepsRelay(r: Relay, from: SessionId, msg: SnsMsg, ref: int)
    requires RelayInv(r) && Coherent(r) && FreshRef(r, (from, msg.id), ref)
    ensures RelayInv(Take(r, from, msg, ref)) && Coherent(Take(r, from, msg, ref))
    ensures SameBut(r, Take(r, from, msg, ref), (from, msg.id))
    ensures (from, msg.id) in Take(r, from, msg, ref).fib <==> msg.Advertise?
  {
    match msg
    case Advertise(id, nodes) =>
      AdvertiseFrame(r, (from, id), nodes, ref);
      AdvertiseKeepsCoherent(r, (from, id), nodes, ref);
      AdvertiseRow(r, (from, id), nodes, ref);
    case Withdraw(id) =>
      WithdrawKeepsInv(r, (from, id));
      WithdrawKeepsCoherent(r, (from, id));
  }

  // ---------------------------------------------------------------- the invariant of every run

  /** The rows a relay keeps for a session are those of the sets it has been told of there. */
  ghost predicate RowsMatch(r: Relay, j: SessionId, told: map<SnsId, set<NodeId>>) {
    forall id :: (j, id) in r.fib <==> id in told
  }

  /** What end `x` has been told so far. */
  ghost function Told(net: Net, links: Links, x: End): map<SnsId, set<NodeId>> {
    Replay(Prefix(Wire(net, links, x), ReadCount(net, x)))
  }

  ghost predicate RelayOk(r: Relay) {
    RelayInv(r) && Coherent(r)
  }

  /** The same, as long as the session is connected. */
  ghost predicate RowsTold(r: Relay, j: SessionId, told: map<SnsId, set<NodeId>>) {
    SessionIn(r, j).connected ==> RowsMatch(r, j, told)
  }

  ghost predicate EndOk(net: Net, links: Links, x: End) {
    && 0 <= ReadCount(net, x) <= |Wire(net, links, x)|
    && RowsTold(RelayAt(net, x.0), x.1, Told(net, links, x))
  }

  ghost predicate NetInv(net: Net, links: Links) {
    && Wired(net, links)
    && (forall u | u in net.relays :: RelayOk(net.relays[u]))
    && (forall x | x in links :: EndOk(net, links, x))
  }

  /** After a step on relay `r'.self`, an end sees its old control stream or a longer one. */
  lemma WireGrows(net: Net, links: Links, r': Relay, x: End)
    requires Wired(net, links) && r'.self in net.relays && x in links
    requires LogsGrow(net.relays[r'.self], r')
    ensures Wire(net, links, x) <= Wire(WithRelay(net, r'), links, x)
  {
  }

  lemma RewiredSame(net: Net, links: Links, r': Relay)
    requires Wired(net, links) && r'.self in net.relays
    requires LogsGrow(net.relays[r'.self], r')
    ensures Wired(WithRelay(net, r'), links)
  {
    assert RelayWired(net.relays[r'.self], r'.self, links);
  }

  lemma PrefixGrows<T>(s: seq<T>, t: seq<T>, n: int)
    requires s <= t && 0 <= n <= |s|
    ensures Prefix(t, n) == Prefix(s, n)
  {
  }

  /** A relay keeps the rows of session `j`, unless that is no longer connected. */
  ghost predicate KeepsRows(r: Relay, r': Relay, j: SessionId) {
    SessionIn(r', j).connected ==> forall id :: (j, id) in r'.fib <==> (j, id) in r.fib
  }

  /** An end is not disturbed by a change of relay `r'.self` that keeps the rows of its session. */
  lemma EndUndisturbed(net: Net, links: Links, r': Relay, x: End)
    requires Wired(net, links) && r'.self in net.relays && x in links && EndOk(net, links, x)
    requires LogsGrow(net.relays[r'.self], r')
    requires r'.self == x.0 ==> KeepsRows(net.relays[x.0], r', x.1)
    ensures EndOk(WithRelay(net, r'), links, x)
  {
    WireGrows(net, links, r', x);
    PrefixGrows(Wire(net, links, x), Wire(WithRelay(net, r'), links, x), ReadCount(net, x));
  }

  lemma QuietEnd(net: Net, links: Links, r': Relay, x: End)
    requires NetInv(net, links) && r'.self in net.relays && x in links
    requires LogsGrow(net.relays[r'.self], r') && KeepsRows(net.relays[r'.self], r', x.1)
    ensures EndOk(WithRelay(net, r'), links, x)
  {
    assert EndOk(net, links, x);
    EndUndisturbed(net, links, r', x);
  }

  lemma RelayReplaced(net: Net, r': Relay, u: NodeId)
    requires forall v | v in net.relays :: RelayOk(net.relays[v])
    requires RelayOk(r') && u in WithRelay(net, r').relays
    ensures RelayOk(WithRelay(net, r').relays[u])
  {
    if u != r'.self {
      assert WithRelay(net, r').relays[u] == net.relays[u];
    }
  }

  /** A change of one relay that keeps its rows, lets its control streams grow and reads nothing. */
  lemma QuietStep(net: Net, links: Links, r': Relay)
    requires NetInv(net, links) && r'.self in net.relays
    requires LogsGrow(net.relays[r'.self], r')
    requires RelayOk(r') && forall j :: KeepsRows(net.relays[r'.self], r', j)
    ensures NetInv(WithRelay(net, r'), links)
  {
    RewiredSame(net, links, r');
    forall u | u in WithRelay(net, r').relays ensures RelayOk(WithRelay(net, r').relays[u]) {
      RelayReplaced(net, r', u);
    }
    forall x | x in links ensures EndOk(WithRelay(net, r'), links, x) {
      QuietEnd(net, links, r', x);
    }
  }

  /** The rows a message leaves are the ones it asks for. */
  lemma TakeRows(r: Relay, j: SessionId, msg: SnsMsg, ref: int, told: map<SnsId, set<NodeId>>)
    requires RelayOk(r) && FreshRef(r, (j, msg.id), ref)
    requires RowsTold(r, j, told)
    ensures RowsTold(Take(r, j, msg, ref), j, ReplayStep(told, msg))
    ensures RelayOk(Take(r, j, msg, ref)) && LogsGrow(r, Take(r, j, msg, ref))
    ensures forall i, id | i != j :: (i, id) in Take(r, j, msg, ref).fib <==> (i, id) in r.fib
  {
    TakeLogs(r, j, msg, ref);
    TakeKeepsRelay(r, j, msg, ref);
  }

  lemma OneMoreTold(wire: seq<SnsMsg>, wire': seq<SnsMsg>, n: int)
    requires wire <= wire' && 0 <= n < |wire|
    ensures Replay(Prefix(wire', n + 1)) == ReplayStep(Replay(Prefix(wire, n)), wire[n])
  {
    assert Prefix(wire', n + 1) == Prefix(wire, n) + [wire[n]];
    ReplayOne(Prefix(wire, n), wire[n]);
  }

  lemma EndRelay(net: Net, links: Links, x: End)
    requires NetInv(net, links) && x in links
    ensures x.0 in net.relays && RelayOk(net.relays[x.0]) && RelayWired(net.relays[x.0], x.0, links)
    ensures x.1 in net.relays[x.0].sessions && EndOk(net, links, x)
  {
    assert RelayWired(net.relays[x.0], x.0, links);
  }

  /** The network after end `x` has read one message and its relay has become `r'`. */
  function ReadOne(net: Net, x: End, r': Relay): Net {
    WithRelay(net, r').(read := net.read[x := ReadCount(net, x) + 1])
  }

  lemma ReaderEnd(net: Net, links: Links, x: End, r': Relay)
    requires Wired(net, links) && x in links && EndOk(net, links, x)
    requires ReadCount(net, x) < |Wire(net, links, x)|
    requires r'.self == x.0 && LogsGrow(net.relays[x.0], r')
    requires RowsTold(r', x.1, ReplayStep(Told(net, links, x), Next(net, links, x)))
    ensures EndOk(ReadOne(net, x, r'), links, x)
  {
    var net' := ReadOne(net, x, r');
    WireGrows(net, links, r', x);
    assert Wire(net', links, x) == Wire(WithRelay(net, r'), links, x);
    OneMoreTold(Wire(net, links, x), Wire(net', links, x), ReadCount(net, x));
  }

  lemma BystanderEnd(net: Net, links: Links, x: End, r': Relay, y: End)
    requires Wired(net, links) && x in links && y in links && y != x && EndOk(net, links, y)
    requires r'.self == x.0 && LogsGrow(net.relays[x.0], r')
    requires forall i, id | i != x.1 :: (i, id) in r'.fib <==> (i, id) in net.relays[x.0].fib
    ensures EndOk(ReadOne(net, x, r'), links, y)
  {
    EndUndisturbed(net, links, r', y);
    assert EndOk(WithRelay(net, r'), links, y);
  }

  lemma RewiredRead(net: Net, links: Links, x: End)
    requires Wired(net, links)
    ensures Wired(net.(read := net.read[x := ReadCount(net, x) + 1]), links)
  {
  }

  /** A relay after it has taken a message that was waiting for session `j`. */
  ghost predicate Took(r: Relay, r': Relay, j: SessionId, told': map<SnsId, set<NodeId>>) {
    && r'.self == r.self && LogsGrow(r, r') && RelayOk(r')
    && RowsTold(r', j, told')
    && (forall i, id | i != j :: (i, id) in r'.fib <==> (i, id) in r.fib)
  }

  lemma TakeTook(r: Relay, j: SessionId, msg: SnsMsg, ref: int, told: map<SnsId, set<NodeId>>)
    requires RelayOk(r) && FreshRef(r, (j, msg.id), ref)
    requires RowsTold(r, j, told)
    ensures Took(r, Take(r, j, msg, ref), j, ReplayStep(told, msg))
  {
    TakeRows(r, j, msg, ref, told);
    TakeKeepsRelay(r, j, msg, ref);
  }

  lemma ReadOneInv(net: Net, links: Links, x: End, r': Relay)
    requires NetInv(net, links) && x in links
    requires ReadCount(net, x) < |Wire(net, links, x)|
    requires Took(net.relays[x.0], r', x.1, ReplayStep(Told(net, links, x), Next(net, links, x)))
    ensures NetInv(ReadOne(net, x, r'), links)
  {
    EndRelay(net, links, x);
    RewiredSame(net, links, r');
    RewiredRead(WithRelay(net, r'), links, x);
    forall u | u in ReadOne(net, x, r').relays ensures RelayOk(ReadOne(net, x, r').relays[u]) {
      RelayReplaced(net, r', u);
    }
    forall y | y in links ensures EndOk(ReadOne(net, x, r'), links, y) {
      AnyEnd(net, links, x, r', y);
    }
  }

  lemma AnyEnd(net: Net, links: Links, x: End, r': Relay, y: End)
    requires NetInv(net, links) && x in links && y in links
    requires ReadCount(net, x) < |Wire(net, links, x)|
    requires Took(net.relays[x.0], r', x.1, ReplayStep(Told(net, links, x), Next(net, links, x)))
    ensures EndOk(ReadOne(net, x, r'), links, y)
  {
    EndRelay(net, links, x);
    EndRelay(net, links, y);
    if y == x {
      ReaderEnd(net, links, x, r');
    } else {
      BystanderEnd(net, links, x, r', y);
    }
  }

  lemma ReceiveIsReadOne(net: Net, links: Links, x: End, ref: int)
    requires x.0 in net.relays && 0 <= ReadCount(net, x) < |Wire(net, links, x)|
    ensures Apply(net, links, Receive(x, ref)) ==
            ReadOne(net, x, Take(net.relays[x.0], x.1, Next(net, links, x), ref))
  {
  }

  lemma ReceiveStep(net: Net, links: Links, x: End, ref: int)
    requires NetInv(net, links) && Enabled(net, links, Receive(x, ref))
    ensures NetInv(Apply(net, links, Receive(x, ref)), links)
  {
    EndRelay(net, links, x);
    TakeTook(net.relays[x.0], x.1, Next(net, links, x), ref, Told(net, links, x));
    var r' := Take(net.relays[x.0], x.1, Next(net, links, x), ref);
    ReadOneInv(net, links, x, r');
    ReceiveIsReadOne(net, links, x, ref);
  }

  lemma SubscribeOk(r: Relay, e: SessionId, s: Session)
    requires RelayOk(r) && e in r.sessions && SessionInv(s)
    requires s.peerSns == r.sessions[e].peerSns && r.sessions[e].sent <= s.sent
    requires s.connected ==> r.sessions[e].connected
    ensures RelayOk(WithSession(r, e, s)) && LogsGrow(r, WithSession(r, e, s))
  {
    var r' := WithSession(r, e, s);
    forall k, d | k in r'.fib && d in r'.fib[k] && d != SELF && d != k.0 && d in r'.sessions
      ensures OutMatches(r', k, d)
    {
      assert OutMatches(r, k, d);
    }
  }

  lemma RerouteOk(r: Relay, best: map<NodeId, SessionId>)
    requires RelayOk(r)
    ensures RelayOk(r.(best := best))
  {
    var r' := r.(best := best);
    forall k, d | k in r'.fib && d in r'.fib[k] && d != SELF && d != k.0 && d in r'.sessions
      ensures OutMatches(r', k, d)
    {
      assert OutMatches(r, k, d);
    }
  }

  lemma RerouteStep(net: Net, links: Links, u: NodeId, best: map<NodeId, SessionId>)
    requires NetInv(net, links) && u in net.relays
    ensures NetInv(WithRelay(net, RelayAt(net, u).(best := best)), links)
  {
    assert RelayWired(net.relays[u], u, links);
    RerouteOk(net.relays[u], best);
    QuietStep(net, links, net.relays[u].(best := best));
  }

  /** A session after a change to the sets of its own subscribes. */
  ghost predicate SubsChanged(s: Session, s': Session) {
    SessionInv(s') && s'.peerSns == s.peerSns && s.sent <= s'.sent && (s'.connected ==> s.connected)
  }

  lemma AddSubChanges(s: Session, track: TrackHash, node: NodeId)
    requires SessionInv(s)
    ensures SubsChanged(s, AddSub(s, track, node))
  {
    AddSubKeeps(s, track, node);
  }

  lemma RemoveSubChanges(s: Session, track: TrackHash, node: NodeId)
    requires SessionInv(s)
    ensures SubsChanged(s, RemoveSub(s, track, node))
  {
    RemoveSubKeeps(s, track, node);
  }

  lemma DisconnectChanges(s: Session)
    requires SessionInv(s)
    ensures SubsChanged(s, s.(connected := false))
  {
  }

  lemma SubscribeStep(net: Net, links: Links, x: End, s: Session)
    requires NetInv(net, links) && x in links
    requires SubsChanged(SessionAt(net, x), s)
    ensures NetInv(WithRelay(net, WithSession(RelayAt(net, x.0), x.1, s)), links)
  {
    EndRelay(net, links, x);
    SubscribeOk(net.relays[x.0], x.1, s);
    QuietStep(net, links, WithSession(net.relays[x.0], x.1, s));
  }

  lemma SubscribeKeeps(net: Net, links: Links, at: End, track: TrackHash, node: NodeId)
    requires NetInv(net, links) && at in links
    ensures NetInv(Apply(net, links, Subscribe(at, track, node)), links)
  {
    EndRelay(net, links, at);
    var s := AddSub(SessionAt(net, at), track, node);
    AddSubChanges(SessionAt(net, at), track, node);
    SubscribeStep(net, links, at, s);
    assert Apply(net, links, Subscribe(at, track, node)) == WithRelay(net, WithSession(RelayAt(net, at.0), at.1, s));
  }

  lemma UnsubscribeKeeps(net: Net, links: Links, at: End, track: TrackHash, node: NodeId)
    requires NetInv(net, links) && at in links
    ensures NetInv(Apply(net, links, Unsubscribe(at, track, node)), links)
  {
    EndRelay(net, links, at);
    var s := RemoveSub(SessionAt(net, at), track, node);
    RemoveSubChanges(SessionAt(net, at), track, node);
    SubscribeStep(net, links, at, s);
    assert Apply(net, links, Unsubscribe(at, track, node)) == WithRelay(net, WithSession(RelayAt(net, at.0), at.1, s));
  }

  lemma DisconnectedOk(r: Relay, e: SessionId)
    requires RelayOk(r) && e in r.sessions
    ensures RelayOk(Disconnected(r, e)) && LogsGrow(r, Disconnected(r, e))
    ensures forall j :: KeepsRows(r, Disconnected(r, e), j)
  {
    var r' := Disconnected(r, e);
    var s := r.sessions[e].(connected := false);
    DisconnectChanges(r.sessions[e]);
    SubscribeOk(r, e, s);
    forall k, d | k in r'.fib && d in r'.fib[k] && d != SELF && d != k.0 && d in r'.sessions
      ensures OutMatches(r', k, d)
    {
      assert OutMatches(WithSession(r, e, s), k, d);
    }
  }

  lemma DisconnectIs(net: Net, links: Links, at: End)
    ensures Apply(net, links, Disconnect(at)) == WithRelay(net, Disconnected(RelayAt(net, at.0), at.1))
  {
  }

  /** What was sent before can still be read; nothing more is put on the stream. */
  lemma DisconnectKeeps(net: Net, links: Links, at: End)
    requires NetInv(net, links) && at in links
    ensures NetInv(Apply(net, links, Disconnect(at)), links)
  {
    EndRelay(net, links, at);
    DisconnectIs(net, links, at);
    DisconnectedStep(net, links, at.0, at.1, Disconnected(net.relays[at.0], at.1));
  }

  lemma DisconnectedStep(net: Net, links: Links, u: NodeId, e: SessionId, r': Relay)
    requires NetInv(net, links) && u in net.relays && net.relays[u].self == u && e in net.relays[u].sessions
    requires r' == Disconnected(net.relays[u], e)
    ensures NetInv(WithRelay(net, r'), links)
  {
    DisconnectedOk(net.relays[u], e);
    QuietStep(net, links, r');
  }

  lemma StepKeeps(net: Net, links: Links, step: Step)
    requires NetInv(net, links) && Enabled(net, links, step)
    ensures NetInv(Apply(net, links, step), links)
  {
    match step
    case Subscribe(at, track, node) => SubscribeKeeps(net, links, at, track, node);
    case Unsubscribe(at, track, node) => UnsubscribeKeeps(net, links, at, track, node);
    case Reroute(relay, best) => RerouteStep(net, links, relay, best);
    case Disconnect(at) => DisconnectKeeps(net, links, at);
    case Receive(at, ref) => ReceiveStep(net, links, at, ref);
  }

  // ---------------------------------------------------------------- runs

  function SessionsAt(u: NodeId, links: Links): set<SessionId> {
    set x | x in links && x.0 == u :: x.1
  }

  function NewRelay(u: NodeId, links: Links, best: map<NodeId, SessionId>): Relay {
    Relay(u, map e | e in SessionsAt(u, links) :: NEW_SESSION, best, map[])
  }

  /** No messages yet: every relay has fresh sessions and an empty table. */
  ghost predicate Initial(net: Net, links: Links) {
    && ValidLinks(links)
    && (forall x | x in links :: x.0 in net.relays && x in net.read && net.read[x] == 0)
    && (forall u | u in net.relays :: exists best :: net.relays[u] == NewRelay(u, links, best))
  }

  /** `steps` is a run from `net`, each step enabled where it is taken. */
  ghost predicate IsRun(net: Net, links: Links, steps: seq<Step>)
    decreases |steps|
  {
    steps == [] ||
    (Enabled(net, links, steps[0]) && IsRun(Apply(net, links, steps[0]), links, steps[1..]))
  }

  ghost function After(net: Net, links: Links, steps: seq<Step>): Net
    requires IsRun(net, links, steps)
    decreases |steps|
  {
    if steps == [] then net else After(Apply(net, links, steps[0]), links, steps[1..])
  }

  lemma NewRelayOk(u: NodeId, links: Links, best: map<NodeId, SessionId>)
    requires ValidLinks(links)
    ensures RelayOk(NewRelay(u, links, best)) && RelayWired(NewRelay(u, links, best), u, links)
  {
    NewSessionInv();
    var r := NewRelay(u, links, best);
    forall e ensures e in r.sessions <==> (u, e) in links {
      if (u, e) in links {
        assert (u, e).0 == u && (u, e).1 == e;
      }
    }
  }

  lemma EmptyEndOk(net: Net, links: Links, x: End)
    requires x.0 in net.relays && net.relays[x.0].fib == map[] && x in net.read && net.read[x] == 0
    ensures EndOk(net, links, x)
  {
    assert Prefix(Wire(net, links, x), 0) == [];
  }

  lemma InitialInv(net: Net, links: Links)
    requires Initial(net, links)
    ensures NetInv(net, links)
  {
    forall u | u in net.relays
      ensures RelayOk(net.relays[u]) && RelayWired(net.relays[u], u, links) && net.relays[u].fib == map[]
    {
      var best :| net.relays[u] == NewRelay(u, links, best);
      NewRelayOk(u, links, best);
    }
    forall x | x in links ensures EndOk(net, links, x) {
      EmptyEndOk(net, links, x);
    }
  }

  lemma {:induction false} RunKeeps(net: Net, links: Links, steps: seq<Step>)
    requires NetInv(net, links) && IsRun(net, links, steps)
    ensures NetInv(After(net, links, steps), links)
    decreases |steps|
  {
    if steps != [] {
      StepKeeps(net, links, steps[0]);
      RunKeeps(Apply(net, links, steps[0]), links, steps[1..]);
    }
  }

  /** The state reached by a run from an empty network. */
  ghost predicate Reached(net: Net, links: Links) {
    exists start, steps :: Initial(start, links) && IsRun(start, links, steps) && net == After(start, links, steps)
  }

  lemma ReachedInv(net: Net, links: Links)
    requires Reached(net, links)
    ensures NetInv(net, links)
  {
    var start, steps :| Initial(start, links) && IsRun(start, links, steps) && net == After(start, links, steps);
    InitialInv(start, links);
    RunKeeps(start, links, steps);
  }

  lemma SenderInv(net: Net, links: Links, x: End)
    requires NetInv(net, links) && x in links
    ensures var sender := SessionAt(net, links[x]);
            SessionInv(sender) && Wire(net, links, x) == sender.sent
  {
    EndRelay(net, links, links[x]);
  }

  /** The session of end `x` is connected at both ends, and everything sent to `x` has been read. */
  ghost predicate Drained(net: Net, links: Links, x: End) {
    && ReadCount(net, x) == |Wire(net, links, x)|
    && SessionAt(net, x).connected && SessionAt(net, FarEnd(links, x)).connected
  }

  lemma AllRead(sender: Session, r: Relay, j: SessionId, n: int)
    requires SessionInv(sender) && sender.connected && n == |sender.sent|
    requires RowsMatch(r, j, Replay(Prefix(sender.sent, n)))
    ensures forall id :: (j, id) in r.fib <==> Holds(sender, id)
    ensures Agrees(sender, Replay(Prefix(sender.sent, n)))
  {
    assert Prefix(sender.sent, n) == sender.sent;
    forall id ensures (j, id) in r.fib <==> Holds(sender, id) {
      LiveIdsAgree(sender, id);
    }
  }

  /** Two-relay agreement, over every run: once an end of a session connected at both ends has read all
      that was sent to it, it has a row for the session at exactly the ids of the sets the sender holds, and was
      told sets no smaller than the sender's (the same sets, where they come from peers). */
  lemma Agreement(net: Net, links: Links, x: End)
    requires Reached(net, links) && x in links
    ensures 0 <= ReadCount(net, x) <= |Wire(net, links, x)|
    ensures Drained(net, links, x) ==>
              var sender := SessionAt(net, FarEnd(links, x));
              && (forall id :: (x.1, id) in RelayAt(net, x.0).fib <==> Holds(sender, id))
              && Agrees(sender, Told(net, links, x))
  {
    ReachedInv(net, links);
    EndRelay(net, links, x);
    SenderInv(net, links, x);
    if Drained(net, links, x) {
      AllRead(SessionAt(net, links[x]), RelayAt(net, x.0), x.1, ReadCount(net, x));
    }
  }

  /** Table and sessions agree in every reachable state. */
  lemma ReachedCoherent(net: Net, links: Links, u: NodeId, k: Ingress, e: SessionId)
    requires Reached(net, links) && u in net.relays
    requires k in net.relays[u].fib && e in net.relays[u].fib[k] && e != SELF && e != k.0
    requires e in net.relays[u].sessions
    ensures k in net.relays[u].sessions[e].peerSns
    ensures net.relays[u].fib[k][e].outSns == net.relays[u].sessions[e].peerSns[k].id != 0
  {
    ReachedInv(net, links);
    assert RelayOk(net.relays[u]);
    assert OutMatches(net.relays[u], k, e);
    CoherentIds(net.relays[u], k, e);
  }

  // ---------------------------------------------------------------- ids of egresses

  lemma TakeKeepsIds(r: Relay, j: SessionId, msg: SnsMsg, ref: int, k: Ingress, e: SessionId)
    requires RelayOk(r) && FreshRef(r, (j, msg.id), ref)
    requires k in r.fib && e in r.fib[k] && e != SELF && e != k.0 && e in r.sessions
    requires e in Row(Take(r, j, msg, ref), k)
    ensures Row(Take(r, j, msg, ref), k)[e].outSns == r.fib[k][e].outSns
  {
    match msg
    case Advertise(id, nodes) => AdvertiseKeepsIds(r, (j, id), nodes, ref, k, e);
    case Withdraw(id) =>
  }

  /** While a row keeps an egress the id used there does not change, whatever step the network takes. */
  lemma StepKeepsIds(net: Net, links: Links, step: Step, u: NodeId, k: Ingress, e: SessionId)
    requires NetInv(net, links) && Enabled(net, links, step) && u in net.relays
    requires e in Row(RelayAt(net, u), k) && e != SELF && e != k.0 && e in RelayAt(net, u).sessions
    requires e in Row(RelayAt(Apply(net, links, step), u), k)
    ensures Row(RelayAt(Apply(net, links, step), u), k)[e].outSns == Row(RelayAt(net, u), k)[e].outSns
    ensures u in Apply(net, links, step).relays && e in RelayAt(Apply(net, links, step), u).sessions
  {
    assert RelayOk(net.relays[u]) && RelayWired(net.relays[u], u, links);
    StepChanges(net, links, step);
    if step.Receive? && step.at.0 == u {
      TakeKeepsIds(net.relays[u], step.at.1, Next(net, links, step.at), step.ref, k, e);
      TakeLogs(net.relays[u], step.at.1, Next(net, links, step.at), step.ref);
    }
  }

  lemma TakeKeepsSelf(r: Relay, j: SessionId, msg: SnsMsg, ref: int)
    requires RelayOk(r) && FreshRef(r, (j, msg.id), ref)
    ensures Take(r, j, msg, ref).self == r.self
  {
    TakeKeepsRelay(r, j, msg, ref);
  }

  lemma ReceiveChanges(net: Net, links: Links, at: End, ref: int)
    requires Enabled(net, links, Receive(at, ref)) && NetInv(net, links)
    ensures var net', r' := Apply(net, links, Receive(at, ref)), Changed(net, links, Receive(at, ref));
            r'.self == at.0 && at.0 in net.relays && net'.relays == net.relays[r'.self := r']
  {
    EndRelay(net, links, at);
    TakeKeepsSelf(net.relays[at.0], at.1, Next(net, links, at), ref);
    ReceiveIsReadOne(net, links, at, ref);
  }

  lemma ApplyIs(net: Net, links: Links, step: Step)
    requires step.Receive? ==> 0 <= ReadCount(net, step.at) < |Wire(net, links, step.at)|
    ensures Apply(net, links, step).relays == net.relays[Changed(net, links, step).self := Changed(net, links, step)]
  {
  }

  lemma SessionChanges(net: Net, links: Links, at: End, s: Session)
    requires NetInv(net, links) && at in links
    ensures var r' := WithSession(RelayAt(net, at.0), at.1, s);
            r'.self == at.0 && at.0 in net.relays && r'.fib == net.relays[at.0].fib
            && net.relays[at.0].sessions.Keys <= r'.sessions.Keys
  {
    EndRelay(net, links, at);
  }

  /** The rows that are left are as they were. */
  ghost predicate FewerRows(fib: map<Ingress, FibRow>, fib': map<Ingress, FibRow>) {
    forall k | k in fib' :: k in fib && fib'[k] == fib[k]
  }

  /** A step changes one relay only, loses none of its sessions, and unless it reads a message no row of
      it changes, though some may go. */
  lemma StepChanges(net: Net, links: Links, step: Step)
    requires Enabled(net, links, step) && NetInv(net, links)
    ensures var net', r' := Apply(net, links, step), Changed(net, links, step);
            && r'.self in net.relays && net'.relays == net.relays[r'.self := r']
            && (step.Receive? ==> r'.self == step.at.0)
            && (!step.Receive? ==> FewerRows(net.relays[r'.self].fib, r'.fib)
                                   && net.relays[r'.self].sessions.Keys <= r'.sessions.Keys)
  {
    ApplyIs(net, links, step);
    match step
    case Reroute(relay, best) => assert RelayWired(net.relays[relay], relay, links);
    case Receive(at, ref) => ReceiveChanges(net, links, at, ref);
    case Subscribe(at, track, node) => SessionChanges(net, links, at, AddSub(SessionAt(net, at), track, node));
    case Unsubscribe(at, track, node) => SessionChanges(net, links, at, RemoveSub(SessionAt(net, at), track, node));
    case Disconnect(at) => SessionChanges(net, links, at, SessionAt(net, at).(connected := false));
  }

  /** The row `k` of relay `u` has the egress `e` in every state of the run. */
  ghost predicate KeptThrough(net: Net, links: Links, steps: seq<Step>, u: NodeId, k: Ingress, e: SessionId)
    requires IsRun(net, links, steps)
    decreases |steps|
  {
    e in Row(RelayAt(net, u), k)
    && (steps == [] || KeptThrough(Apply(net, links, steps[0]), links, steps[1..], u, k, e))
  }

  lemma KeptNext(net: Net, links: Links, steps: seq<Step>, u: NodeId, k: Ingress, e: SessionId)
    requires IsRun(net, links, steps) && KeptThrough(net, links, steps, u, k, e) && steps != []
    ensures KeptThrough(Apply(net, links, steps[0]), links, steps[1..], u, k, e)
    ensures e in Row(RelayAt(net, u), k) && e in Row(RelayAt(Apply(net, links, steps[0]), u), k)
  {
  }

  /** The same over any run from a reached state. */
  lemma {:induction false} RunKeepsIds(net: Net, links: Links, steps: seq<Step>, u: NodeId, k: Ingress, e: SessionId)
    requires NetInv(net, links) && IsRun(net, links, steps) && u in net.relays
    requires KeptThrough(net, links, steps, u, k, e) && e != SELF && e != k.0 && e in RelayAt(net, u).sessions
    ensures var row := Row(RelayAt(After(net, links, steps), u), k);
            e in row && row[e].outSns == Row(RelayAt(net, u), k)[e].outSns
    decreases |steps|
  {
    if steps != [] {
      var net1 := Apply(net, links, steps[0]);
      KeptNext(net, links, steps, u, k, e);
      KeptStep(net, links, steps[0], net1, u, k, e);
      RunKeepsIds(net1, links, steps[1..], u, k, e);
    }
  }

  lemma KeptStep(net: Net, links: Links, step: Step, net1: Net, u: NodeId, k: Ingress, e: SessionId)
    requires NetInv(net, links) && Enabled(net, links, step) && u in net.relays && net1 == Apply(net, links, step)
    requires e in Row(RelayAt(net, u), k) && e != SELF && e != k.0 && e in RelayAt(net, u).sessions
    requires e in Row(RelayAt(net1, u), k)
    ensures NetInv(net1, links) && u in net1.relays && e in RelayAt(net1, u).sessions
    ensures Row(RelayAt(net1, u), k)[e].outSns == Row(RelayAt(net, u), k)[e].outSns
  {
    StepKeeps(net, links, step);
    StepKeepsIds(net, links, step, u, k, e);
  }

  // ---------------------------------------------------------------- what a sweep leaves behind

  /** An advertise that no longer leads to the egress `e` takes it out of the row, but the session keeps
      its set and tells the far end nothing: once that has read everything it still has the row. */
  lemma SweptStaysTold(net: Net, links: Links, x: End, ref: int, e: SessionId)
    requires NetInv(net, links) && Enabled(net, links, Receive(x, ref)) && Next(net, links, x).Advertise?
    requires var r, msg := RelayAt(net, x.0), Next(net, links, x);
             && e in Row(r, (x.1, msg.id)) && e != SELF && e != x.1 && e in r.sessions
             && e !in Targets(r, msg.nodes)
    ensures var net', k := Apply(net, links, Receive(x, ref)), (x.1, Next(net, links, x).id);
            var s, y := SessionAt(net', (x.0, e)), FarEnd(links, (x.0, e));
            && e !in Row(RelayAt(net', x.0), k)
            && k in s.peerSns
            && ((e, k.1) !in SessionAt(net, (x.0, e)).peerSns ==> s == SessionAt(net, (x.0, e)))
            && (Drained(net', links, y) ==> (y.1, s.peerSns[k].id) in RelayAt(net', y.0).fib)
  {
    EndRelay(net, links, x);
    var r, msg, k := net.relays[x.0], Next(net, links, x), (x.1, Next(net, links, x).id);
    assert OutMatches(r, k, e);
    SweepWithdrawsIff(r, k, msg.nodes, ref, e);
    SweptSession(r, k, msg.nodes, ref, e);
    StepKeeps(net, links, Receive(x, ref));
    StepChanges(net, links, Receive(x, ref));
    var net' := Apply(net, links, Receive(x, ref));
    assert RelayWired(r, x.0, links);
    FarRows(net', links, FarEnd(links, (x.0, e)));
    assert Holds(SessionAt(net', (x.0, e)), SessionAt(net', (x.0, e)).peerSns[k].id);
  }

  /** A lost connection purges the ingress rows of its session, but the sets that their egresses hold stay:
      no far end is told, and one that has read everything still has the row. */
  lemma PurgedStaysTold(net: Net, links: Links, x: End, k: Ingress, e: SessionId)
    requires NetInv(net, links) && x in links && k.0 == x.1
    requires e in Row(RelayAt(net, x.0), k) && e != SELF && e != x.1 && e in RelayAt(net, x.0).sessions
    ensures var net', y := Apply(net, links, Disconnect(x)), FarEnd(links, (x.0, e));
            && k !in RelayAt(net', x.0).fib
            && SessionAt(net', (x.0, e)) == SessionAt(net, (x.0, e)) && k in SessionAt(net, (x.0, e)).peerSns
            && (Drained(net', links, y) ==> (y.1, SessionAt(net, (x.0, e)).peerSns[k].id) in RelayAt(net', y.0).fib)
  {
    EndRelay(net, links, x);
    var net' := Apply(net, links, Disconnect(x));
    assert OutMatches(net.relays[x.0], k, e);
    DisconnectKeeps(net, links, x);
    DisconnectIs(net, links, x);
    FarRows(net', links, FarEnd(links, (x.0, e)));
    assert Holds(SessionAt(net', (x.0, e)), SessionAt(net, (x.0, e)).peerSns[k].id);
  }

  /** What an end that has read all has rows for. */
  lemma FarRows(net: Net, links: Links, y: End)
    requires NetInv(net, links) && y in links
    ensures Drained(net, links, y) ==>
              forall id :: (y.1, id) in RelayAt(net, y.0).fib <==> Holds(SessionAt(net, links[y]), id)
  {
    EndRelay(net, links, y);
    SenderInv(net, links, y);
    if Drained(net, links, y) {
      AllRead(SessionAt(net, links[y]), RelayAt(net, y.0), y.1, ReadCount(net, y));
    }
  }

  // ---------------------------------------------------------------- what a withdraw leaves behind

  /** No session of the relay uses an id again. */
  ghost predicate AllIdsMove(r: Relay, r': Relay) {
    forall e | e in r.sessions :: e in r'.sessions && IdsMove(r.sessions[e], r'.sessions[e])
  }

  lemma AllMoveOn(r: Relay, r1: Relay, r2: Relay)
    requires AllIdsMove(r, r1) && AllIdsMove(r1, r2)
    ensures AllIdsMove(r, r2)
  {
    forall e | e in r.sessions ensures e in r2.sessions && IdsMove(r.sessions[e], r2.sessions[e]) {
      IdsMoveOn(r.sessions[e], r1.sessions[e], r2.sessions[e]);
    }
  }

  lemma MarkMoves(r: Relay, key: Ingress, ref: int, node: NodeId)
    ensures AllIdsMove(r, Mark(r, key, ref, node))
  {
    if node != r.self && Reachable(r, node) {
      AddPeerMoves(r.sessions[r.best[node]], key, node);
    }
  }

  lemma {:induction false} MarkAllMoves(r: Relay, key: Ingress, ref: int, ns: seq<NodeId>)
    ensures AllIdsMove(r, MarkAll(r, key, ref, ns))
  {
    if ns != [] {
      MarkAllMoves(r, key, ref, ns[..|ns| - 1]);
      var r1 := MarkAll(r, key, ref, ns[..|ns| - 1]);
      MarkMoves(r1, key, ref, ns[|ns| - 1]);
      AllMoveOn(r, r1, MarkAll(r, key, ref, ns));
    }
  }

  lemma DropMoves(r: Relay, at: map<SessionId, Ingress>, fib: map<Ingress, FibRow>)
    ensures AllIdsMove(r, r.(sessions := DropSets(r.sessions, at), fib := fib))
  {
    forall e | e in r.sessions && e in at ensures IdsMove(r.sessions[e], RemovePeer(r.sessions[e], at[e], 0)) {
      RemovePeerMoves(r.sessions[e], at[e], 0);
    }
  }

  lemma TakeMoves(r: Relay, from: SessionId, msg: SnsMsg, ref: int)
    ensures AllIdsMove(r, Take(r, from, msg, ref))
  {
    var key := (from, msg.id);
    match msg
    case Withdraw(id) =>
      if key in r.fib {
        DropMoves(r, SameKey(r.fib[key].Keys - {SELF}, key), r.fib - {key});
      }
    case Advertise(id, nodes) =>
      var m := MarkedRelay(r, key, nodes, ref);
      MarkAllMoves(Opened(r, key), key, ref, Sorted(nodes));
      if key in r.fib {
        SweepMoves(m, key, ref);
        AllMoveOn(r, m, Sweep(m, key, ref));
      }
  }

  lemma SweepMoves(r: Relay, key: Ingress, ref: int)
    ensures AllIdsMove(r, Sweep(r, key, ref))
  {
    var stale := Stale(Row(r, key), ref);
    DropMoves(r, OwnKeys(stale - {SELF}, key.1), r.fib[key := Row(r, key) - stale]);
  }

  /** One session of a relay changes, perhaps some rows too. */
  lemma SessionMoves(net: Net, links: Links, at: End, s: Session, r': Relay)
    requires NetInv(net, links) && at in links && IdsMove(SessionAt(net, at), s)
    requires r'.self == RelayAt(net, at.0).self && r'.sessions == RelayAt(net, at.0).sessions[at.1 := s]
    ensures r'.self == at.0 && at.0 in net.relays && AllIdsMove(net.relays[at.0], r')
  {
    EndRelay(net, links, at);
  }

  lemma ChangedMoves(net: Net, links: Links, step: Step)
    requires NetInv(net, links) && Enabled(net, links, step)
    ensures Changed(net, links, step).self in net.relays
    ensures AllIdsMove(net.relays[Changed(net, links, step).self], Changed(net, links, step))
  {
    var r' := Changed(net, links, step);
    match step
    case Subscribe(at, track, node) =>
      AddSubMoves(SessionAt(net, at), track, node);
      SessionMoves(net, links, at, AddSub(SessionAt(net, at), track, node), r');
    case Unsubscribe(at, track, node) =>
      RemoveSubMoves(SessionAt(net, at), track, node);
      SessionMoves(net, links, at, RemoveSub(SessionAt(net, at), track, node), r');
    case Reroute(relay, best) => assert RelayWired(net.relays[relay], relay, links);
    case Disconnect(at) =>
      SetsMove(SessionAt(net, at), SessionAt(net, at).(connected := false));
      SessionMoves(net, links, at, SessionAt(net, at).(connected := false), r');
    case Receive(at, ref) => ReceiveMoves(net, links, at, ref);
  }

  lemma ReceiveMoves(net: Net, links: Links, at: End, ref: int)
    requires NetInv(net, links) && Enabled(net, links, Receive(at, ref))
    ensures Changed(net, links, Receive(at, ref)).self == at.0 && at.0 in net.relays
    ensures AllIdsMove(net.relays[at.0], Changed(net, links, Receive(at, ref)))
  {
    EndRelay(net, links, at);
    ReceiveChanges(net, links, at, ref);
    TakeMoves(net.relays[at.0], at.1, Next(net, links, at), ref);
  }

  /** An id retired at one end of a session stays so, whatever step the network takes. */
  lemma StepRetires(net: Net, links: Links, step: Step, x: End, id: SnsId)
    requires NetInv(net, links) && Enabled(net, links, step) && x in links
    requires Retired(SessionAt(net, x), id)
    ensures Retired(SessionAt(Apply(net, links, step), x), id)
  {
    EndRelay(net, links, x);
    StepChanges(net, links, step);
    ChangedMoves(net, links, step);
    var r' := Changed(net, links, step);
    if r'.self == x.0 {
      RetiredStays(net.relays[x.0].sessions[x.1], r'.sessions[x.1], id);
    }
  }

  lemma {:induction false} RunRetires(net: Net, links: Links, steps: seq<Step>, x: End, id: SnsId)
    requires NetInv(net, links) && IsRun(net, links, steps) && x in links
    requires Retired(SessionAt(net, x), id)
    ensures Retired(SessionAt(After(net, links, steps), x), id)
    decreases |steps|
  {
    if steps != [] {
      StepKeeps(net, links, steps[0]);
      StepRetires(net, links, steps[0], x, id);
      RunRetires(Apply(net, links, steps[0]), links, steps[1..], x, id);
    }
  }

  /** A withdraw that a relay reads goes on over every egress of its row: the row is gone, and each egress
      session gives up its set and, when connected, says so and nothing else. */
  lemma WithdrawGoesOn(net: Net, links: Links, x: End, ref: int, e: SessionId)
    requires NetInv(net, links) && Enabled(net, links, Receive(x, ref)) && Next(net, links, x).Withdraw?
    requires e in Row(RelayAt(net, x.0), (x.1, Next(net, links, x).id)) && e in RelayAt(net, x.0).sessions
    requires e == x.1 ==> (x.1, Next(net, links, x).id) in SessionAt(net, (x.0, e)).peerSns
    ensures var net', k := Apply(net, links, Receive(x, ref)), (x.1, Next(net, links, x).id);
            var s, s' := SessionAt(net, (x.0, e)), SessionAt(net', (x.0, e));
            && k !in RelayAt(net', x.0).fib
            && k in s.peerSns && Retired(s', s.peerSns[k].id)
            && OnlyPeer(s, s', k) && k !in s'.peerSns
            && Says(s, s', [Withdraw(s.peerSns[k].id)])
  {
    EndRelay(net, links, x);
    var r, k := net.relays[x.0], (x.1, Next(net, links, x).id);
    if e != x.1 {
      assert e != SELF && OutMatches(r, k, e);
    }
    WithdrawnEgress(r, k, e);
    WithdrawFrame(r, k);
    StepChanges(net, links, Receive(x, ref));
  }

  /** And it goes on for good: in any state that a run reaches from there, the far end of such an egress has
      no row for the set any more, once it has read everything. */
  lemma WithdrawReachesFar(net: Net, links: Links, x: End, ref: int, e: SessionId, steps: seq<Step>)
    requires NetInv(net, links) && Enabled(net, links, Receive(x, ref)) && Next(net, links, x).Withdraw?
    requires e in Row(RelayAt(net, x.0), (x.1, Next(net, links, x).id)) && e in RelayAt(net, x.0).sessions
    requires e == x.1 ==> (x.1, Next(net, links, x).id) in SessionAt(net, (x.0, e)).peerSns
    requires IsRun(Apply(net, links, Receive(x, ref)), links, steps)
    ensures var end, k := After(Apply(net, links, Receive(x, ref)), links, steps), (x.1, Next(net, links, x).id);
            var s, y := SessionAt(net, (x.0, e)), FarEnd(links, (x.0, e));
            && k in s.peerSns
            && (Drained(end, links, y) ==> (y.1, s.peerSns[k].id) !in RelayAt(end, y.0).fib)
  {
    EndRelay(net, links, x);
    assert RelayWired(net.relays[x.0], x.0, links);
    WithdrawGoesOn(net, links, x, ref, e);
    StepKeeps(net, links, Receive(x, ref));
    RetiredFar(Apply(net, links, Receive(x, ref)), links, steps, (x.0, e),
               SessionAt(net, (x.0, e)).peerSns[(x.1, Next(net, links, x).id)].id);
  }

  lemma RetiredFar(net: Net, links: Links, steps: seq<Step>, x: End, id: SnsId)
    requires NetInv(net, links) && IsRun(net, links, steps) && x in links && Retired(SessionAt(net, x), id)
    ensures var end, y := After(net, links, steps), links[x];
            Drained(end, links, y) ==> (y.1, id) !in RelayAt(end, y.0).fib
  {
    var end, y := After(net, links, steps), links[x];
    RunKeeps(net, links, steps);
    RunRetires(net, links, steps, x, id);
    assert y in links && links[y] == x;
    FarRows(end, links, y);
  }

  /** The same for a session's last local subscriber of a track that leaves. */
  lemma UnsubscribeReachesFar(net: Net, links: Links, x: End, track: TrackHash, node: NodeId, steps: seq<Step>)
    requires NetInv(net, links) && x in links
    requires track in SessionAt(net, x).subSns && SessionAt(net, x).subSns[track].nodes <= {node}
    requires IsRun(Apply(net, links, Unsubscribe(x, track, node)), links, steps)
    ensures var end, y := After(Apply(net, links, Unsubscribe(x, track, node)), links, steps), FarEnd(links, x);
            Drained(end, links, y) ==> (y.1, SessionAt(net, x).subSns[track].id) !in RelayAt(end, y.0).fib
  {
    EndRelay(net, links, x);
    LeftRetires(SessionAt(net, x), track, node);
    StepKeeps(net, links, Unsubscribe(x, track, node));
    RetiredFar(Apply(net, links, Unsubscribe(x, track, node)), links, steps, x, SessionAt(net, x).subSns[track].id);
  }
}
