/**
 Runs in which best sessions are stable and subscribers only come: every control message is an
 advertise that grows its set. In such runs each relay's table splits each ingress set over its
 egress sessions, exactly.
 */
module SnsGrowth {
  import opened Ordered
  import opened Sessions
  import opened SnsRouting
  import opened SnsNetwork

  /** The nodes reached through session `e`. */
  ghost function Behind(best: map<NodeId, SessionId>, e: SessionId): set<NodeId> {
    set n | n in best && best[n] == e
  }

  // ---------------------------------------------------------------- one session

  /** An advertise of nodes out of `ok` that takes no node away from the set told before. */
  ghost predicate GrowingMsg(told: map<SnsId, set<NodeId>>, msg: SnsMsg, ok: set<NodeId>) {
    msg.Advertise? && msg.nodes <= ok && (msg.id in told ==> told[msg.id] <= msg.nodes)
  }

  ghost predicate GrowingLog(log: seq<SnsMsg>, ok: set<NodeId>) {
    log == [] ||
    (GrowingLog(log[..|log| - 1], ok) && GrowingMsg(Replay(log[..|log| - 1]), log[|log| - 1], ok))
  }

  lemma {:induction false} GrowingAt(log: seq<SnsMsg>, ok: set<NodeId>, n: int)
    requires GrowingLog(log, ok) && 0 <= n < |log|
    ensures GrowingMsg(Replay(log[..n]), log[n], ok)
  {
    if n < |log| - 1 {
      GrowingAt(log[..|log| - 1], ok, n);
      assert log[..|log| - 1][..n] == log[..n];
    }
  }

  lemma GrowOne(log: seq<SnsMsg>, msg: SnsMsg, ok: set<NodeId>)
    requires GrowingLog(log, ok) && GrowingMsg(Replay(log), msg, ok)
    ensures GrowingLog(log + [msg], ok)
  {
    assert (log + [msg])[..|log|] == log;
  }

  ghost predicate SetsWithin<K(!new)>(sets: map<K, NodeSet>, ok: set<NodeId>) {
    forall k | k in sets :: sets[k].nodes <= ok
  }

  ghost predicate ToldExactly<K(!new)>(sets: map<K, NodeSet>, told: map<SnsId, set<NodeId>>) {
    forall k | k in sets :: sets[k].id in told && told[sets[k].id] == sets[k].nodes
  }

  ghost predicate GrowSession(s: Session, ok: set<NodeId>) {
    && SessionInv(s) && s.connected
    && SetsWithin(s.peerSns, ok) && SetsWithin(s.subSns, ok)
    && ToldExactly(s.subSns, Replay(s.sent))
    && GrowingLog(s.sent, ok)
  }

  lemma NewIdUnknown(s: Session)
    requires SessionInv(s) && s.connected
    ensures s.nextCtx !in Replay(s.sent)
  {
    LiveIdsAgree(s, s.nextCtx);
  }

  /** The message announcing that `node` joined a set keeps the log growing. */
  lemma JoinGrows(s: Session, was: NodeSet, node: NodeId, ok: set<NodeId>)
    requires GrowSession(s, ok) && node in ok && was.nodes <= ok
    requires was.id == 0 || (was.id in Replay(s.sent) && Replay(s.sent)[was.id] == was.nodes)
    ensures GrowingMsg(Replay(s.sent), Advertise(Joined(s, was, node).id, Joined(s, was, node).nodes), ok)
  {
    NewIdUnknown(s);
  }

  lemma GrowAddPeer(s: Session, key: Ingress, node: NodeId, ok: set<NodeId>)
    requires GrowSession(s, ok) && node in ok
    ensures GrowSession(AddPeer(s, key, node), ok)
  {
    AddPeerKeeps(s, key, node);
    if node in PeerSet(s, key).nodes {
      RepeatIsSilent(s, key, node);
    } else {
      var s' := AddPeer(s, key, node);
      var msg := Advertise(s'.peerSns[key].id, s'.peerSns[key].nodes);
      JoinGrows(s, PeerSet(s, key), node, ok);
      GrowOne(s.sent, msg, ok);
      ReplayOne(s.sent, msg);
    }
  }

  lemma GrowAddSub(s: Session, track: TrackHash, node: NodeId, ok: set<NodeId>)
    requires GrowSession(s, ok) && node in ok
    ensures GrowSession(AddSub(s, track, node), ok)
  {
    AddSubKeeps(s, track, node);
    if node in SubSet(s, track).nodes {
      RepeatSubIsSilent(s, track, node);
    } else {
      var s' := AddSub(s, track, node);
      var msg := Advertise(s'.subSns[track].id, s'.subSns[track].nodes);
      JoinGrows(s, SubSet(s, track), node, ok);
      GrowOne(s.sent, msg, ok);
      ReplayOne(s.sent, msg);
      assert IdsFresh(s');
    }
  }

  // ---------------------------------------------------------------- one relay

  /** The row splits the ingress set `nodes`: an egress for each part, and on it exactly that part. */
  ghost predicate RowSplits(r: Relay, key: Ingress, nodes: set<NodeId>) {
    && key in r.fib && r.fib[key].Keys == Targets(r, nodes)
    && forall e | e in Targets(r, nodes) - {SELF} ::
         OutMatches(r, key, e) && r.sessions[e].peerSns[key].nodes == Via(r, nodes, e)
  }

  ghost predicate RowsSplit(r: Relay, j: SessionId, told: map<SnsId, set<NodeId>>) {
    forall id | id in told :: RowSplits(r, (j, id), told[id])
  }

  /** Every set derived from a peer belongs to an egress of its row. */
  ghost predicate NoOrphans(r: Relay) {
    forall e, k | e in r.sessions && k in r.sessions[e].peerSns :: k in r.fib && e in r.fib[k]
  }

  ghost predicate GrowRelay(r: Relay) {
    && RelayOk(r) && NoOrphans(r) && r.self !in r.best
    && forall e | e in r.sessions :: GrowSession(r.sessions[e], Behind(r.best, e))
  }

  lemma GrowMark(r: Relay, key: Ingress, ref: int, node: NodeId)
    requires forall e | e in r.sessions :: GrowSession(r.sessions[e], Behind(r.best, e))
    ensures var r' := Mark(r, key, ref, node);
            r'.best == r.best && forall e | e in r'.sessions :: GrowSession(r'.sessions[e], Behind(r'.best, e))
  {
    if node != r.self && Reachable(r, node) {
      var e := r.best[node];
      GrowAddPeer(r.sessions[e], key, node, Behind(r.best, e));
    }
  }

  lemma {:induction false} GrowMarkAll(r: Relay, key: Ingress, ref: int, ns: seq<NodeId>)
    requires forall e | e in r.sessions :: GrowSession(r.sessions[e], Behind(r.best, e))
    ensures var r' := MarkAll(r, key, ref, ns);
            r'.best == r.best && forall e | e in r'.sessions :: GrowSession(r'.sessions[e], Behind(r'.best, e))
  {
    if ns != [] {
      GrowMarkAll(r, key, ref, ns[..|ns| - 1]);
      GrowMark(MarkAll(r, key, ref, ns[..|ns| - 1]), key, ref, ns[|ns| - 1]);
    }
  }

  /** An advertise that the row already covers, or that opens the row. */
  ghost predicate Grows(r: Relay, key: Ingress, before: set<NodeId>, nodes: set<NodeId>) {
    if key in r.fib then RowSplits(r, key, before) && before <= nodes else before == {}
  }

  lemma TargetsMonotone(r: Relay, before: set<NodeId>, nodes: set<NodeId>)
    requires before <= nodes
    ensures Targets(r, before) <= Targets(r, nodes)
  {
    forall e | e in Targets(r, before) ensures e in Targets(r, nodes) {
      var n :| n in before && HasEgress(r, n) && EgressOf(r, n) == e;
    }
  }

  /** Nothing is swept by a growing advertise. */
  lemma NothingStale(r: Relay, key: Ingress, before: set<NodeId>, nodes: set<NodeId>, ref: int, e: SessionId)
    requires GrowRelay(r) && FreshRef(r, key, ref) && Grows(r, key, before, nodes)
    requires e in r.sessions
    ensures e in OnAdvertise(r, key, nodes, ref).sessions
    ensures SetGrown(r.sessions[e], OnAdvertise(r, key, nodes, ref).sessions[e], key, Via(r, nodes, e))
    ensures OnAdvertise(r, key, nodes, ref).sessions[e] == MarkedRelay(r, key, nodes, ref).sessions[e]
  {
    AdvertiseSession(r, key, nodes, ref, e);
    StaleAfterMark(r, key, nodes, ref);
    if key in r.fib {
      TargetsMonotone(r, before, nodes);
    }
  }

  lemma SetBefore(r: Relay, key: Ingress, before: set<NodeId>, nodes: set<NodeId>, e: SessionId)
    requires GrowRelay(r) && Grows(r, key, before, nodes) && e in r.sessions
    ensures PeerSet(r.sessions[e], key).nodes == Via(r, before, e)
  {
    assert e != SELF;
    if e in Targets(r, before) {
    } else {
      assert key !in r.sessions[e].peerSns;
      assert Via(r, before, e) == {};
    }
  }

  lemma SameTargets(r: Relay, r': Relay, key: Ingress, nodes: set<NodeId>)
    requires SameBut(r, r', key)
    ensures Targets(r', nodes) == Targets(r, nodes)
    ensures forall e :: Via(r', nodes, e) == Via(r, nodes, e)
  {
    assert forall n :: HasEgress(r', n) <==> HasEgress(r, n);
    assert forall n | HasEgress(r, n) :: EgressOf(r', n) == EgressOf(r, n);
  }

  lemma GrowRow(r: Relay, key: Ingress, before: set<NodeId>, nodes: set<NodeId>, ref: int)
    requires GrowRelay(r) && FreshRef(r, key, ref) && Grows(r, key, before, nodes)
    ensures RowSplits(OnAdvertise(r, key, nodes, ref), key, nodes)
  {
    var r' := OnAdvertise(r, key, nodes, ref);
    AdvertiseFrame(r, key, nodes, ref);
    AdvertiseRow(r, key, nodes, ref);
    SameTargets(r, r', key, nodes);
    forall e | e in Targets(r, nodes) - {SELF}
      ensures OutMatches(r', key, e) && r'.sessions[e].peerSns[key].nodes == Via(r', nodes, e)
    {
      AdvertiseSets(r, key, nodes, ref, e);
      SetBefore(r, key, before, nodes, e);
      assert Via(r, before, e) <= Via(r, nodes, e);
    }
  }

  /** When an advertise leaves a row that splits the ingress set, whatever went before: exactly when the
      set that each egress session of a listed node already holds has no node that leaves elsewhere now. */
  lemma RowSplitsIff(r: Relay, key: Ingress, nodes: set<NodeId>, ref: int)
    requires RelayInv(r) && FreshRef(r, key, ref)
    ensures RowSplits(OnAdvertise(r, key, nodes, ref), key, nodes) <==>
            forall e | e in Targets(r, nodes) - {SELF} ::
              e in r.sessions && PeerSet(r.sessions[e], key).nodes <= Via(r, nodes, e)
  {
    var r' := OnAdvertise(r, key, nodes, ref);
    AdvertiseFrame(r, key, nodes, ref);
    AdvertiseRow(r, key, nodes, ref);
    SameTargets(r, r', key, nodes);
    forall e | e in Targets(r, nodes) - {SELF} ensures OutMatches(r', key, e) {
      AdvertiseSets(r, key, nodes, ref, e);
    }
    forall e | e in Targets(r, nodes) - {SELF}
      ensures r'.sessions[e].peerSns[key].nodes == PeerSet(r.sessions[e], key).nodes + Via(r, nodes, e)
    {
      AdvertiseSets(r, key, nodes, ref, e);
    }
  }

  /** Otherwise a node is served twice: one that the ingress set lists, and that an egress still in use
      holds from before its route changed, is then in the sets of two egresses. */
  lemma ServedTwice(r: Relay, key: Ingress, nodes: set<NodeId>, ref: int, n: NodeId, e: SessionId)
    requires RelayInv(r) && FreshRef(r, key, ref)
    requires e in Targets(r, nodes) - {SELF} && e in r.sessions && n in PeerSet(r.sessions[e], key).nodes
    requires n in nodes && HasEgress(r, n) && EgressOf(r, n) != e && EgressOf(r, n) != SELF
    ensures var r', e' := OnAdvertise(r, key, nodes, ref), EgressOf(r, n);
            && OutMatches(r', key, e) && OutMatches(r', key, e')
            && n in r'.sessions[e].peerSns[key].nodes && n in r'.sessions[e'].peerSns[key].nodes
  {
    AdvertiseSets(r, key, nodes, ref, e);
    AdvertiseSets(r, key, nodes, ref, EgressOf(r, n));
    assert n in Via(r, nodes, EgressOf(r, n));
  }

  /** It happens to any relay that is told of two nodes behind one session, then changes its route to one of
      them, and is told of both again. */
  lemma RerouteServesTwice(r: Relay, key: Ingress, nodes: set<NodeId>, nodes': set<NodeId>, ref: int, ref': int,
                           best': map<NodeId, SessionId>, n: NodeId, m: NodeId)
    requires RelayInv(r) && key !in r.fib && ref != ref' && {n, m} <= nodes * nodes' && n != r.self && m != r.self
    requires Reachable(r, n) && Reachable(r, m) && r.best[n] == r.best[m]
    requires m in best' && best'[m] == r.best[m] && n in best' && best'[n] in r.sessions && best'[n] != r.best[n]
    ensures var r' := OnAdvertise(OnAdvertise(r, key, nodes, ref).(best := best'), key, nodes', ref');
            && OutMatches(r', key, r.best[n]) && OutMatches(r', key, best'[n])
            && n in r'.sessions[r.best[n]].peerSns[key].nodes && n in r'.sessions[best'[n]].peerSns[key].nodes
  {
    var e := r.best[n];
    assert n in Via(r, nodes, e) && EgressOf(r, n) == e;
    AdvertiseSets(r, key, nodes, ref, e);
    AdvertiseFrame(r, key, nodes, ref);
    AdvertiseRow(r, key, nodes, ref);
    var r2 := OnAdvertise(r, key, nodes, ref).(best := best');
    assert EgressOf(r2, m) == e && EgressOf(r2, n) == best'[n];
    ServedTwice(r2, key, nodes', ref', n, e);
  }

  lemma GrowOtherRow(r: Relay, key: Ingress, before: set<NodeId>, nodes: set<NodeId>, ref: int,
                     k: Ingress, others: set<NodeId>)
    requires GrowRelay(r) && FreshRef(r, key, ref) && Grows(r, key, before, nodes)
    requires k != key && RowSplits(r, k, others)
    ensures RowSplits(OnAdvertise(r, key, nodes, ref), k, others)
  {
    var r' := OnAdvertise(r, key, nodes, ref);
    AdvertiseFrame(r, key, nodes, ref);
    SameTargets(r, r', key, others);
    forall e | e in Targets(r, others) - {SELF}
      ensures OutMatches(r', k, e) && r'.sessions[e].peerSns[k].nodes == Via(r', others, e)
    {
      assert OutMatches(r, k, e);
      NothingStale(r, key, before, nodes, ref, e);
    }
  }

  lemma GrowKeepsOrphans(r: Relay, key: Ingress, before: set<NodeId>, nodes: set<NodeId>, ref: int,
                         e: SessionId, k: Ingress)
    requires GrowRelay(r) && FreshRef(r, key, ref) && Grows(r, key, before, nodes)
    requires e in r.sessions && k in SessionIn(OnAdvertise(r, key, nodes, ref), e).peerSns
    ensures k in OnAdvertise(r, key, nodes, ref).fib && e in OnAdvertise(r, key, nodes, ref).fib[k]
  {
    NothingStale(r, key, before, nodes, ref, e);
    AdvertiseFrame(r, key, nodes, ref);
    AdvertiseRow(r, key, nodes, ref);
    if k == key {
      if n :| n in Via(r, nodes, e) {
        assert e in Targets(r, nodes);
      } else {
        assert Via(r, nodes, e) == {};
        assert key in r.fib && e in r.fib[key];
        TargetsMonotone(r, before, nodes);
      }
    } else {
      assert k in r.sessions[e].peerSns;
    }
  }

  lemma AdvertisedSession(r: Relay, key: Ingress, before: set<NodeId>, nodes: set<NodeId>, ref: int, e: SessionId)
    requires GrowRelay(r) && FreshRef(r, key, ref) && Grows(r, key, before, nodes) && e in r.sessions
    ensures e in OnAdvertise(r, key, nodes, ref).sessions
    ensures GrowSession(OnAdvertise(r, key, nodes, ref).sessions[e], Behind(r.best, e))
  {
    NothingStale(r, key, before, nodes, ref, e);
    GrowMarkAll(Opened(r, key), key, ref, Sorted(nodes));
  }

  lemma AdvertiseRelay(r: Relay, key: Ingress, nodes: set<NodeId>, ref: int)
    requires RelayOk(r) && FreshRef(r, key, ref)
    ensures var r' := OnAdvertise(r, key, nodes, ref);
            RelayOk(r') && r'.self == r.self && r'.best == r.best && r'.sessions.Keys == r.sessions.Keys
  {
    AdvertiseFrame(r, key, nodes, ref);
    TakeKeepsRelay(r, key.0, Advertise(key.1, nodes), ref);
  }

  lemma GrowAdvertise(r: Relay, key: Ingress, before: set<NodeId>, nodes: set<NodeId>, ref: int)
    requires GrowRelay(r) && FreshRef(r, key, ref) && Grows(r, key, before, nodes)
    ensures GrowRelay(OnAdvertise(r, key, nodes, ref))
  {
    var r' := OnAdvertise(r, key, nodes, ref);
    AdvertiseRelay(r, key, nodes, ref);
    forall e | e in r'.sessions ensures GrowSession(r'.sessions[e], Behind(r'.best, e)) {
      AdvertisedSession(r, key, before, nodes, ref, e);
    }
    forall e, k | e in r'.sessions && k in r'.sessions[e].peerSns ensures k in r'.fib && e in r'.fib[k] {
      GrowKeepsOrphans(r, key, before, nodes, ref, e, k);
    }
  }

  // ---------------------------------------------------------------- the network

  /** Each relay's stable choice of session for each node. */
  type Routes = map<NodeId, map<NodeId, SessionId>>

  ghost predicate GrowEnd(net: Net, links: Links, x: End) {
    RowsSplit(RelayAt(net, x.0), x.1, Told(net, links, x))
  }

  ghost predicate GrowInv(net: Net, links: Links, routes: Routes) {
    && NetInv(net, links)
    && (forall u | u in net.relays :: GrowRelay(net.relays[u]) && u in routes && net.relays[u].best == routes[u])
    && (forall x | x in links :: GrowEnd(net, links, x))
  }

  /** A subscriber's node is added on the best session towards it; control messages are delivered. */
  ghost predicate GrowStep(routes: Routes, step: Step) {
    match step
    case Subscribe(at, track, node) =>
      at.0 in routes && node in routes[at.0] && routes[at.0][node] == at.1
    case Receive(at, ref) => true
    case Unsubscribe(at, track, node) => false
    case Reroute(relay, best) => false
    case Disconnect(at) => false
  }

  lemma WireGrowing(net: Net, links: Links, routes: Routes, x: End)
    requires GrowInv(net, links, routes) && x in links
    ensures GrowingLog(Wire(net, links, x), Behind(RelayAt(net, links[x].0).best, links[x].1))
  {
    EndRelay(net, links, links[x]);
    assert GrowRelay(net.relays[links[x].0]);
  }

  /** What the next message asks of the reading relay. */
  lemma NextGrows(net: Net, links: Links, routes: Routes, x: End)
    requires GrowInv(net, links, routes) && x in links
    requires 0 <= ReadCount(net, x) < |Wire(net, links, x)|
    ensures var msg, told := Next(net, links, x), Told(net, links, x);
            msg.Advertise? &&
            Grows(RelayAt(net, x.0), (x.1, msg.id), if msg.id in told then told[msg.id] else {}, msg.nodes)
  {
    WireGrowing(net, links, routes, x);
    GrowingAt(Wire(net, links, x), Behind(RelayAt(net, links[x].0).best, links[x].1), ReadCount(net, x));
    EndRelay(net, links, x);
    assert GrowEnd(net, links, x);
  }

  /** A relay after a growing step: still splitting, its other rows as before. */
  ghost predicate StillSplits(r: Relay, r': Relay) {
    && r'.self == r.self && r'.best == r.best && LogsGrow(r, r') && GrowRelay(r')
  }

  lemma EndStillSplit(net: Net, links: Links, r': Relay, y: End)
    requires Wired(net, links) && y in links && r'.self in net.relays
    requires EndOk(net, links, y) && GrowEnd(net, links, y)
    requires StillSplits(net.relays[r'.self], r')
    requires r'.self == y.0 ==> RowsSplit(r', y.1, Told(net, links, y))
    ensures GrowEnd(WithRelay(net, r'), links, y)
  {
    WireGrows(net, links, r', y);
    PrefixGrows(Wire(net, links, y), Wire(WithRelay(net, r'), links, y), ReadCount(net, y));
  }

  lemma ToldUnchanged(net: Net, links: Links, x: End, y: End)
    requires x != y
    ensures GrowEnd(net, links, y) ==> GrowEnd(net.(read := net.read[x := ReadCount(net, x) + 1]), links, y)
  {
  }

  lemma OtherSessionRows(r: Relay, key: Ingress, before: set<NodeId>, nodes: set<NodeId>, ref: int,
                         j: SessionId, told: map<SnsId, set<NodeId>>)
    requires GrowRelay(r) && FreshRef(r, key, ref) && Grows(r, key, before, nodes)
    requires RowsSplit(r, j, told)
    ensures RowsSplit(OnAdvertise(r, key, nodes, ref), j, if j == key.0 then told[key.1 := nodes] else told)
  {
    var r' := OnAdvertise(r, key, nodes, ref);
    var told' := if j == key.0 then told[key.1 := nodes] else told;
    forall id | id in told' ensures RowSplits(r', (j, id), told'[id]) {
      if (j, id) == key {
        GrowRow(r, key, before, nodes, ref);
      } else {
        GrowOtherRow(r, key, before, nodes, ref, (j, id), told[id]);
      }
    }
  }

  /** The set an advertise replaces. */
  ghost function Before(told: map<SnsId, set<NodeId>>, id: SnsId): set<NodeId> {
    if id in told then told[id] else {}
  }

  lemma TakeGrows(r: Relay, j: SessionId, msg: SnsMsg, ref: int, before: set<NodeId>)
    requires GrowRelay(r) && FreshRef(r, (j, msg.id), ref)
    requires msg.Advertise? && Grows(r, (j, msg.id), before, msg.nodes)
    ensures StillSplits(r, Take(r, j, msg, ref))
  {
    GrowAdvertise(r, (j, msg.id), before, msg.nodes, ref);
    TakeLogs(r, j, msg, ref);
    TakeKeepsRelay(r, j, msg, ref);
  }

  lemma TakeSplits(r: Relay, j: SessionId, msg: SnsMsg, ref: int, before: set<NodeId>,
                   i: SessionId, told: map<SnsId, set<NodeId>>)
    requires GrowRelay(r) && FreshRef(r, (j, msg.id), ref)
    requires msg.Advertise? && Grows(r, (j, msg.id), before, msg.nodes)
    requires RowsSplit(r, i, told)
    ensures RowsSplit(Take(r, j, msg, ref), i, if i == j then ReplayStep(told, msg) else told)
  {
    OtherSessionRows(r, (j, msg.id), before, msg.nodes, ref, i, told);
  }

  lemma GrowReader(net: Net, links: Links, x: End, r': Relay)
    requires Wired(net, links) && x in links && EndOk(net, links, x)
    requires ReadCount(net, x) < |Wire(net, links, x)|
    requires r'.self == x.0 && LogsGrow(net.relays[x.0], r')
    requires RowsSplit(r', x.1, ReplayStep(Told(net, links, x), Next(net, links, x)))
    ensures GrowEnd(ReadOne(net, x, r'), links, x)
  {
    var net' := ReadOne(net, x, r');
    WireGrows(net, links, r', x);
    assert Wire(net', links, x) == Wire(WithRelay(net, r'), links, x);
    OneMoreTold(Wire(net, links, x), Wire(net', links, x), ReadCount(net, x));
  }

  lemma GrowBystander(net: Net, links: Links, x: End, r': Relay, y: End)
    requires Wired(net, links) && x in links && y in links && y != x
    requires EndOk(net, links, y) && GrowEnd(net, links, y)
    requires r'.self == x.0 && StillSplits(net.relays[x.0], r')
    requires y.0 == x.0 ==> RowsSplit(r', y.1, Told(net, links, y))
    ensures GrowEnd(ReadOne(net, x, r'), links, y)
  {
    EndStillSplit(net, links, r', y);
    ToldUnchanged(WithRelay(net, r'), links, x, y);
  }

  /** The reading relay `r` becomes `r'` by the message `msg`. */
  lemma GrowReceiveEnd(net: Net, links: Links, routes: Routes, x: End, ref: int, r: Relay, msg: SnsMsg, r': Relay, y: End)
    requires 0 <= ReadCount(net, x) < |Wire(net, links, x)| && msg == Next(net, links, x)
    requires r == RelayAt(net, x.0) && FreshRef(r, (x.1, msg.id), ref) && r' == Take(r, x.1, msg, ref)
    requires GrowInv(net, links, routes) && x in links && y in links && StillSplits(r, r')
    ensures GrowEnd(ReadOne(net, x, r'), links, y)
  {
    EndRelay(net, links, x);
    EndRelay(net, links, y);
    NextGrows(net, links, routes, x);
    assert GrowEnd(net, links, y);
    if y.0 == x.0 {
      TakeSplits(r, x.1, msg, ref, Before(Told(net, links, x), msg.id), y.1, Told(net, links, y));
    }
    if y == x {
      GrowReader(net, links, x, r');
    } else {
      GrowBystander(net, links, x, r', y);
    }
  }

  lemma GrowRelays(net: Net, links: Links, routes: Routes, r': Relay, net': Net)
    requires GrowInv(net, links, routes) && r'.self in net.relays
    requires StillSplits(net.relays[r'.self], r')
    requires NetInv(net', links) && net'.relays == net.relays[r'.self := r']
    requires forall y | y in links :: GrowEnd(net', links, y)
    ensures GrowInv(net', links, routes)
  {
  }

  lemma GrowReceive(net: Net, links: Links, routes: Routes, x: End, ref: int, net': Net)
    requires Enabled(net, links, Receive(x, ref)) && net' == Apply(net, links, Receive(x, ref))
    requires GrowInv(net, links, routes)
    ensures GrowInv(net', links, routes)
  {
    StepKeeps(net, links, Receive(x, ref));
    EndRelay(net, links, x);
    var r, msg := net.relays[x.0], Next(net, links, x);
    NextGrows(net, links, routes, x);
    TakeGrows(r, x.1, msg, ref, Before(Told(net, links, x), msg.id));
    ReceiveIsReadOne(net, links, x, ref);
    forall y | y in links ensures GrowEnd(net', links, y) {
      GrowReceiveEnd(net, links, routes, x, ref, r, msg, Take(r, x.1, msg, ref), y);
    }
    GrowRelays(net, links, routes, Take(r, x.1, msg, ref), net');
  }

  lemma GrowSubscribeRelay(r: Relay, e: SessionId, track: TrackHash, node: NodeId)
    requires GrowRelay(r) && e in r.sessions && node in r.best && r.best[node] == e
    ensures StillSplits(r, WithSession(r, e, AddSub(r.sessions[e], track, node)))
    ensures forall k, nodes | RowSplits(r, k, nodes) ::
              RowSplits(WithSession(r, e, AddSub(r.sessions[e], track, node)), k, nodes)
  {
    var s := r.sessions[e];
    var s' := AddSub(s, track, node);
    var r' := WithSession(r, e, s');
    AddSubChanges(s, track, node);
    GrowAddSub(s, track, node, Behind(r.best, e));
    SubscribeOk(r, e, s');
    forall k, nodes | RowSplits(r, k, nodes) ensures RowSplits(r', k, nodes) {
      SubscribedRow(r, e, s', k, nodes);
    }
  }

  lemma SubscribedRow(r: Relay, e: SessionId, s': Session, k: Ingress, nodes: set<NodeId>)
    requires RowSplits(r, k, nodes) && e in r.sessions && s'.peerSns == r.sessions[e].peerSns
    ensures RowSplits(WithSession(r, e, s'), k, nodes)
  {
    var r' := WithSession(r, e, s');
    SameTargets(r, r', k, nodes);
    forall d | d in Targets(r, nodes) - {SELF}
      ensures OutMatches(r', k, d) && r'.sessions[d].peerSns[k].nodes == Via(r', nodes, d)
    {
      assert OutMatches(r, k, d);
    }
  }

  lemma GrowSubscribe(net: Net, links: Links, routes: Routes, at: End, track: TrackHash, node: NodeId)
    requires GrowInv(net, links, routes) && at in links
    requires GrowStep(routes, Subscribe(at, track, node))
    ensures GrowInv(Apply(net, links, Subscribe(at, track, node)), links, routes)
  {
    EndRelay(net, links, at);
    var r := net.relays[at.0];
    var r' := WithSession(r, at.1, AddSub(r.sessions[at.1], track, node));
    var net' := Apply(net, links, Subscribe(at, track, node));
    assert net' == WithRelay(net, r');
    SubscribeKeeps(net, links, at, track, node);
    GrowSubscribeRelay(r, at.1, track, node);
    forall y | y in links ensures GrowEnd(net', links, y) {
      assert GrowEnd(net, links, y);
      EndRelay(net, links, y);
      EndStillSplit(net, links, r', y);
    }
    GrowRelays(net, links, routes, r', net');
  }

  // ---------------------------------------------------------------- growing runs

  ghost predicate GrowSteps(routes: Routes, steps: seq<Step>) {
    forall i | 0 <= i < |steps| :: GrowStep(routes, steps[i])
  }

  /** The empty network whose relays use the given routes; no relay routes to itself. */
  ghost predicate GrowInitial(net: Net, links: Links, routes: Routes) {
    && Initial(net, links)
    && forall u | u in net.relays ::
         u in routes && u !in routes[u] && net.relays[u] == NewRelay(u, links, routes[u])
  }

  lemma NewRelayGrows(u: NodeId, links: Links, best: map<NodeId, SessionId>)
    requires ValidLinks(links) && u !in best
    ensures GrowRelay(NewRelay(u, links, best))
  {
    NewRelayOk(u, links, best);
    NewSessionInv();
    var r := NewRelay(u, links, best);
    forall e | e in r.sessions ensures GrowSession(r.sessions[e], Behind(r.best, e)) {
      assert r.sessions[e] == NEW_SESSION;
    }
  }

  lemma EmptyGrowEnd(net: Net, links: Links, x: End)
    requires x.0 in net.relays && x in net.read && net.read[x] == 0
    ensures GrowEnd(net, links, x)
  {
    assert Prefix(Wire(net, links, x), 0) == [];
  }

  lemma GrowInitialInv(net: Net, links: Links, routes: Routes)
    requires GrowInitial(net, links, routes)
    ensures GrowInv(net, links, routes)
  {
    InitialInv(net, links);
    forall u | u in net.relays ensures GrowRelay(net.relays[u]) {
      NewRelayGrows(u, links, routes[u]);
    }
    forall x | x in links ensures GrowEnd(net, links, x) {
      EmptyGrowEnd(net, links, x);
    }
  }

  lemma GrowStepKeeps(net: Net, links: Links, routes: Routes, step: Step, net': Net)
    requires Enabled(net, links, step) && net' == Apply(net, links, step)
    requires GrowInv(net, links, routes) && GrowStep(routes, step)
    ensures GrowInv(net', links, routes)
  {
    match step {
      case Subscribe(at, track, node) => GrowSubscribe(net, links, routes, at, track, node);
      case Receive(at, ref) => GrowReceive(net, links, routes, at, ref, net');
      case _ =>
    }
  }

  lemma GrowTail(routes: Routes, steps: seq<Step>)
    requires GrowSteps(routes, steps) && steps != []
    ensures GrowStep(routes, steps[0]) && GrowSteps(routes, steps[1..])
  {
  }

  lemma {:induction false} GrowRun(net: Net, links: Links, routes: Routes, steps: seq<Step>)
    requires GrowInv(net, links, routes) && IsRun(net, links, steps) && GrowSteps(routes, steps)
    ensures GrowInv(After(net, links, steps), links, routes)
    decreases |steps|
  {
    if steps != [] {
      GrowTail(routes, steps);
      GrowStepKeeps(net, links, routes, steps[0], Apply(net, links, steps[0]));
      GrowRun(Apply(net, links, steps[0]), links, routes, steps[1..]);
    }
  }

  /** The state reached by a growing run, with every control message delivered. */
  ghost predicate Settled(net: Net, links: Links, routes: Routes) {
    && (exists start, steps :: GrowInitial(start, links, routes) && IsRun(start, links, steps)
                               && GrowSteps(routes, steps) && net == After(start, links, steps))
    && (forall x | x in links :: ReadCount(net, x) == |Wire(net, links, x)|)
  }

  lemma SettledInv(net: Net, links: Links, routes: Routes)
    requires Settled(net, links, routes)
    ensures GrowInv(net, links, routes)
  {
    var start, steps :| GrowInitial(start, links, routes) && IsRun(start, links, steps)
                        && GrowSteps(routes, steps) && net == After(start, links, steps);
    GrowInitialInv(start, links, routes);
    GrowRun(start, links, routes, steps);
  }
}
