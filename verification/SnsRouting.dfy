/**
 How a relay turns an ingress subscribe-node-set into one egress set for each best peer
 session, and keeps the peer forwarding table (`peer_fib_`) by mark and sweep.
 */
module SnsRouting {
  import opened Ordered
  import opened Sessions

  /** One egress of an ingress set. `streams` maps ingress stream ids to egress stream ids. */
  datatype FibEntry = FibEntry(updateRef: int, streams: map<int, int>, outSns: SnsId)

  type FibRow = map<SessionId, FibEntry>

  /** Egress session id 0 stands for the relay's own client manager. */
  const SELF: SessionId := 0

  datatype Relay = Relay(
    self: NodeId,
    sessions: map<SessionId, Session>,
    best: map<NodeId, SessionId>,
    fib: map<Ingress, FibRow>)

  function Row(r: Relay, key: Ingress): FibRow {
    if key in r.fib then r.fib[key] else map[]
  }

  /** The table without the ingress rows of a session. */
  function RowsWithout(fib: map<Ingress, FibRow>, j: SessionId): map<Ingress, FibRow> {
    map k | k in fib && k.0 != j :: fib[k]
  }

  /** The node can be reached: it has a best session and that session is alive. */
  predicate Reachable(r: Relay, node: NodeId) {
    node in r.best && r.best[node] in r.sessions
  }

  // ---------------------------------------------------------------- an advertise

  function Mark(r: Relay, key: Ingress, ref: int, node: NodeId): Relay {
    if node == r.self then
      r.(fib := r.fib[key := Row(r, key)[SELF := FibEntry(ref, map[], 0)]])
    else if Reachable(r, node) then
      var e := r.best[node];
      var s := AddPeer(r.sessions[e], key, node);
      r.(sessions := r.sessions[e := s],
         fib := r.fib[key := Row(r, key)[e := FibEntry(ref, map[], s.peerSns[key].id)]])
    else r
  }

  function MarkAll(r: Relay, key: Ingress, ref: int, nodes: seq<NodeId>): Relay {
    if nodes == [] then r
    else Mark(MarkAll(r, key, ref, nodes[..|nodes| - 1]), key, ref, nodes[|nodes| - 1])
  }

  /** The egresses of a row that this update did not mark. */
  function Stale(row: FibRow, ref: int): set<SessionId> {
    set e | e in row && row[e].updateRef != ref
  }

  function StaleAmong(row: FibRow, ref: int, es: seq<SessionId>): set<SessionId> {
    if es == [] then {}
    else
      var e := es[|es| - 1];
      StaleAmong(row, ref, es[..|es| - 1]) + if e in row && row[e].updateRef != ref then {e} else {}
  }

  lemma StaleAmongNext(row: FibRow, ref: int, es: seq<SessionId>, k: nat)
    requires k < |es| && es[k] in row
    ensures StaleAmong(row, ref, es[..k + 1]) ==
            StaleAmong(row, ref, es[..k]) + if row[es[k]].updateRef != ref then {es[k]} else {}
  {
    assert es[..k + 1][..k] == es[..k];
  }

  lemma {:induction false} StaleAmongMembers(row: FibRow, ref: int, es: seq<SessionId>, e: SessionId)
    ensures e in StaleAmong(row, ref, es) <==> e in es && e in row && row[e].updateRef != ref
  {
    if es != [] {
      StaleAmongMembers(row, ref, es[..|es| - 1], e);
      assert es == es[..|es| - 1] + [es[|es| - 1]];
    }
  }

  lemma StaleAmongAll(row: FibRow, ref: int)
    ensures StaleAmong(row, ref, Sorted(row.Keys)) == Stale(row, ref)
  {
    forall e ensures e in StaleAmong(row, ref, Sorted(row.Keys)) <==> e in Stale(row, ref) {
      StaleAmongMembers(row, ref, Sorted(row.Keys), e);
      SortedMembers(row.Keys, e);
    }
  }

  type SessionTable = map<SessionId, Session>

  /** Each session of `es` with the key made of its own id. */
  function OwnKeys(es: set<SessionId>, id: SnsId): map<SessionId, Ingress> {
    map e | e in es :: (e, id)
  }

  /** Each session of `es` with the same key. */
  function SameKey(es: set<SessionId>, key: Ingress): map<SessionId, Ingress> {
    map e | e in es :: key
  }

  /** Every session named in `at` drops the set filed under the key given there. */
  function DropSets(sessions: SessionTable, at: map<SessionId, Ingress>): SessionTable {
    map e | e in sessions :: if e in at then RemovePeer(sessions[e], at[e], 0) else sessions[e]
  }

  /** The same, one session at a time. */
  function DropEach(sessions: SessionTable, at: map<SessionId, Ingress>, es: seq<SessionId>): SessionTable {
    if es == [] then sessions
    else
      var before, e := DropEach(sessions, at, es[..|es| - 1]), es[|es| - 1];
      if e in at && e in before then before[e := RemovePeer(before[e], at[e], 0)] else before
  }

  lemma DropEachSkip(sessions: SessionTable, at: map<SessionId, Ingress>, es: seq<SessionId>, k: nat)
    requires k < |es|
    ensures es[k] !in at ==> DropEach(sessions, at, es[..k + 1]) == DropEach(sessions, at, es[..k])
  {
    assert es[..k + 1][..k] == es[..k];
  }

  lemma {:induction false} DropEachScan(sessions: SessionTable, at: map<SessionId, Ingress>, s: set<SessionId>, k: nat)
    requires k <= |s|
    ensures DropEach(sessions, at, Sorted(s)[..k]) ==
            DropSets(sessions, map e | e in at && e in Seen(s, k) :: at[e])
  {
    if k == 0 {
      SeenNone(s);
    } else {
      DropEachScan(sessions, at, s, k - 1);
      SeeOne(s, k - 1);
      assert Sorted(s)[..k][..k - 1] == Sorted(s)[..k - 1];
    }
  }

  lemma DropEachIsDropSets(sessions: SessionTable, at: map<SessionId, Ingress>, s: set<SessionId>)
    requires at.Keys <= s
    ensures DropEach(sessions, at, Sorted(s)) == DropSets(sessions, at)
  {
    DropEachScan(sessions, at, s, |s|);
    assert Sorted(s)[..|s|] == Sorted(s);
    assert at == map e | e in at && e in Seen(s, |s|) :: at[e];
  }

  /** The sweep drops the stale egresses. On each live one it also removes the set keyed by the
      *egress* session id, which is not the key the set was added under. */
  function Sweep(r: Relay, key: Ingress, ref: int): Relay {
    var stale := Stale(Row(r, key), ref);
    r.(sessions := DropSets(r.sessions, OwnKeys(stale - {SELF}, key.1)),
       fib := r.fib[key := Row(r, key) - stale])
  }

  function Opened(r: Relay, key: Ingress): Relay {
    r.(fib := r.fib[key := Row(r, key)])
  }

  /** `SnsReceived` for an advertise; only a row that existed before is swept. */
  function OnAdvertise(r: Relay, key: Ingress, nodes: set<NodeId>, ref: int): Relay {
    var marked := MarkAll(Opened(r, key), key, ref, Sorted(nodes));
    if key in r.fib then Sweep(marked, key, ref) else marked
  }

  // ---------------------------------------------------------------- a withdraw

  function OnWithdraw(r: Relay, key: Ingress): Relay {
    if key !in r.fib then r
    else
      r.(sessions := DropSets(r.sessions, SameKey(r.fib[key].Keys - {SELF}, key)),
         fib := r.fib - {key})
  }

  // ---------------------------------------------------------------- the manager object

  class PeerManager {
    const self: NodeId
    var sessions: map<SessionId, PeerSession>
    var best: map<NodeId, SessionId>
    var fib: map<Ingress, FibRow>

    /** Session ids are nonzero and no session object is registered twice. */
    ghost predicate Valid()
      reads this
    {
      && SELF !in sessions
      && forall a, b | a in sessions && b in sessions && a != b :: sessions[a] != sessions[b]
    }

    /** The sessions as values. */
    ghost function Table(): SessionTable
      reads this`sessions, sessions.Values
    {
      map e | e in sessions :: sessions[e].View()
    }

    ghost function View(): Relay
      reads this, sessions.Values
    {
      Relay(self, Table(), best, fib)
    }

    method MarkNode(key: Ingress, node: NodeId, ref: int)
      requires Valid() && key in fib
      modifies this`fib, sessions.Values
      ensures Valid() && key in fib
      ensures View() == Mark(old(View()), key, ref, node)
    {
      if node == self {
        var row: FibRow := fib[key];
        row := row[SELF := FibEntry(ref, map[], 0)];
        fib := fib[key := row];
      } else if node in best && best[node] in sessions {
        var e := best[node];
        var id, isNew := sessions[e].AddPeerSnsSourceNode(key, node);
        var row: FibRow := fib[key];
        row := row[e := FibEntry(ref, map[], id)];
        fib := fib[key := row];
        assert forall d | d in sessions && d != e :: sessions[d] != sessions[e];
        assert Table() == old(Table())[e := AddPeer(old(Table())[e], key, node)];
      }
    }

    method MarkNodes(key: Ingress, nodes: set<NodeId>, ref: int)
      requires Valid() && key in fib
      modifies this`fib, sessions.Values
      ensures Valid() && key in fib
      ensures View() == MarkAll(old(View()), key, ref, Sorted(nodes))
    {
      var order := Sorted(nodes);
      for k := 0 to |order|
        invariant Valid() && key in fib
        invariant View() == MarkAll(old(View()), key, ref, order[..k])
      {
        assert order[..k + 1][..k] == order[..k];
        MarkNode(key, order[k], ref);
      }
      assert order[..|order|] == order;
    }

    /** Step `k` of a removal loop: the session, when alive, drops the set filed under `key`. */
    method DropSet(order: seq<SessionId>, k: nat, key: Ingress,
                   ghost before: SessionTable, ghost at: map<SessionId, Ingress>)
      requires Valid() && k < |order| && order[k] in at && at[order[k]] == key
      requires Table() == DropEach(before, at, order[..k])
      modifies sessions.Values
      ensures Table() == DropEach(before, at, order[..k + 1])
    {
      assert order[..k + 1][..k] == order[..k];
      var e := order[k];
      if e in sessions {
        var nodeRemoved, snsRemoved := sessions[e].RemovePeerSnsSourceNode(key, 0);
        assert forall d | d in sessions && d != e :: sessions[d] != sessions[e];
        assert Table() == old(Table())[e := RemovePeer(old(Table())[e], key, 0)];
      }
    }

    /** Step `k` of the sweep loop. */
    method SweepEntry(row: FibRow, id: SnsId, ref: int, order: seq<SessionId>, k: nat, stale: set<SessionId>,
                      ghost before: SessionTable, ghost at: map<SessionId, Ingress>)
      returns (stale': set<SessionId>)
      requires Valid() && k < |order| && order[k] in row
      requires forall e :: e in at <==> e in row && row[e].updateRef != ref && e != SELF
      requires forall e | e in at :: at[e] == (e, id)
      requires stale == StaleAmong(row, ref, order[..k])
      requires Table() == DropEach(before, at, order[..k])
      modifies sessions.Values
      ensures stale' == StaleAmong(row, ref, order[..k + 1])
      ensures Table() == DropEach(before, at, order[..k + 1])
    {
      var e := order[k];
      StaleAmongNext(row, ref, order, k);
      stale' := stale;
      DropEachSkip(before, at, order, k);
      if row[e].updateRef != ref {
        if e != SELF {
          DropSet(order, k, (e, id), before, at);
        }
        stale' := stale + {e};
      }
    }

    /** The sweep loop: finds the unmarked egresses and drops on each live one the set `at` names. */
    method DropStale(row: FibRow, id: SnsId, ref: int, ghost at: map<SessionId, Ingress>)
      returns (stale: set<SessionId>)
      requires Valid()
      requires forall e :: e in at <==> e in row && row[e].updateRef != ref && e != SELF
      requires forall e | e in at :: at[e] == (e, id)
      modifies sessions.Values
      ensures stale == StaleAmong(row, ref, Sorted(row.Keys))
      ensures Table() == DropEach(old(Table()), at, Sorted(row.Keys))
    {
      var order := Sorted(row.Keys);
      ghost var before := Table();
      stale := {};
      for k := 0 to |order|
        invariant Valid() && sessions == old(sessions)
        invariant stale == StaleAmong(row, ref, order[..k])
        invariant Table() == DropEach(before, at, order[..k])
      {
        SortedMembers(row.Keys, order[k]);
        stale := SweepEntry(row, id, ref, order, k, stale, before, at);
      }
      assert order[..|order|] == order;
    }

    method SweepRow(key: Ingress, ref: int)
      requires Valid() && key in fib
      modifies this`fib, sessions.Values
      ensures Valid()
      ensures View() == Sweep(old(View()), key, ref)
    {
      ghost var at := OwnKeys(Stale(fib[key], ref) - {SELF}, key.1);
      var stale := DropStale(fib[key], key.1, ref, at);
      StaleAmongAll(fib[key], ref);
      DropEachIsDropSets(old(Table()), at, fib[key].Keys);
      fib := fib[key := fib[key] - stale];
    }

    /** The advertise form. `ref` is the random mark drawn for this update. */
    method SnsAdvertised(from: SessionId, id: SnsId, nodes: set<NodeId>, ref: int)
      requires Valid()
      modifies this`fib, sessions.Values
      ensures Valid()
      ensures View() == OnAdvertise(old(View()), (from, id), nodes, ref)
    {
      var key := (from, id);
      var newIngress := key !in fib;
      if newIngress {
        fib := fib[key := map[]];
      } else {
        assert fib[key := fib[key]] == fib;
      }
      assert View() == Opened(old(View()), key);
      MarkNodes(key, nodes, ref);
      if !newIngress {
        SweepRow(key, ref);
      }
    }

    /** The withdraw loop: every egress of the row drops the set filed under `key`. */
    method DropFromAll(row: FibRow, key: Ingress, ghost at: map<SessionId, Ingress>)
      requires Valid() && row.Keys - {SELF} <= sessions.Keys
      requires forall e :: e in at <==> e in row && e != SELF
      requires forall e | e in at :: at[e] == key
      modifies sessions.Values
      ensures Table() == DropEach(old(Table()), at, Sorted(row.Keys))
    {
      var order := Sorted(row.Keys);
      ghost var before := Table();
      for k := 0 to |order|
        invariant Valid() && sessions == old(sessions)
        invariant Table() == DropEach(before, at, order[..k])
      {
        SortedMembers(row.Keys, order[k]);
        DropOne(order, k, key, before, at);
      }
      assert order[..|order|] == order;
    }

    method DropOne(order: seq<SessionId>, k: nat, key: Ingress,
                   ghost before: SessionTable, ghost at: map<SessionId, Ingress>)
      requires Valid() && k < |order| && (order[k] in at <==> order[k] != SELF)
      requires forall e | e in at :: at[e] == key
      requires Table() == DropEach(before, at, order[..k])
      modifies sessions.Values
      ensures Table() == DropEach(before, at, order[..k + 1])
    {
      DropEachSkip(before, at, order, k);
      if order[k] != SELF {
        DropSet(order, k, key, before, at);
      }
    }

    /** The withdraw form dereferences every egress of the row, so each must be alive. */
    method SnsWithdrawn(from: SessionId, id: SnsId)
      requires Valid()
      requires (from, id) in fib ==> fib[(from, id)].Keys - {SELF} <= sessions.Keys
      modifies this`fib, sessions.Values
      ensures Valid()
      ensures View() == OnWithdraw(old(View()), (from, id))
    {
      var key := (from, id);
      if key in fib {
        ghost var at := SameKey(fib[key].Keys - {SELF}, key);
        DropFromAll(fib[key], key, at);
        DropEachIsDropSets(old(Table()), at, fib[key].Keys);
        fib := fib - {key};
      }
    }
  }

  // ---------------------------------------------------------------- what an advertise does

  /** The egress chosen for a node: itself, its best live session, or none. */
  predicate HasEgress(r: Relay, node: NodeId) {
    node == r.self || Reachable(r, node)
  }

  function EgressOf(r: Relay, node: NodeId): SessionId
    requires HasEgress(r, node)
  {
    if node == r.self then SELF else r.best[node]
  }

  ghost function Targets(r: Relay, nodes: set<NodeId>): set<SessionId> {
    set n | n in nodes && HasEgress(r, n) :: EgressOf(r, n)
  }

  /** The nodes of a set that leave through `e`. */
  ghost function Via(r: Relay, nodes: set<NodeId>, e: SessionId): set<NodeId> {
    set n | n in nodes && HasEgress(r, n) && EgressOf(r, n) == e
  }

  ghost predicate SetGrown(s: Session, s': Session, key: Ingress, more: set<NodeId>) {
    if more == {} then s' == s
    else
      && key in s'.peerSns
      && s'.peerSns == s.peerSns[key := s'.peerSns[key]]
      && s'.subSns == s.subSns && s'.connected == s.connected
      && s'.peerSns[key].nodes == PeerSet(s, key).nodes + more
      && (PeerSet(s, key).id != 0 ==> s'.peerSns[key].id == PeerSet(s, key).id)
  }

  /** The egresses `marked` carry the mark of this update and no streams; the others are as before. */
  ghost predicate RowMarked(row: FibRow, row': FibRow, marked: set<SessionId>, ref: int) {
    && row'.Keys == row.Keys + marked
    && (forall e | e in marked :: row'[e].updateRef == ref && row'[e].streams == map[])
    && (forall e | e in row && e !in marked :: row'[e] == row[e])
  }

  /** The entry for `e` names the set that session `e` holds for this ingress. */
  ghost predicate OutMatches(r: Relay, key: Ingress, e: SessionId) {
    e in Row(r, key) && e in r.sessions && key in r.sessions[e].peerSns
    && Row(r, key)[e].outSns == r.sessions[e].peerSns[key].id
  }

  ghost predicate SameBut(r: Relay, r': Relay, key: Ingress) {
    && r'.self == r.self && r'.best == r.best && r'.sessions.Keys == r.sessions.Keys
    && (forall k | k != key :: (k in r'.fib <==> k in r.fib) && (k in r.fib ==> r'.fib[k] == r.fib[k]))
  }

  /** `r'` is `r` after marking the nodes `done` for the ingress `key`. */
  ghost predicate Marked(r: Relay, r': Relay, key: Ingress, ref: int, done: set<NodeId>) {
    && SameBut(r, r', key)
    && key in r'.fib
    && RowMarked(Row(r, key), Row(r', key), Targets(r, done), ref)
    && (forall e | e in Targets(r, done) - {SELF} :: OutMatches(r', key, e))
    && (forall e | e in r.sessions :: SetGrown(r.sessions[e], r'.sessions[e], key, Via(r, done, e)))
  }

  ghost function ViaOne(r: Relay, node: NodeId, e: SessionId): set<NodeId> {
    if HasEgress(r, node) && EgressOf(r, node) == e then {node} else {}
  }

  lemma TargetsStep(r: Relay, done: set<NodeId>, node: NodeId)
    ensures Targets(r, done + {node}) ==
            Targets(r, done) + if HasEgress(r, node) then {EgressOf(r, node)} else {}
    ensures forall e :: Via(r, done + {node}, e) == Via(r, done, e) + ViaOne(r, node, e)
  {
    if HasEgress(r, node) {
      assert EgressOf(r, node) in Targets(r, done + {node});
    }
    forall e | e in Targets(r, done) ensures e in Targets(r, done + {node}) {
      var n :| n in done && HasEgress(r, n) && EgressOf(r, n) == e;
    }
  }

  ghost predicate HasId(s: Session, key: Ingress) {
    key in s.peerSns ==> s.peerSns[key].id != 0
  }

  lemma FreshHasId(s: Session, key: Ingress)
    requires IdsFresh(s)
    ensures HasId(s, key)
  {
  }

  lemma GrownStep(s: Session, s': Session, key: Ingress, more: set<NodeId>, node: NodeId)
    requires HasId(s, key) && HasId(s', key)
    requires SetGrown(s, s', key, more)
    ensures SetGrown(s, AddPeer(s', key, node), key, more + {node})
  {
    var s'' := AddPeer(s', key, node);
    var now := s''.peerSns[key];
    assert now.nodes == PeerSet(s', key).nodes + {node};
    assert s''.peerSns == s'.peerSns[key := now];
    if more != {} {
      assert s''.peerSns == s.peerSns[key := now];
      assert now.nodes == PeerSet(s, key).nodes + (more + {node});
    }
  }

  ghost predicate RelayInv(r: Relay) {
    && SELF !in r.sessions
    && (forall e | e in r.sessions :: SessionInv(r.sessions[e]))
  }

  lemma MarkKeepsInv(r: Relay, key: Ingress, ref: int, node: NodeId)
    requires RelayInv(r)
    ensures RelayInv(Mark(r, key, ref, node))
  {
    if node != r.self && Reachable(r, node) {
      var e := r.best[node];
      assert SessionInv(r.sessions[e]);
      AddPeerKeeps(r.sessions[e], key, node);
    }
  }

  lemma MarkSameBut(r: Relay, key: Ingress, ref: int, node: NodeId)
    requires key in r.fib
    ensures SameBut(r, Mark(r, key, ref, node), key) && key in Mark(r, key, ref, node).fib
    ensures var row, row' := Row(r, key), Row(Mark(r, key, ref, node), key);
            if HasEgress(r, node)
            then EgressOf(r, node) in row' && row' == row[EgressOf(r, node) := row'[EgressOf(r, node)]]
                 && row'[EgressOf(r, node)].updateRef == ref && row'[EgressOf(r, node)].streams == map[]
            else row' == row
  {
  }

  lemma MarkOut(r: Relay, key: Ingress, ref: int, node: NodeId, e: SessionId)
    requires RelayInv(r) && e != SELF
    requires OutMatches(r, key, e) || (HasEgress(r, node) && EgressOf(r, node) == e)
    ensures OutMatches(Mark(r, key, ref, node), key, e)
  {
  }

  lemma MarkStepSession(r: Relay, r1: Relay, key: Ingress, ref: int, done: set<NodeId>, node: NodeId, e: SessionId)
    requires RelayInv(r) && RelayInv(r1)
    requires SameBut(r, r1, key) && e in r.sessions
    requires SetGrown(r.sessions[e], r1.sessions[e], key, Via(r, done, e))
    ensures SetGrown(r.sessions[e], Mark(r1, key, ref, node).sessions[e], key, Via(r, done + {node}, e))
  {
    TargetsStep(r, done, node);
    assert e != SELF;
    if node != r.self && Reachable(r, node) && r.best[node] == e {
      FreshHasId(r.sessions[e], key);
      FreshHasId(r1.sessions[e], key);
      GrownStep(r.sessions[e], r1.sessions[e], key, Via(r, done, e), node);
    } else {
      assert ViaOne(r, node, e) == {};
    }
  }

  lemma RowMarkedStep(row: FibRow, row1: FibRow, row2: FibRow, marked: set<SessionId>, x: SessionId, ref: int)
    requires RowMarked(row, row1, marked, ref)
    requires x in row2 && row2 == row1[x := row2[x]]
    requires row2[x].updateRef == ref && row2[x].streams == map[]
    ensures RowMarked(row, row2, marked + {x}, ref)
  {
  }

  lemma MarkStepRow(r: Relay, r1: Relay, key: Ingress, ref: int, done: set<NodeId>, node: NodeId)
    requires SameBut(r, r1, key) && key in r1.fib
    requires RowMarked(Row(r, key), Row(r1, key), Targets(r, done), ref)
    ensures SameBut(r, Mark(r1, key, ref, node), key) && key in Mark(r1, key, ref, node).fib
    ensures RowMarked(Row(r, key), Row(Mark(r1, key, ref, node), key), Targets(r, done + {node}), ref)
  {
    MarkSameBut(r1, key, ref, node);
    TargetsStep(r, done, node);
    var r2 := Mark(r1, key, ref, node);
    if HasEgress(r1, node) {
      RowMarkedStep(Row(r, key), Row(r1, key), Row(r2, key), Targets(r, done), EgressOf(r1, node), ref);
    }
  }

  lemma MarkStep(r: Relay, r1: Relay, key: Ingress, ref: int, done: set<NodeId>, node: NodeId)
    requires RelayInv(r) && RelayInv(r1)
    requires Marked(r, r1, key, ref, done)
    ensures Marked(r, Mark(r1, key, ref, node), key, ref, done + {node})
  {
    var r2 := Mark(r1, key, ref, node);
    MarkStepRow(r, r1, key, ref, done, node);
    TargetsStep(r, done, node);
    forall e | e in Targets(r, done + {node}) - {SELF} ensures OutMatches(r2, key, e) {
      MarkOut(r1, key, ref, node, e);
    }
    forall e | e in r.sessions
      ensures SetGrown(r.sessions[e], r2.sessions[e], key, Via(r, done + {node}, e))
    {
      MarkStepSession(r, r1, key, ref, done, node, e);
    }
  }

  lemma {:induction false} MarkAllMarks(r: Relay, key: Ingress, ref: int, ns: seq<NodeId>)
    requires RelayInv(r) && key in r.fib
    ensures Marked(r, MarkAll(r, key, ref, ns), key, ref, Elements(ns))
    ensures RelayInv(MarkAll(r, key, ref, ns))
  {
    if ns == [] {
      assert Targets(r, {}) == {};
      assert forall e :: Via(r, {}, e) == {};
    } else {
      var init, last := ns[..|ns| - 1], ns[|ns| - 1];
      MarkAllMarks(r, key, ref, init);
      var r1 := MarkAll(r, key, ref, init);
      MarkKeepsInv(r1, key, ref, last);
      MarkStep(r, r1, key, ref, Elements(init), last);
      assert ns == init + [last];
      assert Elements(ns) == Elements(init) + {last};
    }
  }

  lemma MembersSorted(nodes: set<NodeId>)
    ensures Elements(Sorted(nodes)) == nodes
  {
    forall n ensures n in Elements(Sorted(nodes)) <==> n in nodes {
      SortedMembers(nodes, n);
    }
  }

  /** The relay after the marking phase of an advertise. */
  function MarkedRelay(r: Relay, key: Ingress, nodes: set<NodeId>, ref: int): Relay {
    MarkAll(Opened(r, key), key, ref, Sorted(nodes))
  }

  lemma OpenedSame(r: Relay, key: Ingress)
    requires RelayInv(r)
    ensures RelayInv(Opened(r, key)) && key in Opened(r, key).fib
    ensures Row(Opened(r, key), key) == Row(r, key)
    ensures forall nodes :: Targets(Opened(r, key), nodes) == Targets(r, nodes)
    ensures forall nodes, e :: Via(Opened(r, key), nodes, e) == Via(r, nodes, e)
    ensures SameBut(r, Opened(r, key), key)
    ensures Opened(r, key).sessions == r.sessions
  {
    var o := Opened(r, key);
    assert forall n :: (HasEgress(o, n) <==> HasEgress(r, n)) && (HasEgress(r, n) ==> EgressOf(o, n) == EgressOf(r, n));
    forall nodes ensures Targets(o, nodes) == Targets(r, nodes) {
    }
  }

  lemma MarkedRelayIsMarked(r: Relay, key: Ingress, nodes: set<NodeId>, ref: int)
    requires RelayInv(r)
    ensures Marked(r, MarkedRelay(r, key, nodes, ref), key, ref, nodes)
    ensures RelayInv(MarkedRelay(r, key, nodes, ref))
  {
    var o := Opened(r, key);
    OpenedSame(r, key);
    MarkAllMarks(o, key, ref, Sorted(nodes));
    MembersSorted(nodes);
  }

  /** The mark drawn for an update is not in use in the row. */
  ghost predicate FreshRef(r: Relay, key: Ingress, ref: int) {
    forall e | e in Row(r, key) :: Row(r, key)[e].updateRef != ref
  }

  lemma StaleAfterMark(r: Relay, key: Ingress, nodes: set<NodeId>, ref: int)
    requires RelayInv(r) && FreshRef(r, key, ref)
    ensures Stale(Row(MarkedRelay(r, key, nodes, ref), key), ref) == Row(r, key).Keys - Targets(r, nodes)
  {
    MarkedRelayIsMarked(r, key, nodes, ref);
    var row, row' := Row(r, key), Row(MarkedRelay(r, key, nodes, ref), key);
    forall e ensures e in Stale(row', ref) <==> e in row.Keys - Targets(r, nodes) {
      if e in row && e !in Targets(r, nodes) {
        assert row'[e] == row[e];
      }
    }
  }

  /** Everything an advertise does to its own row: whatever the row held before, it ends with one
      egress for each best session of a listed node, plus the client manager when the relay itself
      is listed; no egress keeps an old stream. */
  lemma AdvertiseRow(r: Relay, key: Ingress, nodes: set<NodeId>, ref: int)
    requires RelayInv(r) && FreshRef(r, key, ref)
    ensures key in OnAdvertise(r, key, nodes, ref).fib
    ensures var row := Row(OnAdvertise(r, key, nodes, ref), key);
            row.Keys == Targets(r, nodes)
            && forall e | e in row :: row[e].updateRef == ref && row[e].streams == map[]
  {
    MarkedRelayIsMarked(r, key, nodes, ref);
    StaleAfterMark(r, key, nodes, ref);
  }

  /** The egress sets an advertise leaves: each target session holds, under the id the row names,
      every node reached through it. */
  lemma AdvertiseSets(r: Relay, key: Ingress, nodes: set<NodeId>, ref: int, e: SessionId)
    requires RelayInv(r) && FreshRef(r, key, ref)
    requires e in Targets(r, nodes) && e != SELF
    ensures var r' := OnAdvertise(r, key, nodes, ref);
            OutMatches(r', key, e)
            && r'.sessions[e].peerSns[key].nodes == PeerSet(r.sessions[e], key).nodes + Via(r, nodes, e)
            && SetGrown(r.sessions[e], r'.sessions[e], key, Via(r, nodes, e))
  {
    MarkedRelayIsMarked(r, key, nodes, ref);
    StaleAfterMark(r, key, nodes, ref);
    var m := MarkedRelay(r, key, nodes, ref);
    var n :| n in nodes && HasEgress(r, n) && EgressOf(r, n) == e;
    assert n in Via(r, nodes, e);
    assert OutMatches(m, key, e);
    assert OnAdvertise(r, key, nodes, ref).sessions[e] == m.sessions[e];
  }

  /** The rest of the relay after an advertise. */
  lemma AdvertiseFrame(r: Relay, key: Ingress, nodes: set<NodeId>, ref: int)
    requires RelayInv(r)
    ensures SameBut(r, OnAdvertise(r, key, nodes, ref), key)
    ensures RelayInv(OnAdvertise(r, key, nodes, ref))
  {
    MarkedRelayIsMarked(r, key, nodes, ref);
    var m := MarkedRelay(r, key, nodes, ref);
    var r' := OnAdvertise(r, key, nodes, ref);
    forall e | e in r'.sessions ensures SessionInv(r'.sessions[e]) {
      RemovePeerKeeps(m.sessions[e], (e, key.1));
    }
  }

  lemma WithdrawKeepsInv(r: Relay, key: Ingress)
    requires RelayInv(r)
    ensures RelayInv(OnWithdraw(r, key))
  {
    forall e | e in r.sessions ensures SessionInv(OnWithdraw(r, key).sessions[e]) {
      RemovePeerKeeps(r.sessions[e], key);
    }
  }

  // ---------------------------------------------------------------- table and session agree

  /** Every live egress of a row, other than the client manager and the ingress session itself,
      is backed by a set that the egress session holds under a nonzero id, the one in the row. */
  ghost predicate Coherent(r: Relay) {
    forall k, e | k in r.fib && e in r.fib[k] && e != SELF && e != k.0 && e in r.sessions ::
      OutMatches(r, k, e)
  }

  lemma CoherentIds(r: Relay, k: Ingress, e: SessionId)
    requires RelayInv(r) && Coherent(r)
    requires k in r.fib && e in r.fib[k] && e != SELF && e != k.0 && e in r.sessions
    ensures r.fib[k][e].outSns == r.sessions[e].peerSns[k].id != 0
  {
    assert OutMatches(r, k, e);
    assert SessionInv(r.sessions[e]);
  }

  /** One session after an advertise: it takes the nodes reached through it, and when the sweep
      drops it from the row it also loses the set filed under its own id. */
  lemma AdvertiseSession(r: Relay, key: Ingress, nodes: set<NodeId>, ref: int, e: SessionId)
    requires RelayInv(r) && e in r.sessions
    ensures e in OnAdvertise(r, key, nodes, ref).sessions && e in MarkedRelay(r, key, nodes, ref).sessions
    ensures var m := MarkedRelay(r, key, nodes, ref).sessions[e];
            SetGrown(r.sessions[e], m, key, Via(r, nodes, e))
            && OnAdvertise(r, key, nodes, ref).sessions[e] ==
               if key in r.fib && e in Stale(Row(MarkedRelay(r, key, nodes, ref), key), ref)
               then RemovePeer(m, (e, key.1), 0) else m
  {
    MarkedRelayIsMarked(r, key, nodes, ref);
  }

  lemma OtherSetKept(s: Session, m: Session, key: Ingress, more: set<NodeId>, k: Ingress, gone: Ingress)
    requires SetGrown(s, m, key, more)
    requires k != key && k != gone && k in s.peerSns
    ensures k in m.peerSns && m.peerSns[k] == s.peerSns[k]
    ensures k in RemovePeer(m, gone, 0).peerSns && RemovePeer(m, gone, 0).peerSns[k] == s.peerSns[k]
  {
  }

  /** Marking and sweeping the row `key` leaves the backing of every other row alone: the key the
      sweep uses names the egress session as ingress, and such a row is outside the claim. */
  lemma OtherRowsBacked(r: Relay, key: Ingress, nodes: set<NodeId>, ref: int, k: Ingress, e: SessionId)
    requires RelayInv(r) && k != key && e != SELF && e != k.0
    requires OutMatches(r, k, e) && k in r.fib
    requires SameBut(r, OnAdvertise(r, key, nodes, ref), key)
    ensures OutMatches(OnAdvertise(r, key, nodes, ref), k, e)
  {
    AdvertiseSession(r, key, nodes, ref, e);
    OtherSetKept(r.sessions[e], MarkedRelay(r, key, nodes, ref).sessions[e], key, Via(r, nodes, e), k, (e, key.1));
  }

  lemma AdvertiseKeepsCoherent(r: Relay, key: Ingress, nodes: set<NodeId>, ref: int)
    requires RelayInv(r) && Coherent(r) && FreshRef(r, key, ref)
    ensures Coherent(OnAdvertise(r, key, nodes, ref))
  {
    var r' := OnAdvertise(r, key, nodes, ref);
    AdvertiseFrame(r, key, nodes, ref);
    AdvertiseRow(r, key, nodes, ref);
    forall k, e | k in r'.fib && e in r'.fib[k] && e != SELF && e != k.0 && e in r'.sessions
      ensures OutMatches(r', k, e)
    {
      if k == key {
        AdvertiseSets(r, key, nodes, ref, e);
      } else {
        assert k in r.fib && OutMatches(r, k, e);
        OtherRowsBacked(r, key, nodes, ref, k, e);
      }
    }
  }

  /** An egress that the sweep drops from the row is withdrawn from its session only when it is the
      ingress session itself; on any other live session the set, and the far end's row, stay. */
  lemma SweepWithdrawsIff(r: Relay, key: Ingress, nodes: set<NodeId>, ref: int, e: SessionId)
    requires RelayInv(r) && FreshRef(r, key, ref) && key in r.fib
    requires e in r.fib[key] && e != SELF && e !in Targets(r, nodes)
    requires e in r.sessions && key in r.sessions[e].peerSns
    ensures e !in Row(OnAdvertise(r, key, nodes, ref), key)
    ensures e in OnAdvertise(r, key, nodes, ref).sessions
    ensures key !in OnAdvertise(r, key, nodes, ref).sessions[e].peerSns <==> e == key.0
  {
    AdvertiseSession(r, key, nodes, ref, e);
    AdvertiseRow(r, key, nodes, ref);
    StaleAfterMark(r, key, nodes, ref);
    assert Via(r, nodes, e) == {};
  }

  /** What the sweep does to the session of an egress that it drops: the set filed there under the
      session's own id is withdrawn, if there is one, and nothing else. */
  lemma SweptSession(r: Relay, key: Ingress, nodes: set<NodeId>, ref: int, e: SessionId)
    requires RelayInv(r) && FreshRef(r, key, ref) && key in r.fib
    requires e in r.fib[key] && e !in Targets(r, nodes) && e in r.sessions
    ensures e in OnAdvertise(r, key, nodes, ref).sessions
    ensures OnAdvertise(r, key, nodes, ref).sessions[e] == RemovePeer(r.sessions[e], (e, key.1), 0)
  {
    AdvertiseSession(r, key, nodes, ref, e);
    StaleAfterMark(r, key, nodes, ref);
    assert Via(r, nodes, e) == {};
  }

  /** A session that is neither an egress of the row before nor one after it is not touched. */
  lemma AdvertiseOthers(r: Relay, key: Ingress, nodes: set<NodeId>, ref: int, e: SessionId)
    requires RelayInv(r) && FreshRef(r, key, ref)
    requires e in r.sessions && e !in Row(r, key) && e !in Targets(r, nodes)
    ensures e in OnAdvertise(r, key, nodes, ref).sessions && OnAdvertise(r, key, nodes, ref).sessions[e] == r.sessions[e]
  {
    AdvertiseSession(r, key, nodes, ref, e);
    StaleAfterMark(r, key, nodes, ref);
    assert Via(r, nodes, e) == {};
  }

  lemma WithdrawKeepsCoherent(r: Relay, key: Ingress)
    requires RelayInv(r) && Coherent(r)
    ensures Coherent(OnWithdraw(r, key))
  {
    var r' := OnWithdraw(r, key);
    forall k, e | k in r'.fib && e in r'.fib[k] && e != SELF && e != k.0 && e in r'.sessions
      ensures OutMatches(r', k, e)
    {
      assert OutMatches(r, k, e);
    }
  }

  lemma AdvertiseKeepsOwnIds(r: Relay, key: Ingress, nodes: set<NodeId>, ref: int, e: SessionId)
    requires RelayInv(r) && FreshRef(r, key, ref)
    requires key in r.fib && OutMatches(r, key, e) && e != SELF
    requires e in Targets(r, nodes)
    ensures e in Row(OnAdvertise(r, key, nodes, ref), key)
    ensures Row(OnAdvertise(r, key, nodes, ref), key)[e].outSns == r.fib[key][e].outSns
  {
    AdvertiseRow(r, key, nodes, ref);
    AdvertiseSets(r, key, nodes, ref, e);
    assert SessionInv(r.sessions[e]);
    assert exists n :: n in Via(r, nodes, e);
  }

  /** While a row keeps an egress, the id it uses there does not change. */
  lemma AdvertiseKeepsIds(r: Relay, key: Ingress, nodes: set<NodeId>, ref: int, k: Ingress, e: SessionId)
    requires RelayInv(r) && Coherent(r) && FreshRef(r, key, ref)
    requires k in r.fib && e in r.fib[k] && e != SELF && e != k.0 && e in r.sessions
    requires e in Row(OnAdvertise(r, key, nodes, ref), k)
    ensures Row(OnAdvertise(r, key, nodes, ref), k)[e].outSns == r.fib[k][e].outSns
  {
    assert OutMatches(r, k, e);
    if k == key {
      AdvertiseRow(r, key, nodes, ref);
      AdvertiseKeepsOwnIds(r, key, nodes, ref, e);
    } else {
      AdvertiseFrame(r, key, nodes, ref);
    }
  }

  // ---------------------------------------------------------------- what a withdraw does

  /** What a withdraw does to an egress session of the row: the set is given up and its id is retired; a
      connected session says so, and nothing else, and its far end is left without the set. */
  lemma WithdrawnEgress(r: Relay, key: Ingress, e: SessionId)
    requires RelayInv(r) && e in Row(r, key) && e in r.sessions && key in r.sessions[e].peerSns
    ensures e in OnWithdraw(r, key).sessions
    ensures var s, s', id := r.sessions[e], OnWithdraw(r, key).sessions[e], r.sessions[e].peerSns[key].id;
            && key !in s'.peerSns && Retired(s', id)
            && OnlyPeer(s, s', key) && s'.nextCtx == s.nextCtx
            && Says(s, s', [Withdraw(id)])
            && (s'.connected ==> id !in Replay(s'.sent))
  {
    assert e != SELF && SessionInv(r.sessions[e]);
    PeerLeaves(r.sessions[e], key, 0);
    WithdrawnRetires(r.sessions[e], key);
  }

  /** What a withdraw leaves alone: the other rows, and every session that is not an egress of the row or
      holds no set for it. */
  lemma WithdrawFrame(r: Relay, key: Ingress)
    requires RelayInv(r)
    ensures SameBut(r, OnWithdraw(r, key), key) && key !in OnWithdraw(r, key).fib
    ensures forall e | e in r.sessions && !(e in Row(r, key) && key in r.sessions[e].peerSns) ::
              OnWithdraw(r, key).sessions[e] == r.sessions[e]
  {
  }
}
