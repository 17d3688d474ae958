/**
 The subscribe-node-set (SNS) state of one peering session: the sets built from local
 subscribes (`sub_sns_`), the sets built from other sessions' sets (`peer_sns_`), and the
 SNS messages put on the session's control stream.
 */
module Sessions {

  type NodeId = int
  type SessionId = int
  type SnsId = int
  type TrackHash = int

  /** An ingress session and the SNS id used on it. */
  type Ingress = (SessionId, SnsId)

  datatype SnsMsg = Advertise(id: SnsId, nodes: set<NodeId>) | Withdraw(id: SnsId)

  datatype NodeSet = NodeSet(id: SnsId, nodes: set<NodeId>)

  const EMPTY_SET := NodeSet(0, {})

  /** A session as a value. `nextCtx` is the id the transport gives to the next data context. */
  datatype Session = Session(
    connected: bool,
    subSns: map<TrackHash, NodeSet>,
    peerSns: map<Ingress, NodeSet>,
    nextCtx: SnsId,
    sent: seq<SnsMsg>)

  const NEW_SESSION := Session(true, map[], map[], 1, [])

  // ---------------------------------------------------------------- operations as functions

  function SendSns(s: Session, msg: SnsMsg): Session {
    if s.connected then s.(sent := s.sent + [msg]) else s
  }

  /** The entry a set has after `node` joins it: a new data context only when it has no id yet. */
  function Joined(s: Session, was: NodeSet, node: NodeId): NodeSet {
    NodeSet(if was.id == 0 then s.nextCtx else was.id, was.nodes + {node})
  }

  function CtxAfter(s: Session, was: NodeSet): SnsId {
    if was.id == 0 then s.nextCtx + 1 else s.nextCtx
  }

  function PeerSet(s: Session, key: Ingress): NodeSet {
    if key in s.peerSns then s.peerSns[key] else EMPTY_SET
  }

  function SubSet(s: Session, track: TrackHash): NodeSet {
    if track in s.subSns then s.subSns[track] else EMPTY_SET
  }

  function AddPeer(s: Session, key: Ingress, node: NodeId): Session {
    var was := PeerSet(s, key);
    var now := Joined(s, was, node);
    var s1 := s.(peerSns := s.peerSns[key := now], nextCtx := CtxAfter(s, was));
    if node in was.nodes then s1 else SendSns(s1, Advertise(now.id, now.nodes))
  }

  function AddSub(s: Session, track: TrackHash, node: NodeId): Session {
    var was := SubSet(s, track);
    var now := Joined(s, was, node);
    var s1 := s.(subSns := s.subSns[track := now], nextCtx := CtxAfter(s, was));
    if node in was.nodes then s1 else SendSns(s1, Advertise(now.id, now.nodes))
  }

  /** A shrunken set that is not empty is kept but not advertised again. */
  function RemoveSub(s: Session, track: TrackHash, node: NodeId): Session {
    if track !in s.subSns then s
    else
      var left := s.subSns[track].nodes - {node};
      if left == {} then
        SendSns(s, Withdraw(s.subSns[track].id)).(subSns := s.subSns - {track})
      else
        s.(subSns := s.subSns[track := NodeSet(s.subSns[track].id, left)])
  }

  /** Node 0 stands for the whole set. */
  function RemovePeer(s: Session, key: Ingress, node: NodeId): Session {
    if key !in s.peerSns then s
    else
      var left := s.peerSns[key].nodes - {node};
      if node == 0 || left == {} then
        SendSns(s, Withdraw(s.peerSns[key].id)).(peerSns := s.peerSns - {key})
      else
        s.(peerSns := s.peerSns[key := NodeSet(s.peerSns[key].id, left)])
  }

  // ---------------------------------------------------------------- the session object

  class PeerSession {
    var connected: bool
    var subSns: map<TrackHash, NodeSet>
    var peerSns: map<Ingress, NodeSet>
    var nextCtx: SnsId
    var sent: seq<SnsMsg>

    function View(): Session
      reads this
    {
      Session(connected, subSns, peerSns, nextCtx, sent)
    }

    constructor ()
      ensures View() == NEW_SESSION
    {
      connected, subSns, peerSns, nextCtx, sent := true, map[], map[], 1, [];
    }

    method CreateDataContext() returns (id: SnsId)
      modifies this`nextCtx
      ensures id == old(nextCtx) && nextCtx == old(nextCtx) + 1
    {
      id := nextCtx;
      nextCtx := nextCtx + 1;
    }

    method Send(msg: SnsMsg)
      modifies this`sent
      ensures View() == SendSns(old(View()), msg)
    {
      if !connected {
        return;
      }
      sent := sent + [msg];
    }

    method AddPeerSnsSourceNode(key: Ingress, node: NodeId) returns (id: SnsId, isNew: bool)
      modifies this
      ensures View() == AddPeer(old(View()), key, node)
      ensures key in peerSns && id == peerSns[key].id
      ensures isNew <==> node !in PeerSet(old(View()), key).nodes
    {
      if key !in peerSns {
        peerSns := peerSns[key := EMPTY_SET];
      }
      if peerSns[key].id == 0 {
        var ctx := CreateDataContext();
        peerSns := peerSns[key := NodeSet(ctx, peerSns[key].nodes)];
      }
      isNew := node !in peerSns[key].nodes;
      peerSns := peerSns[key := NodeSet(peerSns[key].id, peerSns[key].nodes + {node})];
      if isNew {
        Send(Advertise(peerSns[key].id, peerSns[key].nodes));
      }
      id := peerSns[key].id;
    }

    method AddSubscribeSourceNode(track: TrackHash, node: NodeId) returns (id: SnsId, isNew: bool)
      modifies this
      ensures View() == AddSub(old(View()), track, node)
      ensures track in subSns && id == subSns[track].id
      ensures isNew <==> node !in SubSet(old(View()), track).nodes
    {
      if track !in subSns {
        subSns := subSns[track := EMPTY_SET];
      }
      if subSns[track].id == 0 {
        var ctx := CreateDataContext();
        subSns := subSns[track := NodeSet(ctx, subSns[track].nodes)];
      }
      isNew := node !in subSns[track].nodes;
      subSns := subSns[track := NodeSet(subSns[track].id, subSns[track].nodes + {node})];
      if isNew {
        Send(Advertise(subSns[track].id, subSns[track].nodes));
      }
      id := subSns[track].id;
    }

    method RemoveSubscribeSourceNode(track: TrackHash, node: NodeId) returns (nodeRemoved: bool, snsRemoved: bool)
      modifies this
      ensures View() == RemoveSub(old(View()), track, node)
      ensures nodeRemoved <==> node in SubSet(old(View()), track).nodes
      ensures snsRemoved <==> old(track in subSns) && track !in subSns
    {
      nodeRemoved, snsRemoved := false, false;
      if track in subSns {
        nodeRemoved := node in subSns[track].nodes;
        subSns := subSns[track := NodeSet(subSns[track].id, subSns[track].nodes - {node})];
        if subSns[track].nodes == {} {
          snsRemoved := true;
          Send(Withdraw(subSns[track].id));
          subSns := subSns - {track};
        }
      }
    }

    method RemovePeerSnsSourceNode(key: Ingress, node: NodeId) returns (nodeRemoved: bool, snsRemoved: bool)
      modifies this
      ensures View() == RemovePeer(old(View()), key, node)
      ensures nodeRemoved <==> node != 0 && node in PeerSet(old(View()), key).nodes
      ensures snsRemoved <==> node != 0 && old(key in peerSns) && key !in peerSns
    {
      nodeRemoved, snsRemoved := false, false;
      if key in peerSns {
        if node == 0 {
          Send(Withdraw(peerSns[key].id));
          peerSns := peerSns - {key};
        } else {
          nodeRemoved := node in peerSns[key].nodes;
          peerSns := peerSns[key := NodeSet(peerSns[key].id, peerSns[key].nodes - {node})];
          if peerSns[key].nodes == {} {
            snsRemoved := true;
            Send(Withdraw(peerSns[key].id));
            peerSns := peerSns - {key};
          }
        }
      }
    }
  }

  // ---------------------------------------------------------------- what the far end learns

  function ReplayStep(held: map<SnsId, set<NodeId>>, msg: SnsMsg): map<SnsId, set<NodeId>> {
    match msg
    case Advertise(id, nodes) => held[id := nodes]
    case Withdraw(id) => held - {id}
  }

  /** The sets a receiver holds after reading `msgs` in order. */
  function Replay(msgs: seq<SnsMsg>): map<SnsId, set<NodeId>> {
    if msgs == [] then map[]
    else ReplayStep(Replay(msgs[..|msgs| - 1]), msgs[|msgs| - 1])
  }

  lemma ReplayOne(msgs: seq<SnsMsg>, msg: SnsMsg)
    ensures Replay(msgs + [msg]) == ReplayStep(Replay(msgs), msg)
  {
    assert (msgs + [msg])[..|msgs|] == msgs;
  }

  /** The ids of the sets the session holds. */
  ghost predicate Holds(s: Session, id: SnsId) {
    || (exists k :: k in s.peerSns && s.peerSns[k].id == id)
    || (exists t :: t in s.subSns && s.subSns[t].id == id)
  }

  ghost predicate IdsBelow<K(!new)>(sets: map<K, NodeSet>, top: SnsId) {
    forall k | k in sets :: 0 < sets[k].id < top
  }

  ghost predicate IdsDiffer<K(!new)>(sets: map<K, NodeSet>) {
    forall k, k' | k in sets && k' in sets && k != k' :: sets[k].id != sets[k'].id
  }

  /** Every set has its own nonzero id, already handed out by the transport. */
  ghost predicate IdsFresh(s: Session) {
    && 0 < s.nextCtx
    && IdsBelow(s.peerSns, s.nextCtx) && IdsBelow(s.subSns, s.nextCtx)
    && IdsDiffer(s.peerSns) && IdsDiffer(s.subSns)
    && (forall k, t | k in s.peerSns && t in s.subSns :: s.peerSns[k].id != s.subSns[t].id)
  }

  /** The far end, once it has read everything sent, holds this session's sets and no other: equal
      ones for sets derived from peers, no smaller ones for sets derived from local subscribes. */
  ghost predicate Agrees(s: Session, far: map<SnsId, set<NodeId>>) {
    && (forall id | id in far :: Holds(s, id))
    && (forall k | k in s.peerSns :: s.peerSns[k].id in far && far[s.peerSns[k].id] == s.peerSns[k].nodes)
    && (forall t | t in s.subSns :: s.subSns[t].id in far && far[s.subSns[t].id] >= s.subSns[t].nodes)
  }

  /** Sending stops for good when a session is no longer connected. */
  ghost predicate SessionInv(s: Session) {
    IdsFresh(s) && (s.connected ==> Agrees(s, Replay(s.sent)))
  }

  lemma NewSessionInv()
    ensures SessionInv(NEW_SESSION)
  {
  }

  /** Live ids at the far end are exactly the ids of the sets held here. */
  lemma LiveIdsAgree(s: Session, id: SnsId)
    requires SessionInv(s) && s.connected
    ensures id in Replay(s.sent) <==> Holds(s, id)
  {
  }

  lemma HoldsPeer(s: Session, k: Ingress)
    requires k in s.peerSns
    ensures Holds(s, s.peerSns[k].id)
  {
  }

  lemma HoldsSub(s: Session, t: TrackHash)
    requires t in s.subSns
    ensures Holds(s, s.subSns[t].id)
  {
  }

  /** A node already in the set changes nothing and sends nothing. */
  lemma RepeatIsSilent(s: Session, key: Ingress, node: NodeId)
    requires IdsFresh(s)
    requires node in PeerSet(s, key).nodes
    ensures AddPeer(s, key, node) == s
  {
    assert s.peerSns[key := s.peerSns[key]] == s.peerSns;
    assert s.peerSns[key].nodes + {node} == s.peerSns[key].nodes;
  }

  lemma RepeatSubIsSilent(s: Session, track: TrackHash, node: NodeId)
    requires IdsFresh(s)
    requires node in SubSet(s, track).nodes
    ensures AddSub(s, track, node) == s
  {
    assert s.subSns[track := s.subSns[track]] == s.subSns;
    assert s.subSns[track].nodes + {node} == s.subSns[track].nodes;
  }

  lemma AddPeerIds(s: Session, key: Ingress, node: NodeId)
    requires IdsFresh(s)
    ensures IdsFresh(AddPeer(s, key, node))
  {
  }

  lemma AddSubIds(s: Session, track: TrackHash, node: NodeId)
    requires IdsFresh(s)
    ensures IdsFresh(AddSub(s, track, node))
  {
  }

  lemma RemoveSubIds(s: Session, track: TrackHash, node: NodeId)
    requires IdsFresh(s)
    ensures IdsFresh(RemoveSub(s, track, node))
  {
  }

  lemma RemovePeerIds(s: Session, key: Ingress, node: NodeId)
    requires IdsFresh(s)
    ensures IdsFresh(RemovePeer(s, key, node))
  {
  }

  /** What the ids of a session say when only one peer-derived set changes. */
  lemma OnePeerSetChanged(s: Session, s': Session, key: Ingress, far: map<SnsId, set<NodeId>>)
    requires Agrees(s, far) && IdsFresh(s')
    requires s'.subSns == s.subSns && key in s'.peerSns
    requires s'.peerSns == s.peerSns[key := s'.peerSns[key]]
    requires key in s.peerSns ==> s'.peerSns[key].id == s.peerSns[key].id
    ensures Agrees(s', far[s'.peerSns[key].id := s'.peerSns[key].nodes])
  {
    var now := s'.peerSns[key];
    var far' := far[now.id := now.nodes];
    HoldsPeer(s', key);
    forall id | id in far' && id != now.id ensures Holds(s', id) {
      assert id in far;
      if k :| k in s.peerSns && s.peerSns[k].id == id {
        HoldsPeer(s', k);
      } else {
        var t :| t in s.subSns && s.subSns[t].id == id;
        HoldsSub(s', t);
      }
    }
  }

  lemma OneSubSetChanged(s: Session, s': Session, track: TrackHash, far: map<SnsId, set<NodeId>>)
    requires Agrees(s, far) && IdsFresh(s')
    requires s'.peerSns == s.peerSns && track in s'.subSns
    requires s'.subSns == s.subSns[track := s'.subSns[track]]
    requires track in s.subSns ==> s'.subSns[track].id == s.subSns[track].id
    ensures Agrees(s', far[s'.subSns[track].id := s'.subSns[track].nodes])
  {
    var now := s'.subSns[track];
    var far' := far[now.id := now.nodes];
    HoldsSub(s', track);
    forall id | id in far' && id != now.id ensures Holds(s', id) {
      assert id in far;
      if k :| k in s.peerSns && s.peerSns[k].id == id {
        HoldsPeer(s', k);
      } else {
        var t :| t in s.subSns && s.subSns[t].id == id;
        HoldsSub(s', t);
      }
    }
  }

  lemma AddPeerKeeps(s: Session, key: Ingress, node: NodeId)
    requires SessionInv(s)
    ensures SessionInv(AddPeer(s, key, node))
  {
    if node in PeerSet(s, key).nodes {
      RepeatIsSilent(s, key, node);
    } else {
      var s' := AddPeer(s, key, node);
      ReplayOne(s.sent, Advertise(s'.peerSns[key].id, s'.peerSns[key].nodes));
      AddPeerIds(s, key, node);
      if s.connected {
        OnePeerSetChanged(s, s', key, Replay(s.sent));
      }
    }
  }

  lemma AddSubKeeps(s: Session, track: TrackHash, node: NodeId)
    requires SessionInv(s)
    ensures SessionInv(AddSub(s, track, node))
  {
    if node in SubSet(s, track).nodes {
      RepeatSubIsSilent(s, track, node);
    } else {
      var s' := AddSub(s, track, node);
      ReplayOne(s.sent, Advertise(s'.subSns[track].id, s'.subSns[track].nodes));
      AddSubIds(s, track, node);
      if s.connected {
        OneSubSetChanged(s, s', track, Replay(s.sent));
      }
    }
  }

  /** No other set of the session has this id. */
  ghost predicate OnlyUser(s: Session, id: SnsId) {
    && (forall k | k in s.peerSns :: s.peerSns[k].id != id)
    && (forall t | t in s.subSns :: s.subSns[t].id != id)
  }

  lemma SetDropped(s: Session, s': Session, id: SnsId, far: map<SnsId, set<NodeId>>)
    requires Agrees(s, far) && OnlyUser(s', id)
    requires forall k | k in s'.peerSns :: k in s.peerSns && s.peerSns[k] == s'.peerSns[k]
    requires forall t | t in s'.subSns :: t in s.subSns && s.subSns[t] == s'.subSns[t]
    requires forall k | k in s.peerSns && k !in s'.peerSns :: s.peerSns[k].id == id
    requires forall t | t in s.subSns && t !in s'.subSns :: s.subSns[t].id == id
    ensures Agrees(s', far - {id})
  {
    forall i | i in far && i != id ensures Holds(s', i) {
      assert Holds(s, i);
      if k :| k in s.peerSns && s.peerSns[k].id == i {
        HoldsPeer(s', k);
      } else {
        var t :| t in s.subSns && s.subSns[t].id == i;
        HoldsSub(s', t);
      }
    }
  }

  lemma SubSetShrunk(s: Session, track: TrackHash, left: set<NodeId>, far: map<SnsId, set<NodeId>>)
    requires Agrees(s, far) && track in s.subSns && left <= s.subSns[track].nodes
    ensures Agrees(s.(subSns := s.subSns[track := NodeSet(s.subSns[track].id, left)]), far)
  {
    var s' := s.(subSns := s.subSns[track := NodeSet(s.subSns[track].id, left)]);
    forall id | id in far ensures Holds(s', id) {
      if k :| k in s.peerSns && s.peerSns[k].id == id {
        HoldsPeer(s', k);
      } else {
        var t :| t in s.subSns && s.subSns[t].id == id;
        HoldsSub(s', t);
      }
    }
  }

  lemma RemoveSubKeeps(s: Session, track: TrackHash, node: NodeId)
    requires SessionInv(s)
    ensures SessionInv(RemoveSub(s, track, node))
  {
    RemoveSubIds(s, track, node);
    if track in s.subSns && s.connected {
      var left := s.subSns[track].nodes - {node};
      if left == {} {
        ReplayOne(s.sent, Withdraw(s.subSns[track].id));
        SetDropped(s, RemoveSub(s, track, node), s.subSns[track].id, Replay(s.sent));
      } else {
        SubSetShrunk(s, track, left, Replay(s.sent));
      }
    }
  }

  /** Holds for the removal the relay asks for, the removal of a whole set. */
  lemma RemovePeerKeeps(s: Session, key: Ingress)
    requires SessionInv(s)
    ensures SessionInv(RemovePeer(s, key, 0))
  {
    RemovePeerIds(s, key, 0);
    if key in s.peerSns && s.connected {
      ReplayOne(s.sent, Withdraw(s.peerSns[key].id));
      SetDropped(s, RemovePeer(s, key, 0), s.peerSns[key].id, Replay(s.sent));
    }
  }

  /** Taking one node out of a set derived from a peer is not told to the far end while others are left,
      so agreement survives exactly when the node was not there or was the last one. */
  lemma RemovePeerNodeIff(s: Session, key: Ingress, node: NodeId)
    requires SessionInv(s) && s.connected && key in s.peerSns && node != 0
    ensures SessionInv(RemovePeer(s, key, node)) <==>
            node !in s.peerSns[key].nodes || s.peerSns[key].nodes - {node} == {}
  {
    var was := s.peerSns[key];
    var left := was.nodes - {node};
    RemovePeerIds(s, key, node);
    if left == {} {
      assert RemovePeer(s, key, node) == RemovePeer(s, key, 0);
      RemovePeerKeeps(s, key);
    } else if node !in was.nodes {
      assert left == was.nodes && s.peerSns[key := was] == s.peerSns;
      assert RemovePeer(s, key, node) == s;
    } else {
      assert left != was.nodes;
      assert RemovePeer(s, key, node).peerSns[key] == NodeSet(was.id, left);
    }
  }

  // ---------------------------------------------------------------- what each operation does

  /** Only the set of local subscribers of `track` may differ, and what has been sent. */
  ghost predicate OnlySub(s: Session, s': Session, track: TrackHash) {
    && s'.connected == s.connected && s'.peerSns == s.peerSns
    && forall t | t != track :: (t in s'.subSns <==> t in s.subSns) && SubSet(s', t) == SubSet(s, t)
  }

  /** Only the set derived from `key` may differ, and what has been sent. */
  ghost predicate OnlyPeer(s: Session, s': Session, key: Ingress) {
    && s'.connected == s.connected && s'.subSns == s.subSns
    && forall k | k != key :: (k in s'.peerSns <==> k in s.peerSns) && PeerSet(s', k) == PeerSet(s, k)
  }

  /** A set that `node` joins: one node more, under the id it had or else the next fresh one. */
  ghost predicate Grown(s: Session, s': Session, was: NodeSet, now: NodeSet, node: NodeId) {
    && now.nodes == was.nodes + {node}
    && (if was.id != 0 then now.id == was.id && s'.nextCtx == s.nextCtx
        else now.id == s.nextCtx && s'.nextCtx == s.nextCtx + 1)
  }

  /** The messages that an operation puts on the control stream of a connected session. */
  ghost predicate Says(s: Session, s': Session, msgs: seq<SnsMsg>) {
    s'.sent == s.sent + if s.connected then msgs else []
  }

  /** A local subscriber joins: the set of its track is told as a whole exactly when the node is new. */
  lemma SubJoins(s: Session, track: TrackHash, node: NodeId)
    ensures var s', was := AddSub(s, track, node), SubSet(s, track);
            && OnlySub(s, s', track) && track in s'.subSns
            && Grown(s, s', was, s'.subSns[track], node)
            && Says(s, s', if node in was.nodes then [] else [Advertise(SubSet(s', track).id, was.nodes + {node})])
  {
    var s' := AddSub(s, track, node);
    assert s'.subSns == s.subSns[track := s'.subSns[track]];
  }

  /** A local subscriber leaves: the set of its track loses that node and no other and keeps its id; it is
      given up, and withdrawn, exactly when no node is left. */
  lemma SubLeaves(s: Session, track: TrackHash, node: NodeId)
    ensures var s', was := RemoveSub(s, track, node), SubSet(s, track);
            && OnlySub(s, s', track) && s'.nextCtx == s.nextCtx
            && SubSet(s', track).nodes == was.nodes - {node}
            && (track in s'.subSns <==> was.nodes - {node} != {})
            && (track in s'.subSns ==> SubSet(s', track).id == was.id)
            && Says(s, s', if track in s.subSns && track !in s'.subSns then [Withdraw(was.id)] else [])
  {
    var s' := RemoveSub(s, track, node);
    if track in s'.subSns {
      assert s'.subSns == s.subSns[track := s'.subSns[track]];
    }
  }

  /** The same for a node behind a peer. */
  lemma PeerJoins(s: Session, key: Ingress, node: NodeId)
    ensures var s', was := AddPeer(s, key, node), PeerSet(s, key);
            && OnlyPeer(s, s', key) && key in s'.peerSns
            && Grown(s, s', was, s'.peerSns[key], node)
            && Says(s, s', if node in was.nodes then [] else [Advertise(PeerSet(s', key).id, was.nodes + {node})])
  {
    var s' := AddPeer(s, key, node);
    assert s'.peerSns == s.peerSns[key := s'.peerSns[key]];
  }

  lemma PeerLeaves(s: Session, key: Ingress, node: NodeId)
    ensures var s', was := RemovePeer(s, key, node), PeerSet(s, key);
            && OnlyPeer(s, s', key) && s'.nextCtx == s.nextCtx
            && PeerSet(s', key).nodes == (if node == 0 then {} else was.nodes - {node})
            && (key in s'.peerSns <==> node != 0 && was.nodes - {node} != {})
            && (key in s'.peerSns ==> PeerSet(s', key).id == was.id)
            && Says(s, s', if key in s.peerSns && key !in s'.peerSns then [Withdraw(was.id)] else [])
  {
    var s' := RemovePeer(s, key, node);
    if key in s'.peerSns {
      assert s'.peerSns == s.peerSns[key := s'.peerSns[key]];
    }
  }

  // ---------------------------------------------------------------- runs of a session

  datatype SetOp =
    | JoinSub(track: TrackHash, node: NodeId)
    | LeaveSub(track: TrackHash, node: NodeId)
    | JoinPeer(key: Ingress, node: NodeId)
    | LeavePeer(key: Ingress, node: NodeId)
    | GoDown

  function Do(s: Session, op: SetOp): Session {
    match op
    case JoinSub(track, node) => AddSub(s, track, node)
    case LeaveSub(track, node) => RemoveSub(s, track, node)
    case JoinPeer(key, node) => AddPeer(s, key, node)
    case LeavePeer(key, node) => RemovePeer(s, key, node)
    case GoDown => s.(connected := false)
  }

  function DoAll(s: Session, ops: seq<SetOp>): Session {
    if ops == [] then s else Do(DoAll(s, ops[..|ops| - 1]), ops[|ops| - 1])
  }

  /** By the operations alone: the last one about this track and node was a join. */
  predicate SubJoined(ops: seq<SetOp>, track: TrackHash, node: NodeId) {
    ops != [] &&
    var last := ops[|ops| - 1];
    if last == JoinSub(track, node) then true
    else if last == LeaveSub(track, node) then false
    else SubJoined(ops[..|ops| - 1], track, node)
  }

  /** The same for a node behind a peer; a leave of node 0 is one of every node. */
  predicate PeerJoined(ops: seq<SetOp>, key: Ingress, node: NodeId) {
    ops != [] &&
    var last := ops[|ops| - 1];
    if last == JoinPeer(key, node) then true
    else if last == LeavePeer(key, node) || last == LeavePeer(key, 0) then false
    else PeerJoined(ops[..|ops| - 1], key, node)
  }

  /** No set is held without a node. */
  ghost predicate NoneEmpty(s: Session) {
    && (forall t | t in s.subSns :: s.subSns[t].nodes != {})
    && (forall k | k in s.peerSns :: s.peerSns[k].nodes != {})
  }

  lemma DoNoneEmpty(s: Session, op: SetOp)
    requires NoneEmpty(s)
    ensures NoneEmpty(Do(s, op))
  {
  }

  lemma DoSub(s: Session, op: SetOp, track: TrackHash, node: NodeId)
    ensures node in SubSet(Do(s, op), track).nodes <==>
            op == JoinSub(track, node) || (op != LeaveSub(track, node) && node in SubSet(s, track).nodes)
  {
    match op
    case JoinSub(t, n) => SubJoins(s, t, n);
    case LeaveSub(t, n) => SubLeaves(s, t, n);
    case JoinPeer(k, n) => PeerJoins(s, k, n);
    case LeavePeer(k, n) => PeerLeaves(s, k, n);
    case GoDown =>
  }

  lemma DoPeer(s: Session, op: SetOp, key: Ingress, node: NodeId)
    ensures node in PeerSet(Do(s, op), key).nodes <==>
            op == JoinPeer(key, node)
            || (op != LeavePeer(key, node) && op != LeavePeer(key, 0) && node in PeerSet(s, key).nodes)
  {
    match op
    case JoinSub(t, n) => SubJoins(s, t, n);
    case LeaveSub(t, n) => SubLeaves(s, t, n);
    case JoinPeer(k, n) => PeerJoins(s, k, n);
    case LeavePeer(k, n) => PeerLeaves(s, k, n);
    case GoDown =>
  }

  /** Over every run of a session a set holds exactly the nodes whose last operation was a join, and it is
      there exactly while it has one. */
  lemma {:induction false} SetsAreHistory(ops: seq<SetOp>, track: TrackHash, key: Ingress)
    ensures var s := DoAll(NEW_SESSION, ops);
            && NoneEmpty(s)
            && (forall n :: n in SubSet(s, track).nodes <==> SubJoined(ops, track, n))
            && (forall n :: n in PeerSet(s, key).nodes <==> PeerJoined(ops, key, n))
  {
    if ops != [] {
      var init, last := ops[..|ops| - 1], ops[|ops| - 1];
      SetsAreHistory(init, track, key);
      var s := DoAll(NEW_SESSION, init);
      DoNoneEmpty(s, last);
      forall n ensures n in SubSet(Do(s, last), track).nodes <==> SubJoined(ops, track, n) {
        DoSub(s, last, track, n);
      }
      forall n ensures n in PeerSet(Do(s, last), key).nodes <==> PeerJoined(ops, key, n) {
        DoPeer(s, last, key, n);
      }
    }
  }

  // ---------------------------------------------------------------- ids are not used again

  /** Every id held is one held before or one that was not yet handed out. */
  ghost predicate IdsMove(s: Session, s': Session) {
    && s.nextCtx <= s'.nextCtx
    && forall id :: Holds(s', id) ==> Holds(s, id) || s.nextCtx <= id
  }

  lemma IdsMoveOn(s: Session, s1: Session, s2: Session)
    requires IdsMove(s, s1) && IdsMove(s1, s2)
    ensures IdsMove(s, s2)
  {
  }

  /** The ids of a session each of whose sets has the id it had, or the next fresh one. */
  lemma SetsMove(s: Session, s': Session)
    requires s.nextCtx <= s'.nextCtx
    requires forall k | k in s'.peerSns ::
               (k in s.peerSns && s'.peerSns[k].id == s.peerSns[k].id) || s'.peerSns[k].id == s.nextCtx
    requires forall t | t in s'.subSns ::
               (t in s.subSns && s'.subSns[t].id == s.subSns[t].id) || s'.subSns[t].id == s.nextCtx
    ensures IdsMove(s, s')
  {
    forall id | Holds(s', id) ensures Holds(s, id) || s.nextCtx <= id {
      if k :| k in s'.peerSns && s'.peerSns[k].id == id {
        if id != s.nextCtx {
          HoldsPeer(s, k);
        }
      } else {
        var t :| t in s'.subSns && s'.subSns[t].id == id;
        if id != s.nextCtx {
          HoldsSub(s, t);
        }
      }
    }
  }

  lemma AddPeerMoves(s: Session, key: Ingress, node: NodeId)
    ensures IdsMove(s, AddPeer(s, key, node))
  {
    SetsMove(s, AddPeer(s, key, node));
  }

  lemma AddSubMoves(s: Session, track: TrackHash, node: NodeId)
    ensures IdsMove(s, AddSub(s, track, node))
  {
    SetsMove(s, AddSub(s, track, node));
  }

  lemma RemoveSubMoves(s: Session, track: TrackHash, node: NodeId)
    ensures IdsMove(s, RemoveSub(s, track, node))
  {
    SetsMove(s, RemoveSub(s, track, node));
  }

  lemma RemovePeerMoves(s: Session, key: Ingress, node: NodeId)
    ensures IdsMove(s, RemovePeer(s, key, node))
  {
    SetsMove(s, RemovePeer(s, key, node));
  }

  /** An id that has been handed out and is not held is never held again. */
  ghost predicate Retired(s: Session, id: SnsId) {
    id < s.nextCtx && !Holds(s, id)
  }

  lemma RetiredStays(s: Session, s': Session, id: SnsId)
    requires IdsMove(s, s') && Retired(s, id)
    ensures Retired(s', id)
  {
  }

  /** A removed set's id is retired, and the far end, once it has read all, does not have it. */
  lemma WithdrawnRetires(s: Session, key: Ingress)
    requires SessionInv(s) && key in s.peerSns
    ensures var s', id := RemovePeer(s, key, 0), s.peerSns[key].id;
            Retired(s', id) && (s'.connected ==> id !in Replay(s'.sent))
  {
    var s', id := RemovePeer(s, key, 0), s.peerSns[key].id;
    RemovePeerKeeps(s, key);
    assert !Holds(s', id) by {
      PeerLeaves(s, key, 0);
      forall k | k in s'.peerSns ensures s'.peerSns[k].id != id {
        assert k in s.peerSns && s'.peerSns[k] == s.peerSns[k];
      }
    }
  }

  lemma LeftRetires(s: Session, track: TrackHash, node: NodeId)
    requires SessionInv(s) && track in s.subSns && s.subSns[track].nodes <= {node}
    ensures Retired(RemoveSub(s, track, node), s.subSns[track].id)
  {
    var s', id := RemoveSub(s, track, node), s.subSns[track].id;
    SubLeaves(s, track, node);
    forall t | t in s'.subSns ensures s'.subSns[t].id != id {
      assert t in s.subSns && s'.subSns[t] == s.subSns[t];
    }
  }
}
