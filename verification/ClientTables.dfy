/**
 The client manager's subscribe tables: three indexes of one relation between connections, request
 ids and tracks, and the handlers towards publishers with their fan-out sets. A track alias is the
 hash of a full name and stands for it.
 */
module ClientTables {
  import opened Ordered
  import opened AnnounceTable

  type Conn = int
  type Req = int
  type Track = FullName

  /** A handler towards a publisher: who gets its data, directly and by namespace. */
  datatype Handler = Handler(initiated: bool, paused: bool, subscribers: set<Conn>, namespaces: set<(Namespace, Conn)>)

  type Handlers = map<(Track, Conn), Handler>

  datatype Tables = Tables(
    subscribes: map<(Track, Conn), Req>,
    aliasOf: map<(Conn, Req), Track>,
    active: map<Track, set<(Conn, Req)>>,
    pubs: Handlers,
    announced: map<(Namespace, Conn), set<Track>>,
    subNs: map<Namespace, set<Conn>>)

  const EMPTY_TABLES := Tables(map[], map[], map[], map[], map[], map[])

  /** What the tables depend on from outside: tracks that peers subscribe to, the transport library's
      two ways to match namespaces, and whether a client may be sent its own tracks. */
  datatype Env = Env(wanted: set<Track>, samePrefix: (Namespace, Namespace) -> bool,
                     prefixOf: (Namespace, Namespace) -> bool, allowSelf: bool)

  // ---------------------------------------------------------------- handlers

  function WithSubscriber(h: Handler, c: Conn): Handler {
    if c in h.subscribers then h else h.(subscribers := h.subscribers + {c}, paused := false)
  }

  function WithoutSubscriber(h: Handler, c: Conn): Handler {
    var left := h.subscribers - {c};
    h.(subscribers := left, paused := h.paused || (left == {} && h.namespaces == {}))
  }

  function WithNamespace(h: Handler, ns: Namespace, c: Conn): Handler {
    if (ns, c) in h.namespaces then h else h.(namespaces := h.namespaces + {(ns, c)}, paused := false)
  }

  function WithoutNamespace(h: Handler, ns: Namespace, c: Conn): Handler {
    h.(namespaces := h.namespaces - {(ns, c)})
  }

  predicate HasSubscribers(h: Handler) {
    h.subscribers != {} || h.namespaces != {}
  }

  const NEW_HANDLER := Handler(false, false, {}, {})

  // ---------------------------------------------------------------- subscribe

  function ActiveSet(s: Tables, t: Track): set<(Conn, Req)> {
    if t in s.active then s.active[t] else {}
  }

  function Recorded(s: Tables, c: Conn, r: Req, t: Track): Tables {
    s.(active := s.active[t := ActiveSet(s, t) + {(c, r)}],
       aliasOf := s.aliasOf[(c, r) := t],
       subscribes := if (t, c) in s.subscribes then s.subscribes else s.subscribes[(t, c) := r])
  }

  /** Every handler of the track takes the subscriber; a publisher-initiated one resumes. */
  function Joined(pubs: Handlers, t: Track, c: Conn): Handlers {
    map k | k in pubs ::
      if k.0 == t then WithSubscriber(if pubs[k].initiated then pubs[k].(paused := false) else pubs[k], c) else pubs[k]
  }

  /** An announcer of a matching namespace that has no handler for the track yet gets one. */
  function JoinAnnouncer(env: Env, s: Tables, t: Track, c: Conn, k: (Namespace, Conn)): Tables {
    if k !in s.announced || !env.samePrefix(k.0, t.ns) || k.1 == 0 || (t, k.1) in s.pubs then s
    else
      s.(announced := s.announced[k := s.announced[k] + {t}],
         pubs := s.pubs[(t, k.1) := WithSubscriber(NEW_HANDLER, c)])
  }

  function JoinAnnouncers(env: Env, s: Tables, t: Track, c: Conn, order: seq<(Namespace, Conn)>): Tables {
    if order == [] then s
    else JoinAnnouncer(env, JoinAnnouncers(env, s, t, c, order[..|order| - 1]), t, c, order[|order| - 1])
  }

  /** Connection 0 with request 0 is the peering side; it is in no index. */
  function Processed(env: Env, s: Tables, c: Conn, r: Req, t: Track, order: seq<(Namespace, Conn)>): Tables {
    var s1 := if c == 0 && r == 0 then s else Recorded(s, c, r, t);
    JoinAnnouncers(env, s1.(pubs := Joined(s1.pubs, t, c)), t, c, order)
  }

  /** A second subscribe of a connection to a track is refused. */
  function Subscribed(env: Env, s: Tables, c: Conn, r: Req, t: Track, order: seq<(Namespace, Conn)>): Tables {
    if (t, c) in s.subscribes then s else Processed(env, s, c, r, t, order)
  }

  // ---------------------------------------------------------------- unsubscribe

  /** Handlers of the track without any subscriber are paused or, when the relay made them, dropped. */
  function Settled(env: Env, pubs: Handlers, t: Track): Handlers {
    if t in env.wanted then pubs
    else
      map k | k in pubs && (k.0 == t && !HasSubscribers(pubs[k]) ==> pubs[k].initiated) ::
        if k.0 == t && !HasSubscribers(pubs[k]) then pubs[k].(paused := true) else pubs[k]
  }

  function Parted(pubs: Handlers, t: Track, c: Conn): Handlers {
    map k | k in pubs :: if k.0 == t then WithoutSubscriber(pubs[k], c) else pubs[k]
  }

  function Unsubscribed(env: Env, s: Tables, c: Conn, r: Req): Tables {
    if (c, r) !in s.aliasOf || (s.aliasOf[(c, r)], c) !in s.subscribes then s
    else
      var t := s.aliasOf[(c, r)];
      var left := ActiveSet(s, t) - {(c, r)};
      s.(aliasOf := s.aliasOf - {(c, r)},
         active := if left == {} then s.active - {t} else s.active[t := left],
         subscribes := s.subscribes - {(t, c)},
         pubs := Settled(env, Parted(s.pubs, t, c), t))
  }

  // ---------------------------------------------------------------- publish

  function SubscribersOf(s: Tables, t: Track): set<Conn> {
    set k | k in s.subscribes && k.0 == t :: k.1
  }

  function NamespacesFor(env: Env, s: Tables, t: Track): set<(Namespace, Conn)> {
    set ns, c | ns in s.subNs && env.samePrefix(ns, t.ns) && c in s.subNs[ns] :: (ns, c)
  }

  /** The namespace subscribers that a published track is offered to: never its own publisher, unless
      clients may be sent their own. */
  function Offers(env: Env, s: Tables, c: Conn, t: Track): set<(Namespace, Conn)> {
    set ns, d | ns in s.subNs && env.prefixOf(ns, t.ns) && d in s.subNs[ns] && (env.allowSelf || d != c) :: (ns, d)
  }

  /** The handler made for a publish: all current subscribers, paused when nobody wants the track. */
  function Published(env: Env, s: Tables, c: Conn, t: Track): Tables {
    var subs, nss := SubscribersOf(s, t), NamespacesFor(env, s, t);
    s.(pubs := s.pubs[(t, c) := Handler(true, t !in env.wanted && subs == {} && nss == {}, subs, nss)])
  }

  function Conns(subs: set<(Conn, Req)>): set<Conn> {
    set x | x in subs :: x.0
  }

  /** The connection of the first entry of an active set. */
  function FirstConn(subs: set<(Conn, Req)>): Conn {
    var order := Sorted(Conns(subs));
    if order == [] then 0 else order[0]
  }

  predicate Joins(env: Env, s: Tables, key: (Namespace, Conn), t: Track) {
    && t in s.active && env.samePrefix(t.ns, key.0) && s.active[t] != {}
    && (key in s.announced ==> t !in s.announced[key])
  }

  function MadeKeys(env: Env, s: Tables, key: (Namespace, Conn), ts: set<Track>): set<(Track, Conn)> {
    set t | t in ts && Joins(env, s, key, t) && (t, FirstConn(s.active[t])) in s.subscribes :: (t, key.1)
  }

  /** The handlers made for those of the tracks `ts` that join; each gets all its track's subscribers. */
  function MadeFor(env: Env, s: Tables, key: (Namespace, Conn), ts: set<Track>): Handlers {
    map k | k in MadeKeys(env, s, key, ts) :: Handler(false, false, Conns(s.active[k.0]), {})
  }

  function JoinsAmong(env: Env, s: Tables, key: (Namespace, Conn), ts: set<Track>): set<Track> {
    set t | t in ts && Joins(env, s, key, t)
  }

  /** After the tracks `ts` have been visited. */
  function SubscribedOver(env: Env, s: Tables, key: (Namespace, Conn), ts: set<Track>): Tables {
    s.(announced := s.announced[key := (if key in s.announced then s.announced[key] else {}) + JoinsAmong(env, s, key, ts)],
       pubs := s.pubs + MadeFor(env, s, key, ts))
  }

  /** The relay subscribes to the announcer for every track with subscribers that matches. */
  function SubscribedTo(env: Env, s: Tables, key: (Namespace, Conn)): Tables {
    SubscribedOver(env, s, key, s.active.Keys)
  }

  function NamespacePublished(env: Env, s: Tables, c: Conn, ns: Namespace): Tables {
    var s1 := if (ns, c) in s.announced then s else s.(announced := s.announced[(ns, c) := {}]);
    if c == 0 then s1 else SubscribedTo(env, s1, (ns, c))
  }

  // ---------------------------------------------------------------- namespaces and teardown

  /** A client's own tracks are left out unless it may be sent them. */
  predicate NotOwn(env: Env, c: Conn, k: (Track, Conn)) {
    env.allowSelf || k.1 != c
  }

  predicate Matches(env: Env, ns: Namespace, c: Conn, k: (Track, Conn)) {
    NotOwn(env, c, k) && env.samePrefix(ns, k.0.ns)
  }

  function NamespaceSubscribed(env: Env, s: Tables, c: Conn, ns: Namespace): Tables {
    s.(subNs := s.subNs[ns := (if ns in s.subNs then s.subNs[ns] else {}) + {c}],
       pubs := NamespaceJoined(env, s.pubs, c, ns, s.pubs.Keys))
  }

  /** The tracks, by publisher, that a new namespace subscriber is offered. */
  function OfferedTo(env: Env, c: Conn, ns: Namespace, ks: set<(Track, Conn)>): set<(Track, Conn)> {
    set k | k in ks && NotOwn(env, c, k) && env.prefixOf(ns, k.0.ns)
  }

  /** After the handlers `ks` have been visited. */
  function NamespaceJoined(env: Env, pubs: Handlers, c: Conn, ns: Namespace, ks: set<(Track, Conn)>): Handlers {
    map k | k in pubs ::
      if k in ks && NotOwn(env, c, k) && env.prefixOf(ns, k.0.ns) then WithNamespace(pubs[k], ns, c) else pubs[k]
  }

  /** Over a snapshot of the handlers: each match loses the namespace, and is then paused or dropped
      when that was its last subscriber. */
  function NamespaceUnsubscribed(env: Env, s: Tables, c: Conn, ns: Namespace): Tables {
    if ns !in s.subNs then s
    else if c !in s.subNs[ns] then (if s.subNs[ns] == {} then s.(subNs := s.subNs - {ns}) else s)
    else
      var left := s.subNs[ns] - {c};
      s.(pubs := NamespaceLeft(env, s.pubs, c, ns), subNs := if left == {} then s.subNs - {ns} else s.subNs[ns := left])
  }

  predicate Registered(s: Tables, ns: Namespace, c: Conn) {
    ns in s.subNs && c in s.subNs[ns]
  }

  function NamespaceLeft(env: Env, pubs: Handlers, c: Conn, ns: Namespace): Handlers {
    NamespaceLeftBy(env, pubs, c, ns, pubs.Keys)
  }

  /** After the handlers `ks` of the snapshot have been visited. */
  function NamespaceLeftBy(env: Env, pubs: Handlers, c: Conn, ns: Namespace, ks: set<(Track, Conn)>): Handlers {
    SettledAll(env, NamespaceParted(env, pubs, c, ns, ks), TracksHit(env, pubs, c, ns, ks))
  }

  function NamespaceParted(env: Env, pubs: Handlers, c: Conn, ns: Namespace, ks: set<(Track, Conn)>): Handlers {
    map k | k in pubs :: if k in ks && Matches(env, ns, c, k) then WithoutNamespace(pubs[k], ns, c) else pubs[k]
  }

  function TracksHit(env: Env, pubs: Handlers, c: Conn, ns: Namespace, ks: set<(Track, Conn)>): set<Track> {
    set k | k in pubs && k in ks && Matches(env, ns, c, k) :: k.0
  }

  // ---------------------------------------------------------------- publishers that are done

  /** The handlers that a connection has for the tracks. */
  function HandlersOf(ts: set<Track>, c: Conn): set<(Track, Conn)> {
    set t | t in ts :: (t, c)
  }

  /** A namespace is no longer published: the handlers made for it go with it. */
  function NamespaceDone(s: Tables, c: Conn, ns: Namespace): Tables {
    var ts := if (ns, c) in s.announced then s.announced[(ns, c)] else {};
    s.(pubs := s.pubs - HandlersOf(ts, c), announced := s.announced - {(ns, c)})
  }

  predicate HasPublisher(pubs: Handlers, t: Track) {
    exists k | k in pubs :: k.0 == t
  }

  /** The subscriptions of connections to a track, with their request ids. */
  function SubscriptionsOf(s: Tables, t: Track, cs: seq<Conn>): (r: seq<(Conn, Req)>)
    ensures |r| == |cs|
    ensures forall i | 0 <= i < |cs| :: r[i] == (cs[i], if (t, cs[i]) in s.subscribes then s.subscribes[(t, cs[i])] else 0)
  {
    if cs == [] then []
    else
      var c := cs[|cs| - 1];
      SubscriptionsOf(s, t, cs[..|cs| - 1]) + [(c, if (t, c) in s.subscribes then s.subscribes[(t, c)] else 0)]
  }

  function UnsubscribedAll(env: Env, s: Tables, subs: seq<(Conn, Req)>): Tables {
    if subs == [] then s
    else Unsubscribed(env, UnsubscribedAll(env, s, subs[..|subs| - 1]), subs[|subs| - 1].0, subs[|subs| - 1].1)
  }

  /** A track is no longer published by a connection: when nobody else publishes it, its subscribers are
      unsubscribed, unless subscribes are kept without a publisher. */
  function PublishDone(env: Env, s: Tables, c: Conn, t: Track, detached: bool): Tables {
    var s1 := s.(pubs := s.pubs - {(t, c)});
    if HasPublisher(s1.pubs, t) || detached then s1
    else UnsubscribedAll(env, s1, SubscriptionsOf(s1, t, Sorted(SubscribersOf(s1, t))))
  }

  function SettledAll(env: Env, pubs: Handlers, ts: set<Track>): Handlers {
    map k | k in pubs && (k.0 in ts - env.wanted && !HasSubscribers(pubs[k]) ==> pubs[k].initiated) ::
      if k.0 in ts - env.wanted && !HasSubscribers(pubs[k]) then pubs[k].(paused := true) else pubs[k]
  }

  function Requests(s: Tables, c: Conn): set<Req> {
    set k | k in s.aliasOf && k.0 == c :: k.1
  }

  function UnsubscribedEach(env: Env, s: Tables, c: Conn, rs: seq<Req>): Tables {
    if rs == [] then s else Unsubscribed(env, UnsubscribedEach(env, s, c, rs[..|rs| - 1]), c, rs[|rs| - 1])
  }

  function UnnamedEach(env: Env, s: Tables, c: Conn, nss: seq<Namespace>): Tables {
    if nss == [] then s else NamespaceUnsubscribed(env, UnnamedEach(env, s, c, nss[..|nss| - 1]), c, nss[|nss| - 1])
  }

  function Purged(s: Tables, c: Conn): Tables {
    s.(pubs := map k | k in s.pubs && k.1 != c :: s.pubs[k],
       announced := map k | k in s.announced && k.1 != c :: s.announced[k])
  }

  /** A connection closes. `nss` are the namespaces it subscribed to, in the order of their map. */
  function Closed(env: Env, s: Tables, c: Conn, nss: seq<Namespace>): Tables {
    var s1 := UnnamedEach(env, s, c, nss);
    Purged(UnsubscribedEach(env, s1, c, Sorted(Requests(s1, c))), c)
  }

  // ---------------------------------------------------------------- one relation, three views

  /** Connection `c` subscribed to `t` with request `r`, as each index has it. */
  predicate InSubscribes(s: Tables, c: Conn, r: Req, t: Track) {
    (t, c) in s.subscribes && s.subscribes[(t, c)] == r
  }

  predicate InAliases(s: Tables, c: Conn, r: Req, t: Track) {
    (c, r) in s.aliasOf && s.aliasOf[(c, r)] == t
  }

  predicate InActive(s: Tables, c: Conn, r: Req, t: Track) {
    t in s.active && (c, r) in s.active[t]
  }

  ghost predicate ViewsAgree(s: Tables) {
    && (forall c, r, t :: InSubscribes(s, c, r, t) <==> InAliases(s, c, r, t))
    && (forall c, r, t :: InSubscribes(s, c, r, t) <==> InActive(s, c, r, t))
    && (forall t | t in s.active :: s.active[t] != {})
  }

  /** A client fanned out to is a subscriber of the track. */
  ghost predicate FanOutOk(s: Tables) {
    forall k, c | k in s.pubs && c in s.pubs[k].subscribers && c != 0 :: (k.0, c) in s.subscribes
  }

  ghost predicate TablesInv(s: Tables) {
    ViewsAgree(s) && FanOutOk(s)
  }

  lemma RecordKeeps(s: Tables, c: Conn, r: Req, t: Track)
    requires TablesInv(s) && (t, c) !in s.subscribes && (c, r) !in s.aliasOf
    ensures TablesInv(Recorded(s, c, r, t))
  {
    var s' := Recorded(s, c, r, t);
    forall c', r', t'
      ensures InSubscribes(s', c', r', t') <==> InAliases(s', c', r', t')
      ensures InSubscribes(s', c', r', t') <==> InActive(s', c', r', t')
    {
      assert InSubscribes(s, c', r', t') <==> InAliases(s, c', r', t');
      assert InSubscribes(s, c', r', t') <==> InActive(s, c', r', t');
      assert !InSubscribes(s, c, r', t) && !InAliases(s, c, r, t');
      if c' == c && t' == t {
        assert !InActive(s, c, r', t);
      }
      if c' == c && r' == r {
        assert !InSubscribes(s, c, r, t');
      }
    }
  }

  lemma JoinedOk(s: Tables, t: Track, c: Conn)
    requires TablesInv(s) && (c == 0 || (t, c) in s.subscribes)
    ensures TablesInv(s.(pubs := Joined(s.pubs, t, c)))
  {
    SameViews(s, s.(pubs := Joined(s.pubs, t, c)));
  }

  lemma SameViews(s: Tables, s': Tables)
    requires ViewsAgree(s)
    requires s'.subscribes == s.subscribes && s'.aliasOf == s.aliasOf && s'.active == s.active
    ensures ViewsAgree(s')
  {
    forall c, r, t
      ensures InSubscribes(s', c, r, t) <==> InAliases(s', c, r, t)
      ensures InSubscribes(s', c, r, t) <==> InActive(s', c, r, t)
    {
      assert InSubscribes(s, c, r, t) <==> InAliases(s, c, r, t);
      assert InSubscribes(s, c, r, t) <==> InActive(s, c, r, t);
    }
  }

  lemma {:induction false} JoinAnnouncersKeeps(env: Env, s: Tables, t: Track, c: Conn, order: seq<(Namespace, Conn)>)
    requires TablesInv(s) && (c == 0 || (t, c) in s.subscribes)
    ensures var s' := JoinAnnouncers(env, s, t, c, order);
            TablesInv(s') && s'.subscribes == s.subscribes && s'.aliasOf == s.aliasOf && s'.active == s.active
  {
    if order != [] {
      JoinAnnouncersKeeps(env, s, t, c, order[..|order| - 1]);
      SameViews(s, JoinAnnouncers(env, s, t, c, order));
    }
  }

  /** A subscribe that is refused, or brings a request id not in use, keeps the tables. */
  lemma SubscribeKeeps(env: Env, s: Tables, c: Conn, r: Req, t: Track, order: seq<(Namespace, Conn)>)
    requires TablesInv(s) && c != 0
    requires (t, c) in s.subscribes || (c, r) !in s.aliasOf
    ensures TablesInv(Subscribed(env, s, c, r, t, order))
  {
    if (t, c) !in s.subscribes {
      RecordKeeps(s, c, r, t);
      var s1 := Recorded(s, c, r, t);
      JoinedOk(s1, t, c);
      JoinAnnouncersKeeps(env, s1.(pubs := Joined(s1.pubs, t, c)), t, c, order);
    }
  }

  lemma {:induction false} JoinAnnouncersIndexes(env: Env, s: Tables, t: Track, c: Conn, order: seq<(Namespace, Conn)>)
    ensures var s' := JoinAnnouncers(env, s, t, c, order);
            s'.subscribes == s.subscribes && s'.aliasOf == s.aliasOf && s'.active == s.active && s'.subNs == s.subNs
  {
    if order != [] {
      JoinAnnouncersIndexes(env, s, t, c, order[..|order| - 1]);
    }
  }

  /** When a client's subscribe keeps the tables: exactly when it is refused as a duplicate or its
      request id is not in use. */
  lemma SubscribeKeepsIff(env: Env, s: Tables, c: Conn, r: Req, t: Track, order: seq<(Namespace, Conn)>)
    requires TablesInv(s) && c != 0
    ensures TablesInv(Subscribed(env, s, c, r, t, order)) <==> (t, c) in s.subscribes || (c, r) !in s.aliasOf
  {
    if (t, c) in s.subscribes || (c, r) !in s.aliasOf {
      SubscribeKeeps(env, s, c, r, t, order);
    } else {
      var u, s1 := s.aliasOf[(c, r)], Recorded(s, c, r, t);
      var s' := Subscribed(env, s, c, r, t, order);
      JoinAnnouncersIndexes(env, s1.(pubs := Joined(s1.pubs, t, c)), t, c, order);
      assert InSubscribes(s, c, r, u) <==> InAliases(s, c, r, u);
      assert InSubscribes(s', c, r, u) && !InAliases(s', c, r, u);
    }
  }

  // ---------------------------------------------------------------- announcers are asked

  /** `order` walks all of the announced namespaces. */
  ghost predicate Lists(order: seq<(Namespace, Conn)>, announced: map<(Namespace, Conn), set<Track>>) {
    forall k | k in announced :: k in order
  }

  /** Every client that announced a matching namespace has a handler for the track that serves `c`. */
  ghost predicate AnnouncersServe(env: Env, s: Tables, t: Track, c: Conn) {
    forall k | k in s.announced && env.samePrefix(k.0, t.ns) && k.1 != 0 ::
      (t, k.1) in s.pubs && c in s.pubs[(t, k.1)].subscribers
  }

  lemma {:induction false} JoinAnnouncersServe(env: Env, s: Tables, t: Track, c: Conn, order: seq<(Namespace, Conn)>)
    requires forall k | k in s.pubs && k.0 == t :: c in s.pubs[k].subscribers
    ensures var s' := JoinAnnouncers(env, s, t, c, order);
            && s'.announced.Keys == s.announced.Keys
            && (forall k | k in s'.pubs && k.0 == t :: c in s'.pubs[k].subscribers)
            && (forall k | k in order && k in s.announced && env.samePrefix(k.0, t.ns) && k.1 != 0 :: (t, k.1) in s'.pubs)
  {
    if order != [] {
      JoinAnnouncersServe(env, s, t, c, order[..|order| - 1]);
      assert order == order[..|order| - 1] + [order[|order| - 1]];
    }
  }

  /** A subscribe reaches every matching announcer, whatever the order in which they are asked. */
  lemma AllAnnouncersServe(env: Env, s: Tables, c: Conn, r: Req, t: Track, order: seq<(Namespace, Conn)>)
    requires Lists(order, s.announced)
    ensures AnnouncersServe(env, Processed(env, s, c, r, t, order), t, c)
    ensures var s' := Processed(env, s, c, r, t, order); forall k | k in s'.pubs && k.0 == t :: c in s'.pubs[k].subscribers
  {
    var s1 := if c == 0 && r == 0 then s else Recorded(s, c, r, t);
    JoinAnnouncersServe(env, s1.(pubs := Joined(s1.pubs, t, c)), t, c, order);
  }

  lemma PeerSubscribeKeeps(env: Env, s: Tables, t: Track, order: seq<(Namespace, Conn)>)
    requires TablesInv(s)
    ensures TablesInv(Processed(env, s, 0, 0, t, order))
  {
    JoinedOk(s, t, 0);
    JoinAnnouncersKeeps(env, s.(pubs := Joined(s.pubs, t, 0)), t, 0, order);
  }

  lemma DroppedViews(s: Tables, s': Tables, c: Conn, r: Req, t: Track)
    requires ViewsAgree(s) && InSubscribes(s, c, r, t)
    requires s'.subscribes == s.subscribes - {(t, c)} && s'.aliasOf == s.aliasOf - {(c, r)}
    requires s'.active == var left := s.active[t] - {(c, r)}; if left == {} then s.active - {t} else s.active[t := left]
    requires t in s.active
    ensures ViewsAgree(s')
  {
    forall c', r', t'
      ensures InSubscribes(s', c', r', t') <==> InAliases(s', c', r', t')
      ensures InSubscribes(s', c', r', t') <==> InActive(s', c', r', t')
    {
      assert InSubscribes(s, c', r', t') <==> InAliases(s, c', r', t');
      assert InSubscribes(s, c', r', t') <==> InActive(s, c', r', t');
      assert InAliases(s, c, r, t);
    }
  }

  lemma UnsubscribeKeeps(env: Env, s: Tables, c: Conn, r: Req)
    requires TablesInv(s)
    ensures TablesInv(Unsubscribed(env, s, c, r))
    ensures Unsubscribed(env, s, c, r).aliasOf == s.aliasOf - {(c, r)}
  {
    if (c, r) in s.aliasOf {
      var t := s.aliasOf[(c, r)];
      assert InAliases(s, c, r, t);
      assert InSubscribes(s, c, r, t) && InActive(s, c, r, t);
      DroppedViews(s, Unsubscribed(env, s, c, r), c, r, t);
    } else {
      assert s.aliasOf - {(c, r)} == s.aliasOf;
    }
  }

  lemma PublishKeeps(env: Env, s: Tables, c: Conn, t: Track)
    requires TablesInv(s)
    ensures TablesInv(Published(env, s, c, t))
  {
    SameViews(s, Published(env, s, c, t));
    forall d | d in SubscribersOf(s, t) ensures (t, d) in s.subscribes {
      var k :| k in s.subscribes && k.0 == t && k.1 == d;
      assert k == (t, d);
    }
  }

  lemma ActiveSubscribed(s: Tables, t: Track, d: Conn)
    requires ViewsAgree(s) && t in s.active && d in Conns(s.active[t])
    ensures (t, d) in s.subscribes
  {
    var x :| x in s.active[t] && x.0 == d;
    assert InActive(s, x.0, x.1, t);
    assert InSubscribes(s, x.0, x.1, t);
  }

  /** The fan-out a new handler gets from the active set is exactly the track's subscribers. */
  lemma ActiveIsSubscribers(s: Tables, t: Track)
    requires ViewsAgree(s) && t in s.active
    ensures Conns(s.active[t]) == SubscribersOf(s, t)
    ensures (t, FirstConn(s.active[t])) in s.subscribes
  {
    forall d ensures d in Conns(s.active[t]) <==> d in SubscribersOf(s, t) {
      if d in Conns(s.active[t]) {
        ActiveSubscribed(s, t, d);
        assert (t, d).0 == t && (t, d).1 == d;
      }
      if d in SubscribersOf(s, t) {
        var k :| k in s.subscribes && k.0 == t && k.1 == d;
        assert InSubscribes(s, d, s.subscribes[k], t);
        assert InActive(s, d, s.subscribes[k], t);
        assert (d, s.subscribes[k]).0 == d;
      }
    }
    var x := Element(s.active[t]);
    assert x.0 in Conns(s.active[t]);
    var order := Sorted(Conns(s.active[t]));
    assert order[0] in order;
    SortedMembers(Conns(s.active[t]), order[0]);
    ActiveSubscribed(s, t, order[0]);
  }

  lemma AnnouncerPubs(env: Env, s: Tables, key: (Namespace, Conn), k: (Track, Conn))
    requires TablesInv(s) && k in SubscribedTo(env, s, key).pubs
    ensures SubscribedTo(env, s, key).pubs[k] ==
            if k.1 == key.1 && Joins(env, s, key, k.0) then Handler(false, false, SubscribersOf(s, k.0), {})
            else if k in s.pubs then s.pubs[k] else NEW_HANDLER
    ensures k in s.pubs || (k.1 == key.1 && Joins(env, s, key, k.0))
  {
    if k.1 == key.1 && Joins(env, s, key, k.0) {
      ActiveIsSubscribers(s, k.0);
    }
  }

  lemma SubscribedToKeeps(env: Env, s: Tables, key: (Namespace, Conn))
    requires TablesInv(s)
    ensures TablesInv(SubscribedTo(env, s, key))
  {
    var s' := SubscribedTo(env, s, key);
    SameViews(s, s');
    forall k, c | k in s'.pubs && c in s'.pubs[k].subscribers && c != 0 ensures (k.0, c) in s'.subscribes {
      AnnouncerPubs(env, s, key, k);
      if c in SubscribersOf(s, k.0) {
        var x :| x in s.subscribes && x.0 == k.0 && x.1 == c;
        assert x == (k.0, c);
      }
    }
  }

  lemma NamespacePublishKeeps(env: Env, s: Tables, c: Conn, ns: Namespace)
    requires TablesInv(s)
    ensures TablesInv(NamespacePublished(env, s, c, ns))
  {
    var s1 := if (ns, c) in s.announced then s else s.(announced := s.announced[(ns, c) := {}]);
    SameViews(s, s1);
    assert TablesInv(s1);
    if c != 0 {
      SubscribedToKeeps(env, s1, (ns, c));
    }
  }

  lemma NamespaceSubscribeKeeps(env: Env, s: Tables, c: Conn, ns: Namespace)
    requires TablesInv(s)
    ensures TablesInv(NamespaceSubscribed(env, s, c, ns))
  {
    SameViews(s, NamespaceSubscribed(env, s, c, ns));
  }

  /** No handler gains a subscriber. */
  ghost predicate FewerSubscribers(pubs: Handlers, pubs': Handlers) {
    forall k | k in pubs' :: k in pubs && pubs'[k].subscribers <= pubs[k].subscribers
  }

  lemma FewerKeeps(s: Tables, s': Tables)
    requires TablesInv(s) && FewerSubscribers(s.pubs, s'.pubs)
    requires s'.subscribes == s.subscribes && s'.aliasOf == s.aliasOf && s'.active == s.active
    ensures TablesInv(s')
  {
    SameViews(s, s');
    forall k, c | k in s'.pubs && c in s'.pubs[k].subscribers && c != 0 ensures (k.0, c) in s'.subscribes {
      assert k in s.pubs && c in s.pubs[k].subscribers;
    }
  }

  lemma NamespaceUnsubscribeKeeps(env: Env, s: Tables, c: Conn, ns: Namespace)
    requires TablesInv(s)
    ensures var s' := NamespaceUnsubscribed(env, s, c, ns);
            TablesInv(s') && s'.subscribes == s.subscribes && s'.aliasOf == s.aliasOf && s'.active == s.active
  {
    var s' := NamespaceUnsubscribed(env, s, c, ns);
    if Registered(s, ns, c) {
      forall k | k in s'.pubs ensures k in s.pubs && s'.pubs[k].subscribers <= s.pubs[k].subscribers {
        LeftServes(env, s.pubs, c, ns, k);
      }
    }
    FewerKeeps(s, s');
  }

  lemma PurgeKeeps(s: Tables, c: Conn)
    requires TablesInv(s)
    ensures TablesInv(Purged(s, c))
  {
    FewerKeeps(s, Purged(s, c));
  }

  // ---------------------------------------------------------------- a publisher is done

  lemma NamespaceDoneKeeps(s: Tables, c: Conn, ns: Namespace)
    requires TablesInv(s)
    ensures TablesInv(NamespaceDone(s, c, ns))
  {
    FewerKeeps(s, NamespaceDone(s, c, ns));
  }

  lemma PeerUnsubscribeKeeps(s: Tables, t: Track)
    requires TablesInv(s)
    ensures TablesInv(s.(pubs := Parted(s.pubs, t, 0)))
  {
    FewerKeeps(s, s.(pubs := Parted(s.pubs, t, 0)));
  }

  ghost predicate Distinct(cs: seq<Conn>) {
    forall i, j | 0 <= i < j < |cs| :: cs[i] != cs[j]
  }

  function Pairs(t: Track, cs: seq<Conn>): set<(Track, Conn)> {
    set i | 0 <= i < |cs| :: (t, cs[i])
  }

  lemma PairsNext(t: Track, cs: seq<Conn>, c: Conn)
    ensures Pairs(t, cs + [c]) == Pairs(t, cs) + {(t, c)}
    ensures Distinct(cs + [c]) ==> Distinct(cs) && (t, c) !in Pairs(t, cs)
  {
    var all := cs + [c];
    assert forall i | 0 <= i < |cs| :: all[i] == cs[i];
    assert all[|cs|] == c;
  }

  lemma SubscriptionsNext(s: Tables, t: Track, cs: seq<Conn>, c: Conn, r: Req)
    requires InSubscribes(s, c, r, t)
    ensures SubscriptionsOf(s, t, cs + [c]) == SubscriptionsOf(s, t, cs) + [(c, r)]
  {
    assert (cs + [c])[..|cs|] == cs;
  }

  lemma UnsubscribedNext(env: Env, s: Tables, subs: seq<(Conn, Req)>, c: Conn, r: Req)
    ensures UnsubscribedAll(env, s, subs + [(c, r)]) == Unsubscribed(env, UnsubscribedAll(env, s, subs), c, r)
  {
    assert (subs + [(c, r)])[..|subs|] == subs;
  }

  /** Unsubscribing connections one after the other takes exactly their subscriptions to the track. */
  lemma {:induction false} UnsubscribedAllKeeps(env: Env, s: Tables, t: Track, cs: seq<Conn>)
    requires TablesInv(s) && Distinct(cs) && Pairs(t, cs) <= s.subscribes.Keys
    ensures var s' := UnsubscribedAll(env, s, SubscriptionsOf(s, t, cs));
            TablesInv(s') && s'.subscribes == s.subscribes - Pairs(t, cs)
  {
    if cs == [] {
      assert s.subscribes - {} == s.subscribes;
    } else {
      var init, c := cs[..|cs| - 1], cs[|cs| - 1];
      assert cs == init + [c];
      PairsNext(t, init, c);
      UnsubscribedAllKeeps(env, s, t, init);
      var r := s.subscribes[(t, c)];
      SubscriptionsNext(s, t, init, c, r);
      UnsubscribedNext(env, s, SubscriptionsOf(s, t, init), c, r);
      OneUnsubscribed(env, UnsubscribedAll(env, s, SubscriptionsOf(s, t, init)), c, r, t);
    }
  }

  lemma OneUnsubscribed(env: Env, s: Tables, c: Conn, r: Req, t: Track)
    requires TablesInv(s) && InSubscribes(s, c, r, t)
    ensures TablesInv(Unsubscribed(env, s, c, r)) && Unsubscribed(env, s, c, r).subscribes == s.subscribes - {(t, c)}
  {
    UnsubscribeKeeps(env, s, c, r);
    assert InAliases(s, c, r, t);
  }

  /** All subscribers of the track, and no others, are gone. */
  lemma TrackUnsubscribed(env: Env, s: Tables, t: Track)
    requires TablesInv(s)
    ensures var s' := UnsubscribedAll(env, s, SubscriptionsOf(s, t, Sorted(SubscribersOf(s, t))));
            TablesInv(s') && forall k :: k in s'.subscribes <==> k in s.subscribes && k.0 != t
  {
    SubscriberList(s, t);
    UnsubscribedAllKeeps(env, s, t, Sorted(SubscribersOf(s, t)));
  }

  /** A publish that is done ends the subscriptions to its track, all of them and no others, exactly when
      nobody else publishes it and subscribes are not kept without a publisher. */
  lemma PublishDoneEnds(env: Env, s: Tables, c: Conn, t: Track, detached: bool)
    requires TablesInv(s)
    ensures TablesInv(PublishDone(env, s, c, t, detached))
    ensures var ends := !detached && !HasPublisher(s.pubs - {(t, c)}, t);
            forall k :: k in PublishDone(env, s, c, t, detached).subscribes <==> k in s.subscribes && !(ends && k.0 == t)
  {
    var s1 := s.(pubs := s.pubs - {(t, c)});
    FewerKeeps(s, s1);
    if !HasPublisher(s1.pubs, t) && !detached {
      TrackUnsubscribed(env, s1, t);
    }
  }

  lemma SubscriberList(s: Tables, t: Track)
    ensures var cs := Sorted(SubscribersOf(s, t));
            Distinct(cs) && forall k :: k in Pairs(t, cs) <==> k in s.subscribes && k.0 == t
  {
    var cs := Sorted(SubscribersOf(s, t));
    forall i, j | 0 <= i < j < |cs| ensures cs[i] != cs[j] {
      SortedAscending(SubscribersOf(s, t), i, j);
    }
    forall k ensures k in Pairs(t, cs) <==> k in s.subscribes && k.0 == t {
      SubscriberListed(s, t, k);
    }
  }

  lemma SubscriberListed(s: Tables, t: Track, k: (Track, Conn))
    ensures k in Pairs(t, Sorted(SubscribersOf(s, t))) <==> k in s.subscribes && k.0 == t
  {
    var cs := Sorted(SubscribersOf(s, t));
    SortedMembers(SubscribersOf(s, t), k.1);
    if k in Pairs(t, cs) {
      var i :| 0 <= i < |cs| && k == (t, cs[i]);
      var x :| x in s.subscribes && x.0 == t && x.1 == k.1;
      assert x == k;
    }
    if k in s.subscribes && k.0 == t {
      var i :| 0 <= i < |cs| && cs[i] == k.1;
      assert k == (t, cs[i]);
    }
  }

  // ---------------------------------------------------------------- a connection closes

  lemma {:induction false} UnnamedKeeps(env: Env, s: Tables, c: Conn, nss: seq<Namespace>)
    requires TablesInv(s)
    ensures var s' := UnnamedEach(env, s, c, nss);
            && TablesInv(s') && s'.subscribes == s.subscribes && s'.aliasOf == s.aliasOf && s'.active == s.active
            && (forall ns | ns in s'.subNs :: ns in s.subNs && s'.subNs[ns] <= s.subNs[ns])
            && (forall ns | ns in nss && ns in s'.subNs :: c !in s'.subNs[ns])
  {
    if nss != [] {
      var init, last := nss[..|nss| - 1], nss[|nss| - 1];
      UnnamedKeeps(env, s, c, init);
      NamespaceUnsubscribeKeeps(env, UnnamedEach(env, s, c, init), c, last);
      assert nss == init + [last];
    }
  }

  lemma {:induction false} UnsubscribedEachKeeps(env: Env, s: Tables, c: Conn, rs: seq<Req>)
    requires TablesInv(s)
    ensures var s' := UnsubscribedEach(env, s, c, rs);
            && TablesInv(s') && s'.subNs == s.subNs && s'.announced == s.announced
            && (forall k :: k in s'.aliasOf <==> k in s.aliasOf && !(k.0 == c && k.1 in rs))
  {
    if rs != [] {
      var init, last := rs[..|rs| - 1], rs[|rs| - 1];
      UnsubscribedEachKeeps(env, s, c, init);
      UnsubscribeKeeps(env, UnsubscribedEach(env, s, c, init), c, last);
      assert rs == init + [last];
    }
  }

  /** The connection is in none of the three indexes. */
  ghost predicate NotIndexed(s: Tables, c: Conn) {
    && (forall r :: (c, r) !in s.aliasOf)
    && (forall t :: (t, c) !in s.subscribes)
    && (forall t, r | t in s.active :: (c, r) !in s.active[t])
  }

  lemma NotAliased(s: Tables, c: Conn)
    requires TablesInv(s) && forall r :: (c, r) !in s.aliasOf
    ensures NotIndexed(s, c)
  {
    forall t ensures (t, c) !in s.subscribes {
      var r := if (t, c) in s.subscribes then s.subscribes[(t, c)] else 0;
      assert InSubscribes(s, c, r, t) <==> InAliases(s, c, r, t);
    }
    forall t, r | t in s.active ensures (c, r) !in s.active[t] {
      assert InSubscribes(s, c, r, t) <==> InAliases(s, c, r, t);
      assert InSubscribes(s, c, r, t) <==> InActive(s, c, r, t);
    }
  }

  /** Nothing in the tables mentions the connection, but for the namespaces of the handlers. */
  ghost predicate Unlisted(s: Tables, c: Conn) {
    && NotIndexed(s, c)
    && (forall k | k in s.pubs :: k.1 != c && c !in s.pubs[k].subscribers)
    && (forall k | k in s.announced :: k.1 != c)
    && (forall ns | ns in s.subNs :: c !in s.subNs[ns])
  }

  /** Nothing in the tables mentions the connection. */
  ghost predicate Forgotten(s: Tables, c: Conn) {
    Unlisted(s, c) && forall k, ns | k in s.pubs :: (ns, c) !in s.pubs[k].namespaces
  }

  lemma ClosedIsUnlisted(env: Env, s: Tables, c: Conn, nss: seq<Namespace>)
    requires TablesInv(s) && c != 0
    requires forall ns | ns in s.subNs && c in s.subNs[ns] :: ns in nss
    ensures TablesInv(Closed(env, s, c, nss)) && Unlisted(Closed(env, s, c, nss), c)
  {
    var s1 := UnnamedEach(env, s, c, nss);
    UnnamedKeeps(env, s, c, nss);
    var rs := Sorted(Requests(s1, c));
    var s2 := UnsubscribedEach(env, s1, c, rs);
    UnsubscribedEachKeeps(env, s1, c, rs);
    forall r ensures (c, r) !in s2.aliasOf {
      SortedMembers(Requests(s1, c), r);
      assert (c, r).0 == c && (c, r).1 == r;
    }
    PurgeKeeps(s2, c);
    var s3 := Purged(s2, c);
    NotAliased(s3, c);
    forall k | k in s3.pubs ensures c !in s3.pubs[k].subscribers {
      assert c in s3.pubs[k].subscribers ==> (k.0, c) in s3.subscribes;
    }
  }

  // ---------------------------------------------------------------- namespaces of handlers

  type Matcher = (Namespace, Namespace) -> bool

  /** A namespace subscriber that a handler serves, other than its own publisher, matches the track
      and is still registered. */
  ghost predicate NamespacesOk(same: Matcher, s: Tables) {
    forall k, ns, c | k in s.pubs && (ns, c) in s.pubs[k].namespaces && k.1 != c ::
      same(ns, k.0.ns) && Registered(s, ns, c)
  }

  /** Every handler of `pubs'` serves no more namespaces than it did in `pubs`. */
  ghost predicate FewerNamespaces(pubs: Handlers, pubs': Handlers) {
    forall k | k in pubs' && pubs'[k].namespaces != {} :: k in pubs && pubs'[k].namespaces <= pubs[k].namespaces
  }

  lemma FewerNamespacesOk(same: Matcher, s: Tables, s': Tables)
    requires NamespacesOk(same, s) && s'.subNs == s.subNs && FewerNamespaces(s.pubs, s'.pubs)
    ensures NamespacesOk(same, s')
  {
  }

  lemma {:induction false} JoinAnnouncersNamespaces(env: Env, s: Tables, t: Track, c: Conn, order: seq<(Namespace, Conn)>)
    ensures FewerNamespaces(s.pubs, JoinAnnouncers(env, s, t, c, order).pubs)
  {
    if order != [] {
      JoinAnnouncersNamespaces(env, s, t, c, order[..|order| - 1]);
    }
  }

  lemma ProcessedNamespaces(env: Env, s: Tables, c: Conn, r: Req, t: Track, order: seq<(Namespace, Conn)>)
    requires NamespacesOk(env.samePrefix, s)
    ensures NamespacesOk(env.samePrefix, Processed(env, s, c, r, t, order))
  {
    var s1 := if c == 0 && r == 0 then s else Recorded(s, c, r, t);
    var s2 := s1.(pubs := Joined(s1.pubs, t, c));
    JoinAnnouncersNamespaces(env, s2, t, c, order);
    JoinAnnouncersIndexes(env, s2, t, c, order);
    FewerNamespacesOk(env.samePrefix, s, s2);
    FewerNamespacesOk(env.samePrefix, s2, Processed(env, s, c, r, t, order));
  }

  lemma PublishedNamespaces(env: Env, s: Tables, c: Conn, t: Track)
    requires NamespacesOk(env.samePrefix, s)
    ensures NamespacesOk(env.samePrefix, Published(env, s, c, t))
  {
  }

  lemma MadeServeNone(env: Env, s: Tables, key: (Namespace, Conn), ts: set<Track>)
    ensures var made := MadeFor(env, s, key, ts); forall k | k in made :: made[k].namespaces == {}
  {
  }

  lemma UnionFewer(pubs: Handlers, made: Handlers)
    requires forall k | k in made :: made[k].namespaces == {}
    ensures FewerNamespaces(pubs, pubs + made)
  {
  }

  lemma SubscribedFewer(env: Env, s: Tables, key: (Namespace, Conn))
    ensures FewerNamespaces(s.pubs, SubscribedTo(env, s, key).pubs)
  {
    MadeServeNone(env, s, key, s.active.Keys);
    UnionFewer(s.pubs, MadeFor(env, s, key, s.active.Keys));
  }

  lemma AnnouncedFewer(env: Env, s: Tables, c: Conn, ns: Namespace)
    ensures FewerNamespaces(s.pubs, NamespacePublished(env, s, c, ns).pubs)
    ensures NamespacePublished(env, s, c, ns).subNs == s.subNs
  {
    if c != 0 {
      SubscribedFewer(env, if (ns, c) in s.announced then s else s.(announced := s.announced[(ns, c) := {}]), (ns, c));
    }
  }

  lemma NamespacePublishedNamespaces(env: Env, s: Tables, c: Conn, ns: Namespace)
    requires NamespacesOk(env.samePrefix, s)
    ensures NamespacesOk(env.samePrefix, NamespacePublished(env, s, c, ns))
  {
    AnnouncedFewer(env, s, c, ns);
    FewerNamespacesOk(env.samePrefix, s, NamespacePublished(env, s, c, ns));
  }

  /** A prefix of a namespace matches it. */
  ghost predicate PrefixMatches(env: Env) {
    forall a, b | env.prefixOf(a, b) :: env.samePrefix(a, b)
  }

  lemma NamespaceSubscribedNamespaces(env: Env, s: Tables, c: Conn, ns: Namespace)
    requires NamespacesOk(env.samePrefix, s) && PrefixMatches(env)
    ensures NamespacesOk(env.samePrefix, NamespaceSubscribed(env, s, c, ns))
  {
    var s' := NamespaceSubscribed(env, s, c, ns);
    forall k, n, d | k in s'.pubs && (n, d) in s'.pubs[k].namespaces && k.1 != d
      ensures env.samePrefix(n, k.0.ns) && Registered(s', n, d)
    {
      if (n, d) !in s.pubs[k].namespaces {
        assert n == ns && d == c && env.prefixOf(ns, k.0.ns);
      }
    }
  }

  lemma UnsubscribedNamespaces(same: Matcher, env: Env, s: Tables, c: Conn, r: Req)
    requires NamespacesOk(same, s)
    ensures NamespacesOk(same, Unsubscribed(env, s, c, r))
  {
    FewerNamespacesOk(same, s, Unsubscribed(env, s, c, r));
  }

  lemma UnsubscribedRegisters(env: Env, s: Tables, c: Conn, ns: Namespace, n: Namespace, d: Conn)
    ensures Registered(NamespaceUnsubscribed(env, s, c, ns), n, d) <==> Registered(s, n, d) && !(n == ns && d == c)
  {
    if Registered(s, ns, c) && Registered(s, n, d) && n == ns && d != c {
      assert d in s.subNs[ns] - {c};
    }
  }

  lemma UnsubscribedServes(env: Env, s: Tables, c: Conn, ns: Namespace, k: (Track, Conn), n: Namespace, d: Conn)
    requires NamespacesOk(env.samePrefix, s)
    requires var s' := NamespaceUnsubscribed(env, s, c, ns); k in s'.pubs && (n, d) in s'.pubs[k].namespaces && k.1 != d
    ensures k in s.pubs && (n, d) in s.pubs[k].namespaces
    ensures n == ns && d == c ==> !Registered(s, ns, c)
  {
    if Registered(s, ns, c) {
      LeftServes(env, s.pubs, c, ns, k);
    }
  }

  lemma LeftServes(env: Env, pubs: Handlers, c: Conn, ns: Namespace, k: (Track, Conn))
    requires k in NamespaceLeft(env, pubs, c, ns)
    ensures k in pubs
    ensures NamespaceLeft(env, pubs, c, ns)[k].namespaces ==
            if Matches(env, ns, c, k) then pubs[k].namespaces - {(ns, c)} else pubs[k].namespaces
    ensures NamespaceLeft(env, pubs, c, ns)[k].subscribers == pubs[k].subscribers
  {
  }

  lemma NamespaceUnsubscribedNamespaces(env: Env, s: Tables, c: Conn, ns: Namespace)
    requires NamespacesOk(env.samePrefix, s)
    ensures NamespacesOk(env.samePrefix, NamespaceUnsubscribed(env, s, c, ns))
  {
    var s' := NamespaceUnsubscribed(env, s, c, ns);
    forall k, n, d | k in s'.pubs && (n, d) in s'.pubs[k].namespaces && k.1 != d
      ensures env.samePrefix(n, k.0.ns) && Registered(s', n, d)
    {
      UnsubscribedServes(env, s, c, ns, k, n, d);
      UnsubscribedRegisters(env, s, c, ns, n, d);
    }
  }

  lemma DoneNamespaces(same: Matcher, s: Tables, c: Conn, ns: Namespace)
    requires NamespacesOk(same, s)
    ensures NamespacesOk(same, NamespaceDone(s, c, ns))
  {
    FewerNamespacesOk(same, s, NamespaceDone(s, c, ns));
  }

  lemma PeerUnsubscribedNamespaces(same: Matcher, s: Tables, t: Track)
    requires NamespacesOk(same, s)
    ensures NamespacesOk(same, s.(pubs := Parted(s.pubs, t, 0)))
  {
    FewerNamespacesOk(same, s, s.(pubs := Parted(s.pubs, t, 0)));
  }

  lemma {:induction false} UnsubscribedAllNamespaces(same: Matcher, env: Env, s: Tables, subs: seq<(Conn, Req)>)
    requires NamespacesOk(same, s)
    ensures NamespacesOk(same, UnsubscribedAll(env, s, subs))
  {
    if subs != [] {
      var last := subs[|subs| - 1];
      UnsubscribedAllNamespaces(same, env, s, subs[..|subs| - 1]);
      UnsubscribedNamespaces(same, env, UnsubscribedAll(env, s, subs[..|subs| - 1]), last.0, last.1);
    }
  }

  lemma PublishDoneNamespaces(same: Matcher, env: Env, s: Tables, c: Conn, t: Track, detached: bool)
    requires NamespacesOk(same, s)
    ensures NamespacesOk(same, PublishDone(env, s, c, t, detached))
  {
    var s1 := s.(pubs := s.pubs - {(t, c)});
    FewerNamespacesOk(same, s, s1);
    UnsubscribedAllNamespaces(same, env, s1, SubscriptionsOf(s1, t, Sorted(SubscribersOf(s1, t))));
  }

  lemma {:induction false} UnnamedNamespaces(env: Env, s: Tables, c: Conn, nss: seq<Namespace>)
    requires NamespacesOk(env.samePrefix, s)
    ensures NamespacesOk(env.samePrefix, UnnamedEach(env, s, c, nss))
  {
    if nss != [] {
      UnnamedNamespaces(env, s, c, nss[..|nss| - 1]);
      NamespaceUnsubscribedNamespaces(env, UnnamedEach(env, s, c, nss[..|nss| - 1]), c, nss[|nss| - 1]);
    }
  }

  lemma {:induction false} UnsubscribedEachNamespaces(env: Env, s: Tables, c: Conn, rs: seq<Req>)
    requires NamespacesOk(env.samePrefix, s)
    ensures NamespacesOk(env.samePrefix, UnsubscribedEach(env, s, c, rs))
  {
    if rs != [] {
      UnsubscribedEachNamespaces(env, s, c, rs[..|rs| - 1]);
      UnsubscribedNamespaces(env.samePrefix, env, UnsubscribedEach(env, s, c, rs[..|rs| - 1]), c, rs[|rs| - 1]);
    }
  }

  lemma ClosedNamespaces(env: Env, s: Tables, c: Conn, nss: seq<Namespace>)
    requires NamespacesOk(env.samePrefix, s)
    ensures NamespacesOk(env.samePrefix, Closed(env, s, c, nss))
  {
    var s1 := UnnamedEach(env, s, c, nss);
    UnnamedNamespaces(env, s, c, nss);
    var s2 := UnsubscribedEach(env, s1, c, Sorted(Requests(s1, c)));
    UnsubscribedEachNamespaces(env, s1, c, Sorted(Requests(s1, c)));
    FewerNamespacesOk(env.samePrefix, s2, Purged(s2, c));
  }

  /** After a client's connection has closed nothing in the tables mentions it, and they agree. */
  lemma ClosedIsForgotten(env: Env, s: Tables, c: Conn, nss: seq<Namespace>)
    requires TablesInv(s) && NamespacesOk(env.samePrefix, s) && c != 0
    requires forall ns | ns in s.subNs && c in s.subNs[ns] :: ns in nss
    ensures TablesInv(Closed(env, s, c, nss)) && Forgotten(Closed(env, s, c, nss), c)
  {
    ClosedIsUnlisted(env, s, c, nss);
    ClosedNamespaces(env, s, c, nss);
  }

  // ---------------------------------------------------------------- runs

  datatype Event =
    | Subscribe(c: Conn, r: Req, t: Track, order: seq<(Namespace, Conn)>)
    | PeerSubscribe(t: Track, order: seq<(Namespace, Conn)>)
    | Unsubscribe(c: Conn, r: Req)
    | Publish(c: Conn, t: Track)
    | PublishNamespace(c: Conn, ns: Namespace)
    | PeerUnsubscribe(t: Track)
    | NamespaceIsDone(c: Conn, ns: Namespace)
    | PublishIsDone(c: Conn, t: Track, detached: bool)
    | SubscribeNamespace(c: Conn, ns: Namespace)
    | UnsubscribeNamespace(c: Conn, ns: Namespace)
    | Close(c: Conn, nss: seq<Namespace>)

  function Happen(env: Env, s: Tables, e: Event): Tables {
    match e
    case Subscribe(c, r, t, order) => Subscribed(env, s, c, r, t, order)
    case PeerSubscribe(t, order) => Processed(env, s, 0, 0, t, order)
    case Unsubscribe(c, r) => Unsubscribed(env, s, c, r)
    case Publish(c, t) => Published(env, s, c, t)
    case PublishNamespace(c, ns) => NamespacePublished(env, s, c, ns)
    case PeerUnsubscribe(t) => s.(pubs := Parted(s.pubs, t, 0))
    case NamespaceIsDone(c, ns) => NamespaceDone(s, c, ns)
    case PublishIsDone(c, t, detached) => PublishDone(env, s, c, t, detached)
    case SubscribeNamespace(c, ns) => NamespaceSubscribed(env, s, c, ns)
    case UnsubscribeNamespace(c, ns) => NamespaceUnsubscribed(env, s, c, ns)
    case Close(c, nss) => Closed(env, s, c, nss)
  }

  /** Client connections are nonzero, and a subscribe that is not a duplicate brings a request id that
      is not in use. */
  ghost predicate Allowed(s: Tables, e: Event) {
    match e
    case Subscribe(c, r, t, order) => c != 0 && ((t, c) in s.subscribes || (c, r) !in s.aliasOf)
    case Close(c, nss) => c != 0 && forall ns | ns in s.subNs && c in s.subNs[ns] :: ns in nss
    case _ => true
  }

  /** One event for each environment: which tracks peers want may change between events. */
  ghost predicate Run(envs: seq<Env>, s: Tables, es: seq<Event>)
    requires |envs| == |es|
  {
    es == [] ||
    (Run(envs[..|es| - 1], s, es[..|es| - 1])
     && Allowed(After(envs[..|es| - 1], s, es[..|es| - 1]), es[|es| - 1]))
  }

  ghost function After(envs: seq<Env>, s: Tables, es: seq<Event>): Tables
    requires |envs| == |es|
  {
    if es == [] then s else Happen(envs[|es| - 1], After(envs[..|es| - 1], s, es[..|es| - 1]), es[|es| - 1])
  }

  lemma EventKeeps(env: Env, s: Tables, e: Event)
    requires TablesInv(s) && Allowed(s, e)
    ensures TablesInv(Happen(env, s, e))
  {
    match e
    case Subscribe(c, r, t, order) => SubscribeKeeps(env, s, c, r, t, order);
    case PeerSubscribe(t, order) => PeerSubscribeKeeps(env, s, t, order);
    case Unsubscribe(c, r) => UnsubscribeKeeps(env, s, c, r);
    case Publish(c, t) => PublishKeeps(env, s, c, t);
    case PublishNamespace(c, ns) => NamespacePublishKeeps(env, s, c, ns);
    case PeerUnsubscribe(t) => PeerUnsubscribeKeeps(s, t);
    case NamespaceIsDone(c, ns) => NamespaceDoneKeeps(s, c, ns);
    case PublishIsDone(c, t, detached) => PublishDoneEnds(env, s, c, t, detached);
    case SubscribeNamespace(c, ns) => NamespaceSubscribeKeeps(env, s, c, ns);
    case UnsubscribeNamespace(c, ns) => NamespaceUnsubscribeKeeps(env, s, c, ns);
    case Close(c, nss) => ClosedIsUnlisted(env, s, c, nss);
  }

  /** Over every run the three indexes are views of one relation and fan-out goes to subscribers only. */
  lemma {:induction false} AlwaysAgree(envs: seq<Env>, es: seq<Event>)
    requires |envs| == |es| && Run(envs, EMPTY_TABLES, es)
    ensures TablesInv(After(envs, EMPTY_TABLES, es))
  {
    if es != [] {
      AlwaysAgree(envs[..|es| - 1], es[..|es| - 1]);
      EventKeeps(envs[|es| - 1], After(envs[..|es| - 1], EMPTY_TABLES, es[..|es| - 1]), es[|es| - 1]);
    }
  }

  /** The matchers are the same throughout; only what peers want may change. */
  ghost predicate SameMatchers(envs: seq<Env>, env: Env) {
    forall i | 0 <= i < |envs| :: envs[i].samePrefix == env.samePrefix && envs[i].prefixOf == env.prefixOf
  }

  lemma EventNamespaces(env: Env, s: Tables, e: Event)
    requires NamespacesOk(env.samePrefix, s) && PrefixMatches(env)
    ensures NamespacesOk(env.samePrefix, Happen(env, s, e))
  {
    match e
    case Subscribe(c, r, t, order) => ProcessedNamespaces(env, s, c, r, t, order);
    case PeerSubscribe(t, order) => ProcessedNamespaces(env, s, 0, 0, t, order);
    case Unsubscribe(c, r) => UnsubscribedNamespaces(env.samePrefix, env, s, c, r);
    case Publish(c, t) => PublishedNamespaces(env, s, c, t);
    case PublishNamespace(c, ns) => NamespacePublishedNamespaces(env, s, c, ns);
    case PeerUnsubscribe(t) => PeerUnsubscribedNamespaces(env.samePrefix, s, t);
    case NamespaceIsDone(c, ns) => DoneNamespaces(env.samePrefix, s, c, ns);
    case PublishIsDone(c, t, detached) => PublishDoneNamespaces(env.samePrefix, env, s, c, t, detached);
    case SubscribeNamespace(c, ns) => NamespaceSubscribedNamespaces(env, s, c, ns);
    case UnsubscribeNamespace(c, ns) => NamespaceUnsubscribedNamespaces(env, s, c, ns);
    case Close(c, nss) => ClosedNamespaces(env, s, c, nss);
  }

  lemma {:induction false} AlwaysNamespacesOk(envs: seq<Env>, es: seq<Event>, env: Env)
    requires |envs| == |es| && SameMatchers(envs, env) && PrefixMatches(env)
    ensures NamespacesOk(env.samePrefix, After(envs, EMPTY_TABLES, es))
  {
    if es != [] {
      AlwaysNamespacesOk(envs[..|es| - 1], es[..|es| - 1], env);
      EventNamespaces(envs[|es| - 1], After(envs[..|es| - 1], EMPTY_TABLES, es[..|es| - 1]), es[|es| - 1]);
    }
  }

  /** Whatever happened before, a connection that closes is forgotten in every table. */
  lemma CloseForgets(envs: seq<Env>, es: seq<Event>, env: Env, c: Conn, nss: seq<Namespace>)
    requires |envs| == |es| && Run(envs, EMPTY_TABLES, es)
    requires SameMatchers(envs, env) && PrefixMatches(env)
    requires Allowed(After(envs, EMPTY_TABLES, es), Close(c, nss))
    ensures Forgotten(Happen(env, After(envs, EMPTY_TABLES, es), Close(c, nss)), c)
  {
    AlwaysAgree(envs, es);
    AlwaysNamespacesOk(envs, es, env);
    ClosedIsForgotten(env, After(envs, EMPTY_TABLES, es), c, nss);
  }

  /** Matchers that disagree decide it: a namespace subscriber taken on as a prefix, when its
      connection closes, is left behind if and only if its namespace does not match as `samePrefix`. */
  lemma LeftBehindIff(env: Env, p: Conn, t: Track, c: Conn, ns: Namespace)
    requires p != c && c != 0 && env.prefixOf(ns, t.ns)
    ensures var s := NamespaceSubscribed(env, Published(env, EMPTY_TABLES, p, t), c, ns);
            Forgotten(Closed(env, s, c, [ns]), c) <==> env.samePrefix(ns, t.ns)
  {
    var s := NamespaceSubscribed(env, Published(env, EMPTY_TABLES, p, t), c, ns);
    OneNamespace(env, p, t, c, ns);
    if env.samePrefix(ns, t.ns) {
      ClosedIsForgotten(env, s, c, [ns]);
    } else {
      var s1 := NamespaceUnsubscribed(env, s, c, ns);
      assert [ns][..0] == [] && UnnamedEach(env, s, c, [ns]) == s1;
      assert Requests(s1, c) == {} && Sorted({}) == [];
      assert (t, p) in s1.pubs && (ns, c) in s1.pubs[(t, p)].namespaces;
      assert (ns, c) in Closed(env, s, c, [ns]).pubs[(t, p)].namespaces;
    }
  }

  lemma OneNamespace(env: Env, p: Conn, t: Track, c: Conn, ns: Namespace)
    requires p != c && env.prefixOf(ns, t.ns)
    ensures var s := NamespaceSubscribed(env, Published(env, EMPTY_TABLES, p, t), c, ns);
            && TablesInv(s) && s.pubs.Keys == {(t, p)} && s.pubs[(t, p)].namespaces == {(ns, c)} && s.pubs[(t, p)].initiated
            && s.subNs == map[ns := {c}] && s.aliasOf == map[]
  {
    var s0 := Published(env, EMPTY_TABLES, p, t);
    assert NamespacesFor(env, EMPTY_TABLES, t) == {};
    PublishKeeps(env, EMPTY_TABLES, p, t);
    NamespaceSubscribeKeeps(env, s0, c, ns);
    assert {} + {c} == {c};
  }

  /** A request id used for a second track leaves the first subscription without a way to end it. */
  lemma ReusedRequestDisagrees(env: Env, c: Conn, r: Req, t: Track, u: Track)
    requires t != u && c != 0
    ensures var s := Subscribed(env, Subscribed(env, EMPTY_TABLES, c, r, t, []), c, r, u, []);
            InSubscribes(s, c, r, t) && !InAliases(s, c, r, t)
  {
  }
}
