/** The client manager's callbacks, with the loops in which they walk and change the tables. */
module ClientManagers {
  import opened Ordered
  import opened AnnounceTable
  import opened ClientTables

  // ---------------------------------------------------------------- walking the handlers of a track

  /** The connections with a handler for the track. */
  function Publishers(pubs: Handlers, t: Track): set<Conn> {
    set k | k in pubs && k.0 == t :: k.1
  }

  lemma PublisherOf(pubs: Handlers, t: Track, p: Conn)
    ensures p in Publishers(pubs, t) <==> (t, p) in pubs
  {
    if (t, p) in pubs {
      assert (t, p).0 == t && (t, p).1 == p;
    }
    if p in Publishers(pubs, t) {
      var k :| k in pubs && k.0 == t && k.1 == p;
      assert k == (t, p);
    }
  }

  /** The handlers of the track at the connections `ps` changed by `f`. */
  function Changed(pubs: Handlers, t: Track, ps: set<Conn>, f: Handler -> Handler): Handlers {
    map k | k in pubs :: if k.0 == t && k.1 in ps then f(pubs[k]) else pubs[k]
  }

  lemma ChangedNone(pubs: Handlers, t: Track, f: Handler -> Handler)
    ensures Changed(pubs, t, {}, f) == pubs
  {
  }

  lemma ChangedOne(pubs: Handlers, t: Track, ps: set<Conn>, p: Conn, f: Handler -> Handler)
    requires p !in ps && (t, p) in pubs
    ensures (t, p) in Changed(pubs, t, ps, f) && Changed(pubs, t, ps, f)[(t, p)] == pubs[(t, p)]
    ensures Changed(pubs, t, ps + {p}, f) == Changed(pubs, t, ps, f)[(t, p) := f(pubs[(t, p)])]
  {
  }

  /** The same, one connection at a time. */
  function Walked(pubs: Handlers, t: Track, ps: seq<Conn>, f: Handler -> Handler): Handlers {
    if ps == [] then pubs
    else
      var before, k := Walked(pubs, t, ps[..|ps| - 1], f), (t, ps[|ps| - 1]);
      if k in before then before[k := f(before[k])] else before
  }

  lemma {:induction false} WalkedSeen(pubs: Handlers, t: Track, i: nat, f: Handler -> Handler)
    requires i <= |Publishers(pubs, t)|
    ensures Walked(pubs, t, Sorted(Publishers(pubs, t))[..i], f) == Changed(pubs, t, Seen(Publishers(pubs, t), i), f)
  {
    var ps := Publishers(pubs, t);
    if i == 0 {
      SeenNone(ps);
      ChangedNone(pubs, t, f);
    } else {
      WalkedSeen(pubs, t, i - 1, f);
      SeeOne(ps, i - 1);
      PublisherOf(pubs, t, Sorted(ps)[i - 1]);
      ChangedOne(pubs, t, Seen(ps, i - 1), Sorted(ps)[i - 1], f);
      assert Sorted(ps)[..i][..i - 1] == Sorted(ps)[..i - 1];
    }
  }

  /** The next handler of a walk is there, and as it was. */
  lemma WalkedNext(pubs: Handlers, t: Track, i: nat, f: Handler -> Handler)
    requires i < |Publishers(pubs, t)|
    ensures var order := Sorted(Publishers(pubs, t));
            var k, now := (t, order[i]), Walked(pubs, t, order[..i], f);
            && k in pubs && k in now && now[k] == pubs[k]
            && Walked(pubs, t, order[..i + 1], f) == now[k := f(now[k])]
  {
    var ps := Publishers(pubs, t);
    WalkedSeen(pubs, t, i, f);
    SeeOne(ps, i);
    PublisherOf(pubs, t, Sorted(ps)[i]);
    ChangedOne(pubs, t, Seen(ps, i), Sorted(ps)[i], f);
    assert Sorted(ps)[..i + 1][..i] == Sorted(ps)[..i];
  }

  lemma WalkedAll(pubs: Handlers, t: Track, f: Handler -> Handler)
    ensures Walked(pubs, t, Sorted(Publishers(pubs, t)), f) == Changed(pubs, t, Publishers(pubs, t), f)
  {
    var ps := Publishers(pubs, t);
    WalkedSeen(pubs, t, |ps|, f);
    assert Sorted(ps)[..|ps|] == Sorted(ps);
  }

  function Join(c: Conn): Handler -> Handler {
    (h: Handler) => WithSubscriber(if h.initiated then h.(paused := false) else h, c)
  }

  function Part(c: Conn): Handler -> Handler {
    (h: Handler) => WithoutSubscriber(h, c)
  }

  function PauseUnused(): Handler -> Handler {
    (h: Handler) => if !HasSubscribers(h) && h.initiated then h.(paused := true) else h
  }

  lemma ChangedAll(pubs: Handlers, t: Track, c: Conn)
    ensures Changed(pubs, t, Publishers(pubs, t), Join(c)) == Joined(pubs, t, c)
    ensures Changed(pubs, t, Publishers(pubs, t), Part(c)) == Parted(pubs, t, c)
  {
    forall k | k in pubs && k.0 == t ensures k.1 in Publishers(pubs, t) {
      PublisherOf(pubs, t, k.1);
    }
  }

  /** The connections whose handler for the track is no longer needed and can be dropped. */
  function Unused(pubs: Handlers, t: Track, ps: set<Conn>): set<Conn> {
    set p | p in ps && (t, p) in pubs && !HasSubscribers(pubs[(t, p)]) && !pubs[(t, p)].initiated
  }

  function Without(pubs: Handlers, t: Track, ps: set<Conn>): Handlers {
    map k | k in pubs && !(k.0 == t && k.1 in ps) :: pubs[k]
  }

  lemma ElementsNext(ps: seq<Conn>, p: Conn)
    ensures Elements(ps + [p]) == Elements(ps) + {p}
  {
  }

  /** The unused ones in the order met. */
  function UnusedAmong(pubs: Handlers, t: Track, ps: seq<Conn>): seq<Conn> {
    if ps == [] then []
    else
      var k := (t, ps[|ps| - 1]);
      UnusedAmong(pubs, t, ps[..|ps| - 1])
      + if k in pubs && !HasSubscribers(pubs[k]) && !pubs[k].initiated then [k.1] else []
  }

  lemma {:induction false} UnusedAmongMembers(pubs: Handlers, t: Track, ps: seq<Conn>, p: Conn)
    ensures p in UnusedAmong(pubs, t, ps) <==>
            p in ps && (t, p) in pubs && !HasSubscribers(pubs[(t, p)]) && !pubs[(t, p)].initiated
  {
    if ps != [] {
      UnusedAmongMembers(pubs, t, ps[..|ps| - 1], p);
      assert ps == ps[..|ps| - 1] + [ps[|ps| - 1]];
    }
  }

  lemma UnusedAll(pubs: Handlers, t: Track)
    ensures Elements(UnusedAmong(pubs, t, Sorted(Publishers(pubs, t)))) == Unused(pubs, t, Publishers(pubs, t))
  {
    forall p ensures p in Elements(UnusedAmong(pubs, t, Sorted(Publishers(pubs, t)))) <==>
                     p in Unused(pubs, t, Publishers(pubs, t)) {
      UnusedAmongMembers(pubs, t, Sorted(Publishers(pubs, t)), p);
      SortedMembers(Publishers(pubs, t), p);
    }
  }

  lemma SettledParts(env: Env, pubs: Handlers, t: Track)
    requires t !in env.wanted
    ensures Without(Changed(pubs, t, Publishers(pubs, t), PauseUnused()), t, Unused(pubs, t, Publishers(pubs, t))) ==
            Settled(env, pubs, t)
  {
    forall k | k in pubs && k.0 == t ensures k.1 in Publishers(pubs, t) && k == (t, k.1) {
      PublisherOf(pubs, t, k.1);
    }
  }

  /** One track of the loop over subscribed tracks. */
  function TrackJoined(env: Env, s: Tables, key: (Namespace, Conn), t: Track): Tables
    requires key in s.announced
  {
    if !Joins(env, s, key, t) then s
    else
      s.(announced := s.announced[key := s.announced[key] + {t}],
         pubs := if (t, FirstConn(s.active[t])) in s.subscribes
                 then s.pubs[(t, key.1) := Handler(false, false, Conns(s.active[t]), {})] else s.pubs)
  }

  lemma OverNone(env: Env, s: Tables, key: (Namespace, Conn))
    requires key in s.announced
    ensures SubscribedOver(env, s, key, {}) == s
  {
    assert JoinsAmong(env, s, key, {}) == {} && MadeFor(env, s, key, {}) == map[];
    assert s.announced[key] + {} == s.announced[key];
    assert s.announced[key := s.announced[key]] == s.announced;
    assert s.pubs + map[] == s.pubs;
  }

  lemma UnionUpdate(a: Handlers, b: Handlers, k: (Track, Conn), h: Handler)
    ensures a + b[k := h] == (a + b)[k := h]
  {
  }

  lemma OverPubs(env: Env, s: Tables, key: (Namespace, Conn), ts: set<Track>, t: Track)
    requires key in s.announced && t !in ts && t in s.active
    ensures var now := SubscribedOver(env, s, key, ts);
            SubscribedOver(env, s, key, ts + {t}).pubs ==
            if Joins(env, s, key, t) && (t, FirstConn(s.active[t])) in s.subscribes
            then now.pubs[(t, key.1) := Handler(false, false, Conns(s.active[t]), {})] else now.pubs
  {
    MadeNext(env, s, key, ts, t);
    UnionUpdate(s.pubs, MadeFor(env, s, key, ts), (t, key.1), Handler(false, false, Conns(s.active[t]), {}));
  }

  lemma OverAnnounced(env: Env, s: Tables, key: (Namespace, Conn), ts: set<Track>, t: Track)
    requires key in s.announced && t !in ts && t in s.active
    ensures var now := SubscribedOver(env, s, key, ts);
            && key in now.announced && (Joins(env, now, key, t) <==> Joins(env, s, key, t))
            && SubscribedOver(env, s, key, ts + {t}).announced ==
               if Joins(env, s, key, t) then now.announced[key := now.announced[key] + {t}] else now.announced
  {
    var was, now := JoinsAmong(env, s, key, ts), JoinsAmong(env, s, key, ts + {t});
    if Joins(env, s, key, t) {
      assert now == was + {t};
      assert s.announced[key] + now == s.announced[key] + was + {t};
    } else {
      assert now == was;
    }
  }

  lemma OverNext(env: Env, s: Tables, key: (Namespace, Conn), ts: set<Track>, t: Track)
    requires key in s.announced && t !in ts && t in s.active
    ensures SubscribedOver(env, s, key, ts + {t}) == TrackJoined(env, SubscribedOver(env, s, key, ts), key, t)
  {
    OverPubs(env, s, key, ts, t);
    OverAnnounced(env, s, key, ts, t);
  }

  lemma MadeNext(env: Env, s: Tables, key: (Namespace, Conn), ts: set<Track>, t: Track)
    requires t !in ts
    ensures MadeFor(env, s, key, ts + {t}) ==
            if Joins(env, s, key, t) && (t, FirstConn(s.active[t])) in s.subscribes
            then MadeFor(env, s, key, ts)[(t, key.1) := Handler(false, false, Conns(s.active[t]), {})]
            else MadeFor(env, s, key, ts)
  {
  }

  lemma OffersAre(env: Env, s: Tables, c: Conn, t: Track, all: set<(Namespace, Conn)>)
    requires all == set ns, d | ns in s.subNs && env.prefixOf(ns, t.ns) && d in s.subNs[ns] :: (ns, d)
    ensures Offers(env, s, c, t) == set p | p in all && (env.allowSelf || p.1 != c)
  {
  }

  lemma JoinedNext(env: Env, pubs: Handlers, c: Conn, ns: Namespace, ks: set<(Track, Conn)>, k: (Track, Conn))
    requires k in pubs && k !in ks
    ensures var now := NamespaceJoined(env, pubs, c, ns, ks);
            && k in now && now[k] == pubs[k]
            && NamespaceJoined(env, pubs, c, ns, ks + {k}) ==
               if NotOwn(env, c, k) && env.prefixOf(ns, k.0.ns) then now[k := WithNamespace(pubs[k], ns, c)] else now
    ensures OfferedTo(env, c, ns, ks + {k}) ==
            OfferedTo(env, c, ns, ks) + if NotOwn(env, c, k) && env.prefixOf(ns, k.0.ns) then {k} else {}
  {
  }

  lemma LeftByNone(env: Env, pubs: Handlers, c: Conn, ns: Namespace)
    ensures NamespaceLeftBy(env, pubs, c, ns, {}) == pubs
  {
    assert TracksHit(env, pubs, c, ns, {}) == {};
    assert NamespaceParted(env, pubs, c, ns, {}) == pubs;
  }

  /** The handlers once `k` too has lost the namespace. */
  function LostAt(pubs: Handlers, c: Conn, ns: Namespace, k: (Track, Conn)): Handlers {
    if k in pubs then pubs[k := WithoutNamespace(pubs[k], ns, c)] else pubs
  }

  lemma PartedNext(env: Env, pubs: Handlers, c: Conn, ns: Namespace, ks: set<(Track, Conn)>, k: (Track, Conn))
    requires k in pubs && k !in ks
    ensures var now, next := NamespaceParted(env, pubs, c, ns, ks), NamespaceParted(env, pubs, c, ns, ks + {k});
            now[k] == pubs[k] && next == if Matches(env, ns, c, k) then LostAt(now, c, ns, k) else now
    ensures TracksHit(env, pubs, c, ns, ks + {k}) ==
            TracksHit(env, pubs, c, ns, ks) + if Matches(env, ns, c, k) then {k.0} else {}
  {
  }

  lemma SettledHandler(env: Env, pubs: Handlers, ts: set<Track>, x: (Track, Conn))
    ensures x in SettledAll(env, pubs, ts) <==>
            x in pubs && (x.0 in ts - env.wanted && !HasSubscribers(pubs[x]) ==> pubs[x].initiated)
    ensures x in SettledAll(env, pubs, ts) ==>
              SettledAll(env, pubs, ts)[x] ==
              if x.0 in ts - env.wanted && !HasSubscribers(pubs[x]) then pubs[x].(paused := true) else pubs[x]
  {
  }

  lemma SettledIsAll(env: Env, pubs: Handlers, t: Track)
    ensures Settled(env, pubs, t) == SettledAll(env, pubs, {t})
  {
  }

  lemma SettledNextAt(env: Env, pubs: Handlers, c: Conn, ns: Namespace, ts: set<Track>, k: (Track, Conn), x: (Track, Conn))
    requires k in pubs
    ensures var a := SettledAll(env, LostAt(SettledAll(env, pubs, ts), c, ns, k), {k.0});
            var b := SettledAll(env, LostAt(pubs, c, ns, k), ts + {k.0});
            (x in a <==> x in b) && (x in a ==> a[x] == b[x])
  {
    var s := SettledAll(env, pubs, ts);
    SettledHandler(env, pubs, ts, x);
    SettledHandler(env, LostAt(s, c, ns, k), {k.0}, x);
    SettledHandler(env, LostAt(pubs, c, ns, k), ts + {k.0}, x);
  }

  /** Settling one more track after its handler `k` has lost the namespace. */
  lemma SettledNext(env: Env, pubs: Handlers, c: Conn, ns: Namespace, ts: set<Track>, k: (Track, Conn))
    requires k in pubs
    ensures Settled(env, LostAt(SettledAll(env, pubs, ts), c, ns, k), k.0) ==
            SettledAll(env, LostAt(pubs, c, ns, k), ts + {k.0})
  {
    SettledIsAll(env, LostAt(SettledAll(env, pubs, ts), c, ns, k), k.0);
    var a := SettledAll(env, LostAt(SettledAll(env, pubs, ts), c, ns, k), {k.0});
    var b := SettledAll(env, LostAt(pubs, c, ns, k), ts + {k.0});
    forall x ensures (x in a <==> x in b) && (x in a ==> a[x] == b[x]) {
      SettledNextAt(env, pubs, c, ns, ts, k, x);
    }
    SameHandlers(a, b);
  }

  lemma SameHandlers(a: Handlers, b: Handlers)
    requires forall x :: (x in a <==> x in b) && (x in a ==> a[x] == b[x])
    ensures a == b
  {
  }

  lemma LeftByNext(env: Env, pubs: Handlers, c: Conn, ns: Namespace, ks: set<(Track, Conn)>, k: (Track, Conn))
    requires k in pubs && k !in ks
    ensures var now := NamespaceLeftBy(env, pubs, c, ns, ks);
            NamespaceLeftBy(env, pubs, c, ns, ks + {k}) ==
            if Matches(env, ns, c, k) then Settled(env, LostAt(now, c, ns, k), k.0) else now
  {
    PartedNext(env, pubs, c, ns, ks, k);
    SettledNext(env, NamespaceParted(env, pubs, c, ns, ks), c, ns, TracksHit(env, pubs, c, ns, ks), k);
  }

  // ---------------------------------------------------------------- the handler object

  ghost function PairsOf(byNamespace: map<Namespace, set<Conn>>): set<(Namespace, Conn)> {
    set ns, c | ns in byNamespace && c in byNamespace[ns] :: (ns, c)
  }

  lemma SomePair(byNamespace: map<Namespace, set<Conn>>)
    requires byNamespace != map[] && forall ns | ns in byNamespace :: byNamespace[ns] != {}
    ensures PairsOf(byNamespace) != {}
  {
    assert byNamespace.Keys != {};
    var ns := Element(byNamespace.Keys);
    var c := Element(byNamespace[ns]);
    assert (ns, c) in PairsOf(byNamespace);
  }

  lemma PairLess(byNamespace: map<Namespace, set<Conn>>, ns: Namespace, c: Conn)
    requires ns in byNamespace
    ensures var left := byNamespace[ns] - {c};
            PairsOf(if left == {} then byNamespace - {ns} else byNamespace[ns := left]) == PairsOf(byNamespace) - {(ns, c)}
  {
    var left := byNamespace[ns] - {c};
    var now := if left == {} then byNamespace - {ns} else byNamespace[ns := left];
    forall m, d ensures (m, d) in PairsOf(now) <==> (m, d) in PairsOf(byNamespace) && (m, d) != (ns, c) {
      if m == ns && d != c {
        assert d in left <==> d in byNamespace[ns];
      }
    }
  }

  /** A handler towards a publisher, with its fan-out sets as the source keeps them. */
  class SubscribeTrackHandler {
    const initiated: bool
    var paused: bool
    var subscribers: set<Conn>
    var byNamespace: map<Namespace, set<Conn>>

    constructor (initiated: bool)
      ensures Valid() && View() == Handler(initiated, false, {}, {})
    {
      this.initiated := initiated;
      paused, subscribers, byNamespace := false, {}, map[];
    }

    /** No namespace is kept without a connection. */
    ghost predicate Valid()
      reads this
    {
      forall ns | ns in byNamespace :: byNamespace[ns] != {}
    }

    ghost function Pairs(): set<(Namespace, Conn)>
      reads this
    {
      PairsOf(byNamespace)
    }

    ghost function View(): Handler
      reads this
    {
      Handler(initiated, paused, subscribers, Pairs())
    }

    method HasAny() returns (any: bool)
      requires Valid()
      ensures any <==> HasSubscribers(View())
    {
      any := subscribers != {} || byNamespace != map[];
      if byNamespace != map[] {
        SomePair(byNamespace);
      }
    }

    method AddSubscriber(c: Conn)
      requires Valid()
      modifies this`subscribers, this`paused
      ensures Valid() && View() == WithSubscriber(old(View()), c)
    {
      if c in subscribers {
        return;
      }
      subscribers := subscribers + {c};
      paused := false;
    }

    method RemoveSubscriber(c: Conn)
      requires Valid()
      modifies this`subscribers, this`paused
      ensures Valid() && View() == WithoutSubscriber(old(View()), c)
    {
      if c in subscribers {
        subscribers := subscribers - {c};
      } else {
        assert subscribers - {c} == subscribers;
      }
      var any := HasAny();
      if !any {
        paused := true;
      }
    }

    method AddSubscribeNamespace(ns: Namespace, c: Conn)
      requires Valid()
      modifies this`byNamespace, this`paused
      ensures Valid() && View() == WithNamespace(old(View()), ns, c)
    {
      var held := if ns in byNamespace then byNamespace[ns] else {};
      assert (ns, c) in Pairs() <==> c in held;
      if c in held {
        return;
      }
      byNamespace := byNamespace[ns := held + {c}];
      assert Pairs() == old(Pairs()) + {(ns, c)};
      paused := false;
    }

    method RemoveSubscribeNamespace(ns: Namespace, c: Conn)
      requires Valid()
      modifies this`byNamespace
      ensures Valid() && View() == WithoutNamespace(old(View()), ns, c)
    {
      if ns in byNamespace {
        PairLess(byNamespace, ns, c);
        var left := byNamespace[ns] - {c};
        byNamespace := if left == {} then byNamespace - {ns} else byNamespace[ns := left];
      } else {
        assert Pairs() - {(ns, c)} == Pairs();
      }
    }
  }

  // ---------------------------------------------------------------- the client manager object

  class ClientManager {
    var subscribes: map<(Track, Conn), Req>
    var aliasOf: map<(Conn, Req), Track>
    var active: map<Track, set<(Conn, Req)>>
    var pubs: Handlers
    var announced: map<(Namespace, Conn), set<Track>>
    var subNs: map<Namespace, set<Conn>>

    function View(): Tables
      reads this
    {
      Tables(subscribes, aliasOf, active, pubs, announced, subNs)
    }

    method Record(c: Conn, r: Req, t: Track)
      modifies this`subscribes, this`aliasOf, this`active
      ensures View() == Recorded(old(View()), c, r, t)
    {
      active := active[t := (if t in active then active[t] else {}) + {(c, r)}];
      aliasOf := aliasOf[(c, r) := t];
      if (t, c) !in subscribes {
        subscribes := subscribes[(t, c) := r];
      }
    }

    method JoinHandler(t: Track, p: Conn, c: Conn)
      requires (t, p) in pubs
      modifies this`pubs
      ensures pubs == old(pubs)[(t, p) := Join(c)(old(pubs)[(t, p)])]
    {
      var h := pubs[(t, p)];
      if h.initiated {
        h := h.(paused := false);
      }
      pubs := pubs[(t, p) := WithSubscriber(h, c)];
    }

    /** Adds the subscriber to every handler of the track. */
    method JoinHandlers(t: Track, c: Conn)
      modifies this`pubs
      ensures pubs == Joined(old(pubs), t, c)
    {
      ghost var was := pubs;
      var order := Sorted(Publishers(pubs, t));
      for i := 0 to |order|
        invariant pubs == Walked(was, t, order[..i], Join(c))
      {
        WalkedNext(was, t, i, Join(c));
        JoinHandler(t, order[i], c);
      }
      assert order[..|order|] == order;
      WalkedAll(was, t, Join(c));
      ChangedAll(was, t, c);
    }

    /** Subscribes to announcers of matching namespaces, in the order of their map. */
    method JoinMatching(env: Env, t: Track, c: Conn, order: seq<(Namespace, Conn)>)
      modifies this`pubs, this`announced
      ensures View() == JoinAnnouncers(env, old(View()), t, c, order)
    {
      for i := 0 to |order|
        invariant View() == JoinAnnouncers(env, old(View()), t, c, order[..i])
      {
        assert order[..i + 1][..i] == order[..i];
        var k := order[i];
        if k !in announced || !env.samePrefix(k.0, t.ns) || k.1 == 0 {
          continue;
        }
        if (t, k.1) !in pubs {
          announced := announced[k := announced[k] + {t}];
          pubs := pubs[(t, k.1) := WithSubscriber(NEW_HANDLER, c)];
        }
      }
      assert order[..|order|] == order;
    }

    /** Every handler of the track, and one at every matching announcer, serves the subscriber. */
    method ProcessSubscribe(env: Env, c: Conn, r: Req, t: Track, order: seq<(Namespace, Conn)>)
      requires Lists(order, announced)
      modifies this
      ensures View() == Processed(env, old(View()), c, r, t, order)
      ensures AnnouncersServe(env, View(), t, c)
    {
      AllAnnouncersServe(env, View(), c, r, t, order);
      if !(c == 0 && r == 0) {
        Record(c, r, t);
      }
      JoinHandlers(t, c);
      JoinMatching(env, t, c, order);
    }

    /** Returns false for a duplicate subscribe. */
    method SubscribeReceived(env: Env, c: Conn, r: Req, t: Track, order: seq<(Namespace, Conn)>) returns (ok: bool)
      requires Lists(order, announced)
      modifies this
      ensures View() == Subscribed(env, old(View()), c, r, t, order)
      ensures ok <==> (t, c) !in old(subscribes)
      ensures ok ==> AnnouncersServe(env, View(), t, c)
    {
      ok := (t, c) !in subscribes;
      if ok {
        ProcessSubscribe(env, c, r, t, order);
      }
    }

    method PartHandlers(t: Track, c: Conn)
      modifies this`pubs
      ensures pubs == Parted(old(pubs), t, c)
    {
      ghost var was := pubs;
      var order := Sorted(Publishers(pubs, t));
      for i := 0 to |order|
        invariant pubs == Walked(was, t, order[..i], Part(c))
      {
        WalkedNext(was, t, i, Part(c));
        pubs := pubs[(t, order[i]) := WithoutSubscriber(pubs[(t, order[i])], c)];
      }
      assert order[..|order|] == order;
      WalkedAll(was, t, Part(c));
      ChangedAll(was, t, c);
    }

    /** Pauses an unused handler that a publisher started; one that the relay started is to be dropped. */
    method PauseHandler(t: Track, p: Conn) returns (drop: bool)
      requires (t, p) in pubs
      modifies this`pubs
      ensures pubs == old(pubs)[(t, p) := PauseUnused()(old(pubs)[(t, p)])]
      ensures drop <==> !HasSubscribers(old(pubs)[(t, p)]) && !old(pubs)[(t, p)].initiated
    {
      drop := false;
      if HasSubscribers(pubs[(t, p)]) {
        assert pubs[(t, p) := pubs[(t, p)]] == pubs;
        return;
      }
      if pubs[(t, p)].initiated {
        pubs := pubs[(t, p) := pubs[(t, p)].(paused := true)];
      } else {
        assert pubs[(t, p) := pubs[(t, p)]] == pubs;
        drop := true;
      }
    }

    /** Pauses the unused handlers that publishers started and lists those the relay started. */
    method PauseHandlers(t: Track) returns (drop: seq<Conn>)
      modifies this`pubs
      ensures pubs == Changed(old(pubs), t, Publishers(old(pubs), t), PauseUnused())
      ensures Elements(drop) == Unused(old(pubs), t, Publishers(old(pubs), t))
    {
      ghost var was := pubs;
      var order := Sorted(Publishers(pubs, t));
      drop := [];
      for i := 0 to |order|
        invariant pubs == Walked(was, t, order[..i], PauseUnused())
        invariant drop == UnusedAmong(was, t, order[..i])
      {
        WalkedNext(was, t, i, PauseUnused());
        assert order[..i + 1][..i] == order[..i];
        var last := PauseHandler(t, order[i]);
        if last {
          drop := drop + [order[i]];
        }
      }
      assert order[..|order|] == order;
      WalkedAll(was, t, PauseUnused());
      UnusedAll(was, t);
    }

    method DropHandlers(t: Track, drop: seq<Conn>)
      modifies this`pubs
      ensures pubs == Without(old(pubs), t, Elements(drop))
    {
      for i := 0 to |drop|
        invariant pubs == Without(old(pubs), t, Elements(drop[..i]))
      {
        ElementsNext(drop[..i], drop[i]);
        assert drop[..i + 1] == drop[..i] + [drop[i]];
        pubs := pubs - {(t, drop[i])};
      }
      assert drop[..|drop|] == drop;
    }

    method RemoveOrPausePublisherSubscribe(env: Env, t: Track)
      modifies this`pubs
      ensures pubs == Settled(env, old(pubs), t)
    {
      if t in env.wanted {
        return;
      }
      SettledParts(env, pubs, t);
      var drop := PauseHandlers(t);
      DropHandlers(t, drop);
    }

    method UnsubscribeReceived(env: Env, c: Conn, r: Req)
      modifies this
      ensures View() == Unsubscribed(env, old(View()), c, r)
    {
      if (c, r) !in aliasOf {
        return;
      }
      var t := aliasOf[(c, r)];
      if (t, c) !in subscribes {
        return;
      }
      aliasOf := aliasOf - {(c, r)};
      PartHandlers(t, c);
      Deactivate(c, r, t);
      subscribes := subscribes - {(t, c)};
      RemoveOrPausePublisherSubscribe(env, t);
    }

    method Deactivate(c: Conn, r: Req, t: Track)
      modifies this`active
      ensures active == var left := (if t in old(active) then old(active)[t] else {}) - {(c, r)};
                        if left == {} then old(active) - {t} else old(active)[t := left]
    {
      active := active[t := (if t in active then active[t] else {}) - {(c, r)}];
      if active[t] == {} {
        active := active - {t};
        assert active == old(active) - {t};
      }
    }

    /** A new handler for a publisher with every subscriber of the track, and whether there are any. */
    method FanOut(t: Track) returns (h: Handler, some: bool)
      ensures h == Handler(true, false, SubscribersOf(View(), t), {})
      ensures some <==> SubscribersOf(View(), t) != {}
    {
      var subs := SubscribersOf(View(), t);
      var order := Sorted(subs);
      h, some := Handler(true, false, {}, {}), false;
      SeenNone(subs);
      for i := 0 to |order|
        invariant h == Handler(true, false, Seen(subs, i), {})
        invariant some <==> i > 0
      {
        SeeOne(subs, i);
        some := true;
        h := WithSubscriber(h, order[i]);
      }
    }

    method FanOutNamespaces(h: Handler, nss: set<(Namespace, Conn)>) returns (h': Handler)
      requires h.namespaces == {} && !h.paused
      ensures h' == h.(namespaces := nss)
    {
      h' := h;
      var rest := nss;
      assert nss - rest == {};
      while rest != {}
        invariant rest <= nss
        invariant h' == h.(namespaces := nss - rest)
      {
        var p :| p in rest;
        assert p == (p.0, p.1);
        assert nss - (rest - {p}) == nss - rest + {p};
        rest := rest - {p};
        h' := WithNamespace(h', p.0, p.1);
      }
      assert nss - rest == nss;
    }

    /** Offers the track to the namespace subscribers it falls under. */
    method OfferTrack(env: Env, c: Conn, t: Track) returns (offered: set<(Namespace, Conn)>)
      ensures offered == Offers(env, View(), c, t)
    {
      offered := {};
      var all := set ns, d | ns in subNs && env.prefixOf(ns, t.ns) && d in subNs[ns] :: (ns, d);
      var rest := all;
      while rest != {}
        invariant rest <= all
        invariant offered == set p | p in all - rest && (env.allowSelf || p.1 != c)
      {
        var p :| p in rest;
        assert all - (rest - {p}) == all - rest + {p};
        rest := rest - {p};
        if !env.allowSelf && p.1 == c {
          continue;
        }
        offered := offered + {p};
      }
      OffersAre(env, View(), c, t, all);
    }

    /** A publish: it is offered to namespace subscribers, and the new handler takes every subscriber
        and every matching namespace. */
    method PublishReceived(env: Env, c: Conn, t: Track) returns (offered: set<(Namespace, Conn)>)
      modifies this`pubs
      ensures View() == Published(env, old(View()), c, t)
      ensures offered == Offers(env, old(View()), c, t)
    {
      offered := OfferTrack(env, c, t);
      var h, some := FanOut(t);
      var nss := NamespacesFor(env, View(), t);
      h := FanOutNamespaces(h, nss);
      if !(t in env.wanted || some || nss != {}) {
        h := h.(paused := true);
      }
      pubs := pubs[(t, c) := h];
    }

    /** Subscribes to an announcer for each matching track that has subscribers and is not yet listed
        for the namespace; the order in which tracks are visited is free. */
    method SubscribeToPublisher(env: Env, key: (Namespace, Conn))
      requires key in announced
      modifies this`pubs, this`announced
      ensures View() == SubscribedTo(env, old(View()), key)
    {
      ghost var s0 := View();
      var rest := active.Keys;
      OverNone(env, s0, key);
      assert active.Keys - rest == {};
      while rest != {}
        invariant rest <= active.Keys && key in announced
        invariant View() == SubscribedOver(env, s0, key, active.Keys - rest)
      {
        var t :| t in rest;
        OverNext(env, s0, key, active.Keys - rest, t);
        assert active.Keys - (rest - {t}) == active.Keys - rest + {t};
        rest := rest - {t};
        JoinTrack(env, key, t);
      }
      assert active.Keys - {} == active.Keys;
    }

    method JoinTrack(env: Env, key: (Namespace, Conn), t: Track)
      requires key in announced && t in active
      modifies this`pubs, this`announced
      ensures View() == TrackJoined(env, old(View()), key, t)
    {
      if !env.samePrefix(t.ns, key.0) || active[t] == {} || t in announced[key] {
        return;
      }
      announced := announced[key := announced[key] + {t}];
      if (t, FirstConn(active[t])) !in subscribes {
        return;
      }
      pubs := pubs[(t, key.1) := Handler(false, false, Conns(active[t]), {})];
    }

    method PublishNamespaceReceived(env: Env, c: Conn, ns: Namespace)
      modifies this`pubs, this`announced
      ensures View() == NamespacePublished(env, old(View()), c, ns)
    {
      if (ns, c) !in announced {
        announced := announced[(ns, c) := {}];
      }
      if c != 0 {
        SubscribeToPublisher(env, (ns, c));
      }
    }

    /** Drops the handlers that a connection has for the tracks; the order of visits is free. */
    method DropMade(c: Conn, ts: set<Track>)
      modifies this`pubs
      ensures pubs == old(pubs) - HandlersOf(ts, c)
    {
      ghost var was, done := pubs, {};
      var rest := ts;
      assert was - HandlersOf({}, c) == was;
      while rest != {}
        invariant done + rest == ts && done !! rest
        invariant pubs == was - HandlersOf(done, c)
        decreases rest
      {
        var t :| t in rest;
        rest := rest - {t};
        pubs := pubs - {(t, c)};
        assert HandlersOf(done + {t}, c) == HandlersOf(done, c) + {(t, c)};
        done := done + {t};
      }
      assert done == ts;
    }

    /** For a request that named the namespace. */
    method PublishNamespaceDoneReceived(c: Conn, ns: Namespace)
      modifies this`pubs, this`announced
      ensures View() == NamespaceDone(old(View()), c, ns)
    {
      if (ns, c) !in announced {
        announced := announced[(ns, c) := {}];
      }
      DropMade(c, announced[(ns, c)]);
      announced := announced - {(ns, c)};
    }

    method UnsubscribeSubscribers(env: Env, t: Track)
      modifies this
      ensures var subs := SubscriptionsOf(old(View()), t, Sorted(SubscribersOf(old(View()), t)));
              View() == UnsubscribedAll(env, old(View()), subs)
    {
      ghost var s0 := View();
      var subs := SubscriptionsOf(View(), t, Sorted(SubscribersOf(View(), t)));
      for i := 0 to |subs|
        invariant View() == UnsubscribedAll(env, s0, subs[..i])
      {
        assert subs[..i + 1][..i] == subs[..i];
        UnsubscribeReceived(env, subs[i].0, subs[i].1);
      }
      assert subs[..|subs|] == subs;
    }

    /** For a request by which the connection published the track. */
    method PublishDoneReceived(env: Env, c: Conn, t: Track, detached: bool)
      modifies this
      ensures View() == PublishDone(env, old(View()), c, t, detached)
    {
      pubs := pubs - {(t, c)};
      if HasPublisher(pubs, t) || detached {
        return;
      }
      UnsubscribeSubscribers(env, t);
    }

    /** Peers no longer want the track. */
    method PeerUnsubscribeTrack(t: Track)
      modifies this`pubs
      ensures pubs == Parted(old(pubs), t, 0)
    {
      PartHandlers(t, 0);
    }

    method DropHandlersOf(c: Conn)
      modifies this`pubs
      ensures pubs == map k | k in old(pubs) && k.1 != c :: old(pubs)[k]
    {
      var rest := set k | k in pubs && k.1 == c;
      ghost var all := rest;
      assert all - rest == {};
      while rest != {}
        invariant rest <= all
        invariant pubs == map k | k in old(pubs) && k !in all - rest :: old(pubs)[k]
      {
        var k :| k in rest;
        assert all - (rest - {k}) == all - rest + {k};
        rest := rest - {k};
        pubs := pubs - {k};
      }
      assert forall k | k in old(pubs) :: k in all - rest <==> k.1 == c;
    }

    method DropAnnouncesOf(c: Conn)
      modifies this`announced
      ensures announced == map k | k in old(announced) && k.1 != c :: old(announced)[k]
    {
      var rest := set k | k in announced && k.1 == c;
      ghost var all := rest;
      assert all - rest == {};
      while rest != {}
        invariant rest <= all
        invariant announced == map k | k in old(announced) && k !in all - rest :: old(announced)[k]
      {
        var k :| k in rest;
        assert all - (rest - {k}) == all - rest + {k};
        rest := rest - {k};
        announced := announced - {k};
      }
      assert forall k | k in old(announced) :: k in all - rest <==> k.1 == c;
    }

    method PurgePublishState(c: Conn)
      modifies this`pubs, this`announced
      ensures View() == Purged(old(View()), c)
    {
      DropHandlersOf(c);
      DropAnnouncesOf(c);
    }

    /** Adds the namespace to every handler of a track under it; the order of visits is free. */
    method JoinNamespace(env: Env, c: Conn, ns: Namespace) returns (offered: set<(Track, Conn)>)
      modifies this`pubs
      ensures pubs == NamespaceJoined(env, old(pubs), c, ns, old(pubs).Keys)
      ensures offered == OfferedTo(env, c, ns, old(pubs).Keys)
    {
      offered := {};
      ghost var was, done := pubs, {};
      var rest := pubs.Keys;
      assert NamespaceJoined(env, was, c, ns, {}) == was;
      while rest != {}
        invariant done + rest == was.Keys && done !! rest
        invariant pubs == NamespaceJoined(env, was, c, ns, done) && offered == OfferedTo(env, c, ns, done)
        decreases rest
      {
        var k :| k in rest;
        JoinedNext(env, was, c, ns, done, k);
        rest, done := rest - {k}, done + {k};
        if !env.allowSelf && k.1 == c {
          continue;
        }
        if env.prefixOf(ns, k.0.ns) {
          pubs := pubs[k := WithNamespace(pubs[k], ns, c)];
          offered := offered + {k};
        }
      }
      assert done == was.Keys;
    }

    method SubscribeNamespaceReceived(env: Env, c: Conn, ns: Namespace) returns (offered: set<(Track, Conn)>)
      modifies this`pubs, this`subNs
      ensures View() == NamespaceSubscribed(env, old(View()), c, ns)
      ensures offered == OfferedTo(env, c, ns, old(pubs).Keys)
    {
      subNs := subNs[ns := (if ns in subNs then subNs[ns] else {}) + {c}];
      offered := JoinNamespace(env, c, ns);
    }

    /** Over a snapshot of the handlers: each match loses the namespace, and the handlers of its track
        are then paused or dropped if nothing is left of theirs. */
    method PartNamespace(env: Env, c: Conn, ns: Namespace)
      modifies this`pubs
      ensures pubs == NamespaceLeft(env, old(pubs), c, ns)
    {
      ghost var was, done := pubs, {};
      var rest := pubs.Keys;
      LeftByNone(env, was, c, ns);
      while rest != {}
        invariant done + rest == was.Keys && done !! rest
        invariant pubs == NamespaceLeftBy(env, was, c, ns, done)
        decreases rest
      {
        var k :| k in rest;
        LeftByNext(env, was, c, ns, done, k);
        rest, done := rest - {k}, done + {k};
        PartHandler(env, c, ns, k);
      }
      assert done == was.Keys;
    }

    method PartHandler(env: Env, c: Conn, ns: Namespace, k: (Track, Conn))
      modifies this`pubs
      ensures pubs == if Matches(env, ns, c, k) then Settled(env, LostAt(old(pubs), c, ns, k), k.0) else old(pubs)
    {
      if !env.allowSelf && k.1 == c {
        return;
      }
      if env.samePrefix(ns, k.0.ns) {
        if k in pubs {
          pubs := pubs[k := WithoutNamespace(pubs[k], ns, c)];
        }
        RemoveOrPausePublisherSubscribe(env, k.0);
      }
    }

    method UnsubscribeNamespaceReceived(env: Env, c: Conn, ns: Namespace)
      modifies this`pubs, this`subNs
      ensures View() == NamespaceUnsubscribed(env, old(View()), c, ns)
    {
      if ns !in subNs {
        return;
      }
      if c !in subNs[ns] {
        if subNs[ns] == {} {
          subNs := subNs - {ns};
        }
        return;
      }
      PartNamespace(env, c, ns);
      Unregister(c, ns);
    }

    method Unregister(c: Conn, ns: Namespace)
      requires ns in subNs
      modifies this`subNs
      ensures subNs == var left := old(subNs)[ns] - {c};
                       if left == {} then old(subNs) - {ns} else old(subNs)[ns := left]
    {
      subNs := subNs[ns := subNs[ns] - {c}];
      if subNs[ns] == {} {
        subNs := subNs - {ns};
        assert subNs == old(subNs) - {ns};
      }
    }

    /** A connection that closes: its namespaces, its subscribes, and what it published. */
    method ConnectionStatusChanged(env: Env, c: Conn, nss: seq<Namespace>)
      requires TablesInv(View()) && NamespacesOk(env.samePrefix, View()) && c != 0
      requires forall ns | ns in subNs && c in subNs[ns] :: ns in nss
      modifies this
      ensures View() == Closed(env, old(View()), c, nss)
      ensures TablesInv(View()) && Forgotten(View(), c)
    {
      ClosedIsForgotten(env, View(), c, nss);
      ghost var s0 := View();
      for i := 0 to |nss|
        invariant View() == UnnamedEach(env, s0, c, nss[..i])
      {
        assert nss[..i + 1][..i] == nss[..i];
        UnsubscribeNamespaceReceived(env, c, nss[i]);
      }
      assert nss[..|nss|] == nss;
      UnsubscribeEach(env, c);
      PurgePublishState(c);
    }

    method UnsubscribeEach(env: Env, c: Conn)
      modifies this
      ensures View() == UnsubscribedEach(env, old(View()), c, Sorted(Requests(old(View()), c)))
    {
      ghost var s0 := View();
      var order := Sorted(Requests(View(), c));
      for i := 0 to |order|
        invariant View() == UnsubscribedEach(env, s0, c, order[..i])
      {
        assert order[..i + 1][..i] == order[..i];
        UnsubscribeReceived(env, c, order[i]);
      }
      assert order[..|order|] == order;
    }
  }
}
