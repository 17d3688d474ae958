/**
 Whom the handlers towards publishers serve: what each callback of the client manager does to them, and
 what holds of them over every run.
 */
module ClientFanOut {
  import opened Ordered
  import AnnounceTable
  import opened ClientTables

  type Namespace = AnnounceTable.Namespace

  // ---------------------------------------------------------------- what a publish does

  /** The handler of a publish serves exactly the current subscribers of the track and exactly the registered
      namespace subscribers that match it; it is paused exactly when no peer and none of them wants the
      track. Nothing else changes. */
  lemma PublishServes(env: Env, s: Tables, p: Conn, t: Track)
    ensures (t, p) in Published(env, s, p, t).pubs
    ensures var s', h := Published(env, s, p, t), Published(env, s, p, t).pubs[(t, p)];
            && h.initiated
            && (forall c :: c in h.subscribers <==> (t, c) in s.subscribes)
            && (forall ns, c :: (ns, c) in h.namespaces <==> Registered(s, ns, c) && env.samePrefix(ns, t.ns))
            && (h.paused <==> t !in env.wanted && h.subscribers == {} && h.namespaces == {})
            && s' == s.(pubs := s.pubs[(t, p) := h])
  {
    forall c ensures c in SubscribersOf(s, t) <==> (t, c) in s.subscribes {
      SubscriberIs(s, t, c);
    }
  }

  lemma SubscriberIs(s: Tables, t: Track, c: Conn)
    ensures c in SubscribersOf(s, t) <==> (t, c) in s.subscribes
  {
    if (t, c) in s.subscribes {
      assert (t, c).0 == t && (t, c).1 == c;
    }
    if c in SubscribersOf(s, t) {
      var k :| k in s.subscribes && k.0 == t && k.1 == c;
      assert k == (t, c);
    }
  }

  // ---------------------------------------------------------------- what a namespace publish does

  /** The relay asks the announcer for the track: it has a subscriber, matches, and is not asked for yet. */
  ghost predicate Asked(env: Env, s: Tables, key: (Namespace, Conn), t: Track) {
    && (exists d :: (t, d) in s.subscribes)
    && env.samePrefix(t.ns, key.0)
    && !(key in s.announced && t in s.announced[key])
  }

  lemma JoinsIsAsked(env: Env, s: Tables, key: (Namespace, Conn), t: Track)
    requires ViewsAgree(s)
    ensures Joins(env, s, key, t) <==> Asked(env, s, key, t)
  {
    if Joins(env, s, key, t) {
      ActiveIsSubscribers(s, t);
      assert (t, FirstConn(s.active[t])) in s.subscribes;
    }
    if Asked(env, s, key, t) {
      var d :| (t, d) in s.subscribes;
      assert InSubscribes(s, d, s.subscribes[(t, d)], t);
      assert InActive(s, d, s.subscribes[(t, d)], t);
    }
  }

  /** A handler after a namespace publish of a client: one that serves every current subscriber for a track
      the announcer is asked for, else as before. */
  lemma NamespacePublishHandler(env: Env, s: Tables, c: Conn, ns: Namespace, k: (Track, Conn))
    requires TablesInv(s) && c != 0
    ensures var s', asked := NamespacePublished(env, s, c, ns), k.1 == c && Asked(env, s, (ns, c), k.0);
            && (k in s'.pubs <==> k in s.pubs || asked)
            && (k in s'.pubs && !asked ==> s'.pubs[k] == s.pubs[k])
            && (k in s'.pubs && asked ==>
                  !s'.pubs[k].initiated && !s'.pubs[k].paused && s'.pubs[k].namespaces == {}
                  && forall d :: d in s'.pubs[k].subscribers <==> (k.0, d) in s.subscribes)
  {
    var s1 := if (ns, c) in s.announced then s else s.(announced := s.announced[(ns, c) := {}]);
    SameViews(s, s1);
    JoinsIsAsked(env, s1, (ns, c), k.0);
    assert Asked(env, s1, (ns, c), k.0) <==> Asked(env, s, (ns, c), k.0);
    if k in SubscribedTo(env, s1, (ns, c)).pubs {
      AnnouncerPubs(env, s1, (ns, c), k);
    }
    if k.1 == c && Joins(env, s1, (ns, c), k.0) {
      ActiveIsSubscribers(s1, k.0);
      assert k == (k.0, (ns, c).1);
      assert k in MadeKeys(env, s1, (ns, c), s1.active.Keys);
    }
    forall d ensures d in SubscribersOf(s1, k.0) <==> (k.0, d) in s.subscribes {
      SubscriberIs(s1, k.0, d);
    }
  }

  /** The namespace is then listed with the tracks it was asked for. */
  lemma NamespacePublishListed(env: Env, s: Tables, c: Conn, ns: Namespace, t: Track)
    requires TablesInv(s) && c != 0
    ensures (ns, c) in NamespacePublished(env, s, c, ns).announced
    ensures t in NamespacePublished(env, s, c, ns).announced[(ns, c)] <==>
            ((ns, c) in s.announced && t in s.announced[(ns, c)]) || Asked(env, s, (ns, c), t)
  {
    var s1 := if (ns, c) in s.announced then s else s.(announced := s.announced[(ns, c) := {}]);
    SameViews(s, s1);
    JoinsIsAsked(env, s1, (ns, c), t);
    assert Asked(env, s1, (ns, c), t) <==> Asked(env, s, (ns, c), t);
  }

  // ---------------------------------------------------------------- what an unsubscribe does

  /** What is left of a handler that connection `c` leaves. */
  predicate UsedWithout(h: Handler, c: Conn) {
    h.subscribers - {c} != {} || h.namespaces != {}
  }

  /** A handler after an unsubscribe of `c` from `t`. One of another track is as before. One of the track loses
      the connection and nothing else; a used one stays as it was; an unused one is paused, and is dropped
      exactly when no peer wants the track and the relay made it. */
  lemma UnsubscribeHandler(env: Env, s: Tables, c: Conn, r: Req, k: (Track, Conn))
    requires (c, r) in s.aliasOf && (s.aliasOf[(c, r)], c) in s.subscribes
    ensures var s', t := Unsubscribed(env, s, c, r), s.aliasOf[(c, r)];
            && (k in s'.pubs <==>
                  k in s.pubs && (k.0 == t && !UsedWithout(s.pubs[k], c) && t !in env.wanted ==> s.pubs[k].initiated))
            && (k in s'.pubs && k.0 != t ==> s'.pubs[k] == s.pubs[k])
            && (k in s'.pubs && k.0 == t ==>
                  s'.pubs[k] == Handler(s.pubs[k].initiated, s.pubs[k].paused || !UsedWithout(s.pubs[k], c),
                                        s.pubs[k].subscribers - {c}, s.pubs[k].namespaces))
  {
  }

  /** A handler after peers no longer want the track. */
  lemma PeerUnsubscribeHandler(env: Env, s: Tables, t: Track, k: (Track, Conn))
    ensures var s' := Happen(env, s, PeerUnsubscribe(t));
            && (k in s'.pubs <==> k in s.pubs)
            && (k in s.pubs && k.0 != t ==> s'.pubs[k] == s.pubs[k])
            && (k in s.pubs && k.0 == t ==>
                  s'.pubs[k] == Handler(s.pubs[k].initiated, s.pubs[k].paused || !UsedWithout(s.pubs[k], 0),
                                        s.pubs[k].subscribers - {0}, s.pubs[k].namespaces))
  {
  }

  // ---------------------------------------------------------------- namespaces

  /** A handler after a namespace subscribe: one of a track under the namespace serves it, a client's own left
      out unless allowed, and is not paused if it did not serve it before. */
  lemma NamespaceSubscribeHandler(env: Env, s: Tables, c: Conn, ns: Namespace, k: (Track, Conn))
    ensures var s' := NamespaceSubscribed(env, s, c, ns);
            var serves := (env.allowSelf || k.1 != c) && env.prefixOf(ns, k.0.ns);
            && (k in s'.pubs <==> k in s.pubs)
            && (k in s.pubs && (!serves || (ns, c) in s.pubs[k].namespaces) ==> s'.pubs[k] == s.pubs[k])
            && (k in s.pubs && serves && (ns, c) !in s.pubs[k].namespaces ==>
                  s'.pubs[k] == Handler(s.pubs[k].initiated, false, s.pubs[k].subscribers,
                                        s.pubs[k].namespaces + {(ns, c)}))
    ensures forall n, d :: Registered(NamespaceSubscribed(env, s, c, ns), n, d) <==> Registered(s, n, d) || (n, d) == (ns, c)
  {
  }

  /** A handler of a track under the namespace after a registered connection has left it. */
  lemma NamespaceUnsubscribeHandler(env: Env, s: Tables, c: Conn, ns: Namespace, k: (Track, Conn))
    requires Registered(s, ns, c) && k in s.pubs
    requires (env.allowSelf || k.1 != c) && env.samePrefix(ns, k.0.ns)
    ensures var s', h := NamespaceUnsubscribed(env, s, c, ns), s.pubs[k];
            var used := h.subscribers != {} || h.namespaces - {(ns, c)} != {};
            && (k in s'.pubs <==> used || k.0 in env.wanted || h.initiated)
            && (k in s'.pubs ==>
                  s'.pubs[k] == Handler(h.initiated, h.paused || (!used && k.0 !in env.wanted),
                                        h.subscribers, h.namespaces - {(ns, c)}))
  {
    assert Matches(env, ns, c, k);
    assert k.0 in TracksHit(env, s.pubs, c, ns, s.pubs.Keys);
  }

  /** A client's own handler, where clients are not sent their own, keeps its namespaces; it is paused or dropped
      with the others of its track, when another publisher has one and nothing uses this one. */
  lemma NamespaceUnsubscribeOwn(env: Env, s: Tables, c: Conn, ns: Namespace, k: (Track, Conn))
    requires Registered(s, ns, c) && k in s.pubs && !env.allowSelf && k.1 == c
    ensures var s', h := NamespaceUnsubscribed(env, s, c, ns), s.pubs[k];
            var settled := && env.samePrefix(ns, k.0.ns) && (exists p | p != c :: (k.0, p) in s.pubs)
                           && k.0 !in env.wanted && h.subscribers == {} && h.namespaces == {};
            && (k in s'.pubs <==> !settled || h.initiated)
            && (k in s'.pubs ==> s'.pubs[k] == if settled then h.(paused := true) else h)
  {
    var hit := TracksHit(env, s.pubs, c, ns, s.pubs.Keys);
    if p :| p != c && (k.0, p) in s.pubs {
      assert Matches(env, ns, c, (k.0, p)) <==> env.samePrefix(ns, k.0.ns);
      assert env.samePrefix(ns, k.0.ns) ==> (k.0, p).0 in hit;
    }
    if k.0 in hit {
      var x :| x in s.pubs && Matches(env, ns, c, x) && x.0 == k.0;
      assert x == (k.0, x.1) && x.1 != c;
    }
  }

  /** A handler of no track under the namespace is left alone. */
  lemma NamespaceUnsubscribeOther(env: Env, s: Tables, c: Conn, ns: Namespace, k: (Track, Conn))
    requires k in s.pubs && !env.samePrefix(ns, k.0.ns)
    ensures k in NamespaceUnsubscribed(env, s, c, ns).pubs && NamespaceUnsubscribed(env, s, c, ns).pubs[k] == s.pubs[k]
  {
    if Registered(s, ns, c) {
      assert k.0 !in TracksHit(env, s.pubs, c, ns, s.pubs.Keys);
    }
  }

  /** A track is offered to a namespace subscriber whichever comes first, the publish or the subscribe. */
  lemma OfferedEitherWay(env: Env, s: Tables, p: Conn, t: Track, c: Conn, ns: Namespace)
    ensures (ns, c) in Offers(env, s, p, t) <==>
            Registered(s, ns, c) && (t, p) in OfferedTo(env, c, ns, Published(env, s, p, t).pubs.Keys)
    ensures (ns, c) in Offers(env, s, p, t) <==> Registered(s, ns, c) && env.prefixOf(ns, t.ns) && (env.allowSelf || c != p)
  {
  }

  /** The handler serves the namespace subscriber in either order exactly when the two ways to match agree
      on it: a publish takes every match, its own publisher's too, a subscribe every prefix but its own. */
  lemma EitherOrderIff(env: Env, s: Tables, p: Conn, t: Track, c: Conn, ns: Namespace)
    requires !Registered(s, ns, c)
    ensures var first := Published(env, NamespaceSubscribed(env, s, c, ns), p, t);
            var second := NamespaceSubscribed(env, Published(env, s, p, t), c, ns);
            ((ns, c) in first.pubs[(t, p)].namespaces <==> (ns, c) in second.pubs[(t, p)].namespaces)
            <==> (env.samePrefix(ns, t.ns) <==> env.prefixOf(ns, t.ns) && (env.allowSelf || p != c))
  {
    PublishServes(env, NamespaceSubscribed(env, s, c, ns), p, t);
    PublishServes(env, s, p, t);
    NamespaceSubscribeHandler(env, s, c, ns, (t, p));
    NamespaceSubscribeHandler(env, Published(env, s, p, t), c, ns, (t, p));
  }

  // ---------------------------------------------------------------- publishers that are done

  /** After a namespace is done it is not listed, the handlers made for it are gone, and no others. */
  lemma NamespaceDoneExact(s: Tables, c: Conn, ns: Namespace, k: (Track, Conn))
    ensures var s' := NamespaceDone(s, c, ns);
            && s'.announced == s.announced - {(ns, c)}
            && (k in s'.pubs <==>
                  k in s.pubs && !(k.1 == c && (ns, c) in s.announced && k.0 in s.announced[(ns, c)]))
            && (k in s'.pubs ==> s'.pubs[k] == s.pubs[k])
            && s' == s.(pubs := s'.pubs, announced := s'.announced)
  {
    if k.1 == c && (ns, c) in s.announced && k.0 in s.announced[(ns, c)] {
      assert k == (k.0, c);
    }
  }

  /** After a publish is done its handler is gone; while others publish the track, nothing else changes. */
  lemma PublishDoneExact(env: Env, s: Tables, c: Conn, t: Track, detached: bool)
    ensures (t, c) !in PublishDone(env, s, c, t, detached).pubs
    ensures detached || (exists d | d != c :: (t, d) in s.pubs) ==>
              PublishDone(env, s, c, t, detached) == s.(pubs := s.pubs - {(t, c)})
  {
    var s1 := s.(pubs := s.pubs - {(t, c)});
    if d :| d != c && (t, d) in s.pubs {
      assert (t, d) in s1.pubs && (t, d).0 == t;
    }
    AllFewerHandlers(env, s1, SubscriptionsOf(s1, t, Sorted(SubscribersOf(s1, t))));
  }

  lemma {:induction false} AllFewerHandlers(env: Env, s: Tables, subs: seq<(Conn, Req)>)
    ensures UnsubscribedAll(env, s, subs).pubs.Keys <= s.pubs.Keys
  {
    if subs != [] {
      AllFewerHandlers(env, s, subs[..|subs| - 1]);
    }
  }

  // ---------------------------------------------------------------- the relation over events

  /** The subscription is ended by the event. */
  ghost predicate EndedBy(s: Tables, e: Event, c: Conn, r: Req, t: Track) {
    match e
    case Unsubscribe(d, q) => (d, q) == (c, r)
    case Close(d, nss) => d == c
    case PublishIsDone(d, u, detached) => u == t && !detached && forall x | x in s.pubs && x.0 == u :: x.1 == d
    case _ => false
  }

  lemma UnsubscribedRelation(env: Env, s: Tables, c: Conn, r: Req, c': Conn, r': Req, t': Track)
    requires TablesInv(s)
    ensures InSubscribes(Unsubscribed(env, s, c, r), c', r', t') <==> InSubscribes(s, c', r', t') && (c', r') != (c, r)
  {
    UnsubscribeKeeps(env, s, c, r);
    var s' := Unsubscribed(env, s, c, r);
    assert InSubscribes(s', c', r', t') <==> InAliases(s', c', r', t');
    assert InSubscribes(s, c', r', t') <==> InAliases(s, c', r', t');
    if (c, r) in s.aliasOf {
      assert InAliases(s, c, r, s.aliasOf[(c, r)]);
      assert InSubscribes(s, c, r, s.aliasOf[(c, r)]);
    }
  }

  lemma {:induction false} EachRelation(env: Env, s: Tables, c: Conn, rs: seq<Req>, c': Conn, r': Req, t': Track)
    requires TablesInv(s)
    ensures InSubscribes(UnsubscribedEach(env, s, c, rs), c', r', t') <==>
            InSubscribes(s, c', r', t') && !(c' == c && r' in rs)
  {
    if rs != [] {
      var init, last := rs[..|rs| - 1], rs[|rs| - 1];
      EachRelation(env, s, c, init, c', r', t');
      UnsubscribedEachKeeps(env, s, c, init);
      UnsubscribedRelation(env, UnsubscribedEach(env, s, c, init), c, last, c', r', t');
      assert rs == init + [last];
    }
  }

  lemma {:induction false} AllRelation(env: Env, s: Tables, subs: seq<(Conn, Req)>, c': Conn, r': Req, t': Track)
    requires TablesInv(s)
    ensures TablesInv(UnsubscribedAll(env, s, subs))
    ensures InSubscribes(UnsubscribedAll(env, s, subs), c', r', t') <==>
            InSubscribes(s, c', r', t') && (c', r') !in subs
  {
    if subs != [] {
      var init, last := subs[..|subs| - 1], subs[|subs| - 1];
      AllRelation(env, s, init, c', r', t');
      UnsubscribeKeeps(env, UnsubscribedAll(env, s, init), last.0, last.1);
      UnsubscribedRelation(env, UnsubscribedAll(env, s, init), last.0, last.1, c', r', t');
      assert subs == init + [last];
    }
  }

  lemma SubscribeRelation(env: Env, s: Tables, c: Conn, r: Req, t: Track, order: seq<(Namespace, Conn)>,
                          c': Conn, r': Req, t': Track)
    ensures InSubscribes(Subscribed(env, s, c, r, t, order), c', r', t') <==>
            InSubscribes(s, c', r', t')
            || ((t, c) !in s.subscribes && !(c == 0 && r == 0) && (c', r', t') == (c, r, t))
  {
    var s1 := if c == 0 && r == 0 then s else Recorded(s, c, r, t);
    JoinAnnouncersIndexes(env, s1.(pubs := Joined(s1.pubs, t, c)), t, c, order);
  }

  lemma SoleHandler(pubs: Handlers, c: Conn, t: Track)
    ensures HasPublisher(pubs - {(t, c)}, t) <==> !(forall x | x in pubs && x.0 == t :: x.1 == c)
  {
    if x :| x in pubs && x.0 == t && x.1 != c {
      assert x in pubs - {(t, c)};
    }
    if HasPublisher(pubs - {(t, c)}, t) {
      var k :| k in pubs - {(t, c)} && k.0 == t;
      assert k.1 != c;
    }
  }

  lemma PublishDoneRelation(env: Env, s: Tables, c: Conn, t: Track, detached: bool, c': Conn, r': Req, t': Track)
    requires TablesInv(s)
    ensures InSubscribes(PublishDone(env, s, c, t, detached), c', r', t') <==>
            InSubscribes(s, c', r', t') && !EndedBy(s, PublishIsDone(c, t, detached), c', r', t')
  {
    var s1 := s.(pubs := s.pubs - {(t, c)});
    SoleHandler(s.pubs, c, t);
    if !HasPublisher(s1.pubs, t) && !detached {
      FewerKeeps(s, s1);
      AllRelation(env, s1, SubscriptionsOf(s1, t, Sorted(SubscribersOf(s1, t))), c', r', t');
      if InSubscribes(s1, c', r', t') {
        ListedRequest(s1, t, c', r', t');
      }
    }
  }

  /** Of the subscriptions that exist, those to the track are the ones listed. */
  lemma ListedRequest(s: Tables, t: Track, c: Conn, r: Req, t': Track)
    requires TablesInv(s) && InSubscribes(s, c, r, t')
    ensures (c, r) in SubscriptionsOf(s, t, Sorted(SubscribersOf(s, t))) <==> t' == t
  {
    var cs := Sorted(SubscribersOf(s, t));
    var subs := SubscriptionsOf(s, t, cs);
    SortedMembers(SubscribersOf(s, t), c);
    SubscriberIs(s, t, c);
    if t' == t {
      var i :| 0 <= i < |cs| && cs[i] == c;
      assert subs[i] == (c, r);
    }
    if (c, r) in subs {
      var i :| 0 <= i < |subs| && subs[i] == (c, r);
      assert cs[i] in cs;
      SortedMembers(SubscribersOf(s, t), cs[i]);
      assert InSubscribes(s, c, r, t);
      assert InAliases(s, c, r, t) && InAliases(s, c, r, t');
    }
  }

  lemma CloseRelation(env: Env, s: Tables, c: Conn, nss: seq<Namespace>, c': Conn, r': Req, t': Track)
    requires TablesInv(s)
    ensures InSubscribes(Closed(env, s, c, nss), c', r', t') <==> InSubscribes(s, c', r', t') && c' != c
  {
    var s1 := UnnamedEach(env, s, c, nss);
    UnnamedKeeps(env, s, c, nss);
    EachRelation(env, s1, c, Sorted(Requests(s1, c)), c', r', t');
    SortedMembers(Requests(s1, c), r');
    if c' == c && InSubscribes(s1, c', r', t') {
      assert InAliases(s1, c', r', t');
      assert (c, r').0 == c && (c, r').1 == r';
    }
  }

  /** Which subscriptions there are after an event: those there were and it does not end, and the one that an
      accepted subscribe brings. */
  lemma RelationStep(env: Env, s: Tables, e: Event, c: Conn, r: Req, t: Track)
    requires TablesInv(s) && Allowed(s, e)
    ensures InSubscribes(Happen(env, s, e), c, r, t) <==>
            (InSubscribes(s, c, r, t) && !EndedBy(s, e, c, r, t))
            || (e.Subscribe? && (e.c, e.r, e.t) == (c, r, t) && (t, c) !in s.subscribes)
  {
    match e
    case Subscribe(d, q, u, order) => SubscribeRelation(env, s, d, q, u, order, c, r, t);
    case PeerSubscribe(u, order) => JoinAnnouncersIndexes(env, s.(pubs := Joined(s.pubs, u, 0)), u, 0, order);
    case Unsubscribe(d, q) => UnsubscribedRelation(env, s, d, q, c, r, t);
    case PublishIsDone(d, u, detached) => PublishDoneRelation(env, s, d, u, detached, c, r, t);
    case UnsubscribeNamespace(d, ns) => NamespaceUnsubscribeKeeps(env, s, d, ns);
    case Close(d, nss) => CloseRelation(env, s, d, nss, c, r, t);
    case _ =>
  }

  // ---------------------------------------------------------------- every subscriber is served

  /** The handler serves every client that subscribes to its track. */
  ghost predicate Serves(s: Tables, k: (Track, Conn))
    requires k in s.pubs
  {
    forall c | (k.0, c) in s.subscribes && c != 0 :: c in s.pubs[k].subscribers
  }

  ghost predicate Fanned(s: Tables, k: (Track, Conn)) {
    k in s.pubs ==> Serves(s, k)
  }

  /** Handlers and subscriptions may go, but no handler loses a client that is still subscribed. */
  ghost predicate KeepsClients(s: Tables, s': Tables) {
    && (forall k | k in s'.pubs :: k in s.pubs && s'.pubs[k].initiated == s.pubs[k].initiated)
    && (forall k | k in s'.subscribes :: k in s.subscribes)
    && (forall k, c | k in s'.pubs && c != 0 && (k.0, c) in s'.subscribes && c in s.pubs[k].subscribers ::
          c in s'.pubs[k].subscribers)
  }

  /** Nor a namespace subscriber that is still registered. */
  ghost predicate KeepsNamespaces(s: Tables, s': Tables) {
    && (forall ns, c | Registered(s', ns, c) :: Registered(s, ns, c))
    && (forall k, ns, c | k in s'.pubs && k in s.pubs && Registered(s', ns, c) && (ns, c) in s.pubs[k].namespaces ::
          (ns, c) in s'.pubs[k].namespaces)
  }

  ghost predicate Shrinks(s: Tables, s': Tables) {
    KeepsClients(s, s') && KeepsNamespaces(s, s')
  }

  lemma ShrinksOn(s: Tables, s1: Tables, s2: Tables)
    requires Shrinks(s, s1) && Shrinks(s1, s2)
    ensures Shrinks(s, s2)
  {
  }

  lemma ShrinksFans(s: Tables, s': Tables, k: (Track, Conn))
    requires Shrinks(s, s') && Fanned(s, k)
    ensures Fanned(s', k)
  {
  }

  lemma UnsubscribedShrinks(env: Env, s: Tables, c: Conn, r: Req)
    ensures Shrinks(s, Unsubscribed(env, s, c, r))
  {
    var s' := Unsubscribed(env, s, c, r);
    if (c, r) in s.aliasOf && (s.aliasOf[(c, r)], c) in s.subscribes {
      forall k | k in s'.pubs
        ensures k in s.pubs && s'.pubs[k].initiated == s.pubs[k].initiated && s'.pubs[k].namespaces == s.pubs[k].namespaces
        ensures s.pubs[k].subscribers - (if k.0 == s.aliasOf[(c, r)] then {c} else {}) <= s'.pubs[k].subscribers
      {
        UnsubscribeHandler(env, s, c, r, k);
      }
    }
  }

  lemma {:induction false} EachShrinks(env: Env, s: Tables, c: Conn, rs: seq<Req>)
    ensures Shrinks(s, UnsubscribedEach(env, s, c, rs))
  {
    if rs != [] {
      var s1 := UnsubscribedEach(env, s, c, rs[..|rs| - 1]);
      EachShrinks(env, s, c, rs[..|rs| - 1]);
      UnsubscribedShrinks(env, s1, c, rs[|rs| - 1]);
      ShrinksOn(s, s1, UnsubscribedEach(env, s, c, rs));
    }
  }

  lemma {:induction false} AllShrinks(env: Env, s: Tables, subs: seq<(Conn, Req)>)
    ensures Shrinks(s, UnsubscribedAll(env, s, subs))
  {
    if subs != [] {
      var s1, last := UnsubscribedAll(env, s, subs[..|subs| - 1]), subs[|subs| - 1];
      AllShrinks(env, s, subs[..|subs| - 1]);
      UnsubscribedShrinks(env, s1, last.0, last.1);
      ShrinksOn(s, s1, UnsubscribedAll(env, s, subs));
    }
  }

  lemma LeftShrinks(env: Env, s: Tables, c: Conn, ns: Namespace)
    ensures Shrinks(s, NamespaceUnsubscribed(env, s, c, ns))
  {
    var s' := NamespaceUnsubscribed(env, s, c, ns);
    forall n, d ensures Registered(s', n, d) <==> Registered(s, n, d) && !(n == ns && d == c) {
      UnsubscribedRegisters(env, s, c, ns, n, d);
    }
    if Registered(s, ns, c) {
      LeftKeeps(env, s, c, ns);
    }
  }

  /** A handler that stays loses at most the namespace that was left. */
  lemma LeftKeeps(env: Env, s: Tables, c: Conn, ns: Namespace)
    requires Registered(s, ns, c)
    ensures var s' := NamespaceUnsubscribed(env, s, c, ns);
            forall k | k in s'.pubs ::
              && k in s.pubs && s'.pubs[k].initiated == s.pubs[k].initiated
              && s'.pubs[k].subscribers == s.pubs[k].subscribers
              && s.pubs[k].namespaces - {(ns, c)} <= s'.pubs[k].namespaces
  {
    forall k | k in NamespaceUnsubscribed(env, s, c, ns).pubs
      ensures k in s.pubs && s.pubs[k].namespaces - {(ns, c)} <= NamespaceUnsubscribed(env, s, c, ns).pubs[k].namespaces
      ensures NamespaceUnsubscribed(env, s, c, ns).pubs[k].subscribers == s.pubs[k].subscribers
    {
      LeftServes(env, s.pubs, c, ns, k);
    }
  }

  lemma {:induction false} UnnamedShrinks(env: Env, s: Tables, c: Conn, nss: seq<Namespace>)
    ensures Shrinks(s, UnnamedEach(env, s, c, nss))
  {
    if nss != [] {
      var s1 := UnnamedEach(env, s, c, nss[..|nss| - 1]);
      UnnamedShrinks(env, s, c, nss[..|nss| - 1]);
      LeftShrinks(env, s1, c, nss[|nss| - 1]);
      ShrinksOn(s, s1, UnnamedEach(env, s, c, nss));
    }
  }

  lemma FewerShrink(s: Tables, pubs: Handlers)
    requires forall k | k in pubs :: k in s.pubs && pubs[k] == s.pubs[k]
    ensures Shrinks(s, s.(pubs := pubs))
  {
  }

  lemma PurgedShrinks(s: Tables, c: Conn)
    ensures Shrinks(s, Purged(s, c))
  {
  }

  lemma CloseShrinks(env: Env, s: Tables, c: Conn, nss: seq<Namespace>)
    ensures Shrinks(s, Closed(env, s, c, nss))
  {
    var s1 := UnnamedEach(env, s, c, nss);
    var s2 := UnsubscribedEach(env, s1, c, Sorted(Requests(s1, c)));
    UnnamedShrinks(env, s, c, nss);
    EachShrinks(env, s1, c, Sorted(Requests(s1, c)));
    ShrinksOn(s, s1, s2);
    PurgedShrinks(s2, c);
    ShrinksOn(s, s2, Purged(s2, c));
  }

  lemma PublishDoneShrinks(env: Env, s: Tables, c: Conn, t: Track, detached: bool)
    ensures Shrinks(s, PublishDone(env, s, c, t, detached))
  {
    var s1 := s.(pubs := s.pubs - {(t, c)});
    var subs := SubscriptionsOf(s1, t, Sorted(SubscribersOf(s1, t)));
    FewerShrink(s, s.pubs - {(t, c)});
    AllShrinks(env, s1, subs);
    ShrinksOn(s, s1, UnsubscribedAll(env, s1, subs));
  }

  predicate Adds(e: Event) {
    e.Subscribe? || e.PeerSubscribe? || e.Publish? || e.PublishNamespace? || e.SubscribeNamespace?
  }

  lemma OthersShrink(env: Env, s: Tables, e: Event)
    requires !Adds(e)
    ensures Shrinks(s, Happen(env, s, e))
  {
    match e
    case Unsubscribe(c, r) => UnsubscribedShrinks(env, s, c, r);
    case PublishIsDone(c, t, detached) => PublishDoneShrinks(env, s, c, t, detached);
    case UnsubscribeNamespace(c, ns) => LeftShrinks(env, s, c, ns);
    case Close(c, nss) => CloseShrinks(env, s, c, nss);
    case _ =>
  }

  /** A client other than `c` subscribes to the track. */
  ghost predicate OthersSubscribe(s: Tables, t: Track, c: Conn) {
    exists d :: (t, d) in s.subscribes && d != 0 && d != c
  }

  /** The event makes a handler for a subscriber of a track to which others subscribed before. */
  ghost predicate Late(s: Tables, e: Event, k: (Track, Conn)) {
    k !in s.pubs
    && match e
       case Subscribe(c, r, t, order) => k.0 == t && OthersSubscribe(s, t, c)
       case PeerSubscribe(t, order) => k.0 == t && OthersSubscribe(s, t, 0)
       case _ => false
  }

  lemma {:induction false} JoinAnnouncersMake(env: Env, s: Tables, t: Track, c: Conn, order: seq<(Namespace, Conn)>,
                                              k: (Track, Conn))
    ensures var s' := JoinAnnouncers(env, s, t, c, order);
            && (k in s.pubs ==> k in s'.pubs && s'.pubs[k] == s.pubs[k])
            && (k in s'.pubs && k !in s.pubs ==> k.0 == t && s'.pubs[k] == Handler(false, false, {c}, {}))
  {
    if order != [] {
      JoinAnnouncersMake(env, s, t, c, order[..|order| - 1], k);
      assert {} + {c} == {c};
    }
  }

  lemma JoinedHandler(pubs: Handlers, t: Track, c: Conn, k: (Track, Conn))
    ensures var pubs' := Joined(pubs, t, c);
            && (k in pubs' <==> k in pubs)
            && (k in pubs && k.0 != t ==> pubs'[k] == pubs[k])
            && (k in pubs && k.0 == t ==>
                  && pubs'[k] == Handler(pubs[k].initiated, pubs'[k].paused, pubs[k].subscribers + {c}, pubs[k].namespaces)
                  && (pubs'[k].paused <==> pubs[k].paused && !pubs[k].initiated && c in pubs[k].subscribers))
  {
    if k in pubs && c in pubs[k].subscribers {
      assert pubs[k].subscribers + {c} == pubs[k].subscribers;
    }
  }

  /** A handler after a subscribe: one of the track takes the subscriber and is going, unless the relay made
      it and it had the subscriber and was paused; a new one is made for the subscriber alone. */
  lemma ProcessedHandler(env: Env, s: Tables, c: Conn, r: Req, t: Track, order: seq<(Namespace, Conn)>, k: (Track, Conn))
    ensures var s' := Processed(env, s, c, r, t, order);
            && (k in s.pubs ==> k in s'.pubs)
            && (k in s.pubs && k.0 != t ==> s'.pubs[k] == s.pubs[k])
            && (k in s.pubs && k.0 == t ==>
                  && s'.pubs[k] == Handler(s.pubs[k].initiated, s'.pubs[k].paused, s.pubs[k].subscribers + {c},
                                           s.pubs[k].namespaces)
                  && (s'.pubs[k].paused <==> s.pubs[k].paused && !s.pubs[k].initiated && c in s.pubs[k].subscribers))
            && (k in s'.pubs && k !in s.pubs ==> k.0 == t && s'.pubs[k] == Handler(false, false, {c}, {}))
  {
    var s1 := if c == 0 && r == 0 then s else Recorded(s, c, r, t);
    JoinedHandler(s.pubs, t, c, k);
    JoinAnnouncersMake(env, s1.(pubs := Joined(s1.pubs, t, c)), t, c, order, k);
  }

  lemma ProcessedTables(env: Env, s: Tables, c: Conn, r: Req, t: Track, order: seq<(Namespace, Conn)>)
    ensures var s' := Processed(env, s, c, r, t, order);
            && s'.subNs == s.subNs
            && s'.subscribes ==
               if (c == 0 && r == 0) || (t, c) in s.subscribes then s.subscribes else s.subscribes[(t, c) := r]
  {
    var s1 := if c == 0 && r == 0 then s else Recorded(s, c, r, t);
    JoinAnnouncersIndexes(env, s1.(pubs := Joined(s1.pubs, t, c)), t, c, order);
  }

  lemma ProcessedServesIff(env: Env, s: Tables, c: Conn, r: Req, t: Track, order: seq<(Namespace, Conn)>, k: (Track, Conn))
    requires Fanned(s, k) && k in Processed(env, s, c, r, t, order).pubs
    ensures Serves(Processed(env, s, c, r, t, order), k) <==> k in s.pubs || !OthersSubscribe(s, t, c)
    ensures k in s.pubs || k.0 == t
  {
    ProcessedHandler(env, s, c, r, t, order, k);
    ProcessedTables(env, s, c, r, t, order);
    var s' := Processed(env, s, c, r, t, order);
    if k !in s.pubs && OthersSubscribe(s, t, c) {
      var d :| (t, d) in s.subscribes && d != 0 && d != c;
      assert (k.0, d) in s'.subscribes && d !in s'.pubs[k].subscribers;
    }
  }

  lemma PublishFans(env: Env, s: Tables, p: Conn, t: Track, k: (Track, Conn))
    requires Fanned(s, k)
    ensures Fanned(Published(env, s, p, t), k)
  {
    PublishServes(env, s, p, t);
  }

  lemma NamespacePublishFans(env: Env, s: Tables, c: Conn, ns: Namespace, k: (Track, Conn))
    requires TablesInv(s) && Fanned(s, k)
    ensures Fanned(NamespacePublished(env, s, c, ns), k)
  {
    if c != 0 {
      NamespacePublishHandler(env, s, c, ns, k);
    }
  }

  lemma AddedServesIff(env: Env, s: Tables, e: Event, k: (Track, Conn))
    requires Adds(e) && TablesInv(s) && Fanned(s, k) && k in Happen(env, s, e).pubs
    ensures Serves(Happen(env, s, e), k) <==> !Late(s, e, k)
  {
    match e
    case Subscribe(c, r, t, order) =>
      if (t, c) !in s.subscribes {
        ProcessedServesIff(env, s, c, r, t, order, k);
      }
    case PeerSubscribe(t, order) => ProcessedServesIff(env, s, 0, 0, t, order, k);
    case Publish(c, t) => PublishFans(env, s, c, t, k);
    case PublishNamespace(c, ns) => NamespacePublishFans(env, s, c, ns, k);
    case SubscribeNamespace(c, ns) => NamespaceSubscribeHandler(env, s, c, ns, k);
  }

  /** A handler that serves every current subscriber of its track goes on doing so as long as it is there, and
      a new or replaced one serves them all, with one exception: one that a subscribe makes, at an announcer,
      when others subscribe to the track. */
  lemma EventServesIff(env: Env, s: Tables, e: Event, k: (Track, Conn))
    requires TablesInv(s) && Allowed(s, e) && Fanned(s, k) && k in Happen(env, s, e).pubs
    ensures Serves(Happen(env, s, e), k) <==> !Late(s, e, k)
  {
    if Adds(e) {
      AddedServesIff(env, s, e, k);
    } else {
      OthersShrink(env, s, e);
      ShrinksFans(s, Happen(env, s, e), k);
    }
  }

  /** Only a publish makes a handler its own. */
  lemma OnlyPublishStarts(env: Env, s: Tables, e: Event, k: (Track, Conn))
    requires TablesInv(s) && k in Happen(env, s, e).pubs && Happen(env, s, e).pubs[k].initiated
    ensures (k in s.pubs && s.pubs[k].initiated) || e == Publish(k.1, k.0)
  {
    match e
    case Subscribe(c, r, t, order) =>
      if (t, c) !in s.subscribes {
        ProcessedHandler(env, s, c, r, t, order, k);
      }
    case PeerSubscribe(t, order) => ProcessedHandler(env, s, 0, 0, t, order, k);
    case Publish(c, t) => PublishServes(env, s, c, t);
    case PublishNamespace(c, ns) =>
      if c != 0 {
        NamespacePublishHandler(env, s, c, ns, k);
      }
    case SubscribeNamespace(c, ns) => NamespaceSubscribeHandler(env, s, c, ns, k);
    case _ => OthersShrink(env, s, e);
  }

  /** Over every run a handler that a publish made serves every current subscriber of its track. */
  lemma {:induction false} AlwaysServes(envs: seq<Env>, es: seq<Event>, k: (Track, Conn))
    requires |envs| == |es| && Run(envs, EMPTY_TABLES, es)
    requires var s := After(envs, EMPTY_TABLES, es); k in s.pubs && s.pubs[k].initiated
    ensures Serves(After(envs, EMPTY_TABLES, es), k)
  {
    if es != [] {
      var env, e := envs[|es| - 1], es[|es| - 1];
      var s := After(envs[..|es| - 1], EMPTY_TABLES, es[..|es| - 1]);
      AlwaysAgree(envs[..|es| - 1], es[..|es| - 1]);
      OnlyPublishStarts(env, s, e, k);
      if k in s.pubs && s.pubs[k].initiated {
        AlwaysServes(envs[..|es| - 1], es[..|es| - 1], k);
        EventServesIff(env, s, e, k);
      } else {
        PublishServes(env, s, k.1, k.0);
      }
    }
  }

  /** No event of the run makes a handler late. */
  ghost predicate InTime(envs: seq<Env>, s: Tables, es: seq<Event>)
    requires |envs| == |es|
  {
    es == [] ||
    (InTime(envs[..|es| - 1], s, es[..|es| - 1])
     && forall k | k in After(envs, s, es).pubs :: !Late(After(envs[..|es| - 1], s, es[..|es| - 1]), es[|es| - 1], k))
  }

  /** Where no handler is made late every handler, those made for announcers too, serves every current
      subscriber of its track. */
  lemma {:induction false} AllServe(envs: seq<Env>, es: seq<Event>, k: (Track, Conn))
    requires |envs| == |es| && Run(envs, EMPTY_TABLES, es) && InTime(envs, EMPTY_TABLES, es)
    ensures Fanned(After(envs, EMPTY_TABLES, es), k)
  {
    if es != [] {
      var s := After(envs[..|es| - 1], EMPTY_TABLES, es[..|es| - 1]);
      AlwaysAgree(envs[..|es| - 1], es[..|es| - 1]);
      AllServe(envs[..|es| - 1], es[..|es| - 1], k);
      if k in After(envs, EMPTY_TABLES, es).pubs {
        EventServesIff(envs[|es| - 1], s, es[|es| - 1], k);
      }
    }
  }

  lemma FirstHandler(env: Env, s: Tables, c: Conn, t: Track, k: (Namespace, Conn))
    requires k in s.announced && c != 0 && (t, c) !in s.subscribes
    requires env.samePrefix(k.0, t.ns) && k.1 != 0
    ensures var s' := Subscribed(env, s, c, 1, t, [k]);
            && k in s'.announced && s'.subscribes == s.subscribes[(t, c) := 1]
            && ((t, k.1) !in s.pubs ==> (t, k.1) in s'.pubs && s'.pubs[(t, k.1)].subscribers == {c})
  {
    ProcessedTables(env, s, c, 1, t, [k]);
    OneAnnouncer(env, Recorded(s, c, 1, t).(pubs := Joined(s.pubs, t, c)), t, c, k);
    ProcessedHandler(env, s, c, 1, t, [k], (t, k.1));
  }

  /** It can happen: a client subscribes, the announcer publishes the track and is done with it while
      subscribes are kept, and the handler made for the next client serves that one alone. */
  lemma LateExample(env: Env, p: Conn, a: Conn, b: Conn, t: Track, ns: Namespace)
    requires p != 0 && a != 0 && b != 0 && a != b && env.samePrefix(ns, t.ns)
    ensures var s1 := NamespacePublished(env, EMPTY_TABLES, p, ns);
            var s2 := Subscribed(env, s1, a, 1, t, [(ns, p)]);
            var s3 := PublishDone(env, Published(env, s2, p, t), p, t, true);
            var s4 := Subscribed(env, s3, b, 1, t, [(ns, p)]);
            (t, a) in s4.subscribes && (t, p) in s4.pubs && s4.pubs[(t, p)].subscribers == {b}
  {
    var s1 := NamespacePublished(env, EMPTY_TABLES, p, ns);
    NamespacePublishListed(env, EMPTY_TABLES, p, ns, t);
    FirstHandler(env, s1, a, t, (ns, p));
    var s2 := Subscribed(env, s1, a, 1, t, [(ns, p)]);
    PublishDoneExact(env, Published(env, s2, p, t), p, t, true);
    FirstHandler(env, PublishDone(env, Published(env, s2, p, t), p, t, true), b, t, (ns, p));
  }

  lemma OneAnnouncer(env: Env, s: Tables, t: Track, c: Conn, k: (Namespace, Conn))
    ensures JoinAnnouncers(env, s, t, c, [k]) == JoinAnnouncer(env, s, t, c, k)
  {
    assert [k][..0] == [] && JoinAnnouncers(env, s, t, c, []) == s;
  }

  /** The handler serves every client, other than its publisher, that subscribes to a prefix of its track's
      namespace. */
  ghost predicate ServesPrefixes(prefixOf: Matcher, s: Tables, k: (Track, Conn))
    requires k in s.pubs
  {
    forall ns, c | Registered(s, ns, c) && prefixOf(ns, k.0.ns) && c != k.1 :: (ns, c) in s.pubs[k].namespaces
  }

  lemma EventServesPrefixes(env: Env, s: Tables, e: Event, k: (Track, Conn))
    requires PrefixMatches(env) && !e.PublishNamespace?
    requires k in s.pubs && ServesPrefixes(env.prefixOf, s, k) && k in Happen(env, s, e).pubs
    ensures ServesPrefixes(env.prefixOf, Happen(env, s, e), k)
  {
    match e
    case Subscribe(c, r, t, order) =>
      ProcessedHandler(env, s, c, r, t, order, k);
      ProcessedTables(env, s, c, r, t, order);
    case PeerSubscribe(t, order) =>
      ProcessedHandler(env, s, 0, 0, t, order, k);
      ProcessedTables(env, s, 0, 0, t, order);
    case Publish(c, t) => PublishServes(env, s, c, t);
    case SubscribeNamespace(c, ns) => NamespaceSubscribeHandler(env, s, c, ns, k);
    case _ => OthersShrink(env, s, e);
  }

  lemma AnnouncedPrefixes(env: Env, s: Tables, c: Conn, ns: Namespace, k: (Track, Conn))
    requires TablesInv(s) && k in s.pubs && ServesPrefixes(env.prefixOf, s, k)
    requires k in NamespacePublished(env, s, c, ns).pubs && NamespacePublished(env, s, c, ns).pubs[k].initiated
    ensures ServesPrefixes(env.prefixOf, NamespacePublished(env, s, c, ns), k)
  {
    AnnouncedFewer(env, s, c, ns);
    if c != 0 {
      NamespacePublishHandler(env, s, c, ns, k);
    }
  }

  lemma PublishedPrefixes(env: Env, s: Tables, k: (Track, Conn))
    requires PrefixMatches(env)
    ensures k in Published(env, s, k.1, k.0).pubs && ServesPrefixes(env.prefixOf, Published(env, s, k.1, k.0), k)
  {
    PublishServes(env, s, k.1, k.0);
  }

  /** Over every run a handler that a publish made serves every such namespace subscriber. */
  lemma {:induction false} AlwaysServesPrefixes(envs: seq<Env>, es: seq<Event>, env: Env, k: (Track, Conn))
    requires |envs| == |es| && Run(envs, EMPTY_TABLES, es)
    requires SameMatchers(envs, env) && PrefixMatches(env)
    requires var s := After(envs, EMPTY_TABLES, es); k in s.pubs && s.pubs[k].initiated
    ensures ServesPrefixes(env.prefixOf, After(envs, EMPTY_TABLES, es), k)
  {
    if es != [] {
      var now, e := envs[|es| - 1], es[|es| - 1];
      var s := After(envs[..|es| - 1], EMPTY_TABLES, es[..|es| - 1]);
      AlwaysAgree(envs[..|es| - 1], es[..|es| - 1]);
      OnlyPublishStarts(now, s, e, k);
      if k in s.pubs && s.pubs[k].initiated {
        AlwaysServesPrefixes(envs[..|es| - 1], es[..|es| - 1], env, k);
        if e.PublishNamespace? {
          AnnouncedPrefixes(now, s, e.c, e.ns, k);
        } else {
          EventServesPrefixes(now, s, e, k);
        }
      } else {
        PublishedPrefixes(now, s, k);
      }
    }
  }

  // ---------------------------------------------------------------- a handler in use is going

  /** A paused handler serves nobody. */
  ghost predicate PausedUnused(s: Tables) {
    forall k | k in s.pubs && s.pubs[k].paused :: s.pubs[k].subscribers == {} && s.pubs[k].namespaces == {}
  }

  lemma ProcessedGoing(env: Env, s: Tables, c: Conn, r: Req, t: Track, order: seq<(Namespace, Conn)>)
    requires PausedUnused(s)
    ensures PausedUnused(Processed(env, s, c, r, t, order))
  {
    var s' := Processed(env, s, c, r, t, order);
    forall k | k in s'.pubs && s'.pubs[k].paused ensures s'.pubs[k].subscribers == {} && s'.pubs[k].namespaces == {} {
      ProcessedHandler(env, s, c, r, t, order, k);
    }
  }

  lemma NamespacePublishGoing(env: Env, s: Tables, c: Conn, ns: Namespace)
    requires TablesInv(s) && PausedUnused(s)
    ensures PausedUnused(NamespacePublished(env, s, c, ns))
  {
    var s' := NamespacePublished(env, s, c, ns);
    forall k | k in s'.pubs && s'.pubs[k].paused ensures s'.pubs[k].subscribers == {} && s'.pubs[k].namespaces == {} {
      if c != 0 {
        NamespacePublishHandler(env, s, c, ns, k);
      }
    }
  }

  lemma UnsubscribedGoing(env: Env, s: Tables, c: Conn, r: Req)
    requires PausedUnused(s)
    ensures PausedUnused(Unsubscribed(env, s, c, r))
  {
    if (c, r) in s.aliasOf && (s.aliasOf[(c, r)], c) in s.subscribes {
      var s' := Unsubscribed(env, s, c, r);
      forall k | k in s'.pubs && s'.pubs[k].paused ensures s'.pubs[k].subscribers == {} && s'.pubs[k].namespaces == {} {
        UnsubscribeHandler(env, s, c, r, k);
      }
    }
  }

  lemma {:induction false} EachGoing(env: Env, s: Tables, c: Conn, rs: seq<Req>)
    requires PausedUnused(s)
    ensures PausedUnused(UnsubscribedEach(env, s, c, rs))
  {
    if rs != [] {
      EachGoing(env, s, c, rs[..|rs| - 1]);
      UnsubscribedGoing(env, UnsubscribedEach(env, s, c, rs[..|rs| - 1]), c, rs[|rs| - 1]);
    }
  }

  lemma {:induction false} AllGoing(env: Env, s: Tables, subs: seq<(Conn, Req)>)
    requires PausedUnused(s)
    ensures PausedUnused(UnsubscribedAll(env, s, subs))
  {
    if subs != [] {
      AllGoing(env, s, subs[..|subs| - 1]);
      UnsubscribedGoing(env, UnsubscribedAll(env, s, subs[..|subs| - 1]), subs[|subs| - 1].0, subs[|subs| - 1].1);
    }
  }

  lemma LeftGoing(env: Env, s: Tables, c: Conn, ns: Namespace)
    requires PausedUnused(s)
    ensures PausedUnused(NamespaceUnsubscribed(env, s, c, ns))
  {
    if Registered(s, ns, c) {
      var s' := NamespaceUnsubscribed(env, s, c, ns);
      forall k | k in s'.pubs && s'.pubs[k].paused ensures s'.pubs[k].subscribers == {} && s'.pubs[k].namespaces == {} {
        LeftServes(env, s.pubs, c, ns, k);
      }
    }
  }

  lemma {:induction false} UnnamedGoing(env: Env, s: Tables, c: Conn, nss: seq<Namespace>)
    requires PausedUnused(s)
    ensures PausedUnused(UnnamedEach(env, s, c, nss))
  {
    if nss != [] {
      UnnamedGoing(env, s, c, nss[..|nss| - 1]);
      LeftGoing(env, UnnamedEach(env, s, c, nss[..|nss| - 1]), c, nss[|nss| - 1]);
    }
  }

  lemma PublishDoneGoing(env: Env, s: Tables, c: Conn, t: Track, detached: bool)
    requires PausedUnused(s)
    ensures PausedUnused(PublishDone(env, s, c, t, detached))
  {
    var s1 := s.(pubs := s.pubs - {(t, c)});
    AllGoing(env, s1, SubscriptionsOf(s1, t, Sorted(SubscribersOf(s1, t))));
  }

  lemma CloseGoing(env: Env, s: Tables, c: Conn, nss: seq<Namespace>)
    requires PausedUnused(s)
    ensures PausedUnused(Closed(env, s, c, nss))
  {
    UnnamedGoing(env, s, c, nss);
    var s1 := UnnamedEach(env, s, c, nss);
    EachGoing(env, s1, c, Sorted(Requests(s1, c)));
  }

  lemma EventGoing(env: Env, s: Tables, e: Event)
    requires TablesInv(s) && PausedUnused(s)
    ensures PausedUnused(Happen(env, s, e))
  {
    match e
    case Subscribe(c, r, t, order) => ProcessedGoing(env, s, c, r, t, order);
    case PeerSubscribe(t, order) => ProcessedGoing(env, s, 0, 0, t, order);
    case Unsubscribe(c, r) => UnsubscribedGoing(env, s, c, r);
    case PublishNamespace(c, ns) => NamespacePublishGoing(env, s, c, ns);
    case PublishIsDone(c, t, detached) => PublishDoneGoing(env, s, c, t, detached);
    case UnsubscribeNamespace(c, ns) => LeftGoing(env, s, c, ns);
    case Close(c, nss) => CloseGoing(env, s, c, nss);
    case _ =>
  }

  /** Over every run a handler that has a subscriber, direct or by namespace, is not paused. */
  lemma {:induction false} AlwaysGoing(envs: seq<Env>, es: seq<Event>)
    requires |envs| == |es| && Run(envs, EMPTY_TABLES, es)
    ensures PausedUnused(After(envs, EMPTY_TABLES, es))
  {
    if es != [] {
      AlwaysGoing(envs[..|es| - 1], es[..|es| - 1]);
      AlwaysAgree(envs[..|es| - 1], es[..|es| - 1]);
      EventGoing(envs[|es| - 1], After(envs[..|es| - 1], EMPTY_TABLES, es[..|es| - 1]), es[|es| - 1]);
    }
  }

  // ---------------------------------------------------------------- handlers made for announcers are listed

  /** The track is listed for a namespace that the connection announced. */
  ghost predicate ListedFor(s: Tables, k: (Track, Conn)) {
    exists ns :: (ns, k.1) in s.announced && k.0 in s.announced[(ns, k.1)]
  }

  /** Every handler that the relay made is listed, so that it goes when its namespace does. */
  ghost predicate MadeListed(s: Tables) {
    forall k | k in s.pubs && !s.pubs[k].initiated :: ListedFor(s, k)
  }

  ghost predicate AnnouncedGrows(s: Tables, s': Tables) {
    forall a | a in s.announced :: a in s'.announced && s.announced[a] <= s'.announced[a]
  }

  lemma ListedGrows(s: Tables, s': Tables, k: (Track, Conn))
    requires ListedFor(s, k) && AnnouncedGrows(s, s')
    ensures ListedFor(s', k)
  {
    var ns :| (ns, k.1) in s.announced && k.0 in s.announced[(ns, k.1)];
    assert (ns, k.1) in s'.announced;
  }

  lemma ShrinksListed(s: Tables, s': Tables)
    requires MadeListed(s) && Shrinks(s, s') && s'.announced == s.announced
    ensures MadeListed(s')
  {
    forall k | k in s'.pubs && !s'.pubs[k].initiated ensures ListedFor(s', k) {
      ListedGrows(s, s', k);
    }
  }

  lemma {:induction false} JoinAnnouncersListed(env: Env, s: Tables, t: Track, c: Conn, order: seq<(Namespace, Conn)>)
    requires MadeListed(s)
    ensures MadeListed(JoinAnnouncers(env, s, t, c, order))
  {
    if order != [] {
      JoinAnnouncersListed(env, s, t, c, order[..|order| - 1]);
      JoinAnnouncerListed(env, JoinAnnouncers(env, s, t, c, order[..|order| - 1]), t, c, order[|order| - 1]);
    }
  }

  lemma JoinAnnouncerListed(env: Env, s: Tables, t: Track, c: Conn, a: (Namespace, Conn))
    requires MadeListed(s)
    ensures MadeListed(JoinAnnouncer(env, s, t, c, a))
  {
    var s' := JoinAnnouncer(env, s, t, c, a);
    forall k | k in s'.pubs && !s'.pubs[k].initiated ensures ListedFor(s', k) {
      if k in s.pubs {
        ListedGrows(s, s', k);
      } else {
        assert a == (a.0, k.1) && k.0 in s'.announced[(a.0, k.1)];
      }
    }
  }

  lemma ProcessedListed(env: Env, s: Tables, c: Conn, r: Req, t: Track, order: seq<(Namespace, Conn)>)
    requires MadeListed(s)
    ensures MadeListed(Processed(env, s, c, r, t, order))
  {
    var s1 := if c == 0 && r == 0 then s else Recorded(s, c, r, t);
    var s2 := s1.(pubs := Joined(s1.pubs, t, c));
    forall k | k in s2.pubs && !s2.pubs[k].initiated ensures ListedFor(s2, k) {
      JoinedHandler(s.pubs, t, c, k);
      ListedGrows(s, s2, k);
    }
    JoinAnnouncersListed(env, s2, t, c, order);
  }

  lemma PublishListed(env: Env, s: Tables, p: Conn, t: Track)
    requires MadeListed(s)
    ensures MadeListed(Published(env, s, p, t))
  {
    var s' := Published(env, s, p, t);
    forall k | k in s'.pubs && !s'.pubs[k].initiated ensures ListedFor(s', k) {
      ListedGrows(s, s', k);
    }
  }

  lemma NamespacePublishGrows(env: Env, s: Tables, c: Conn, ns: Namespace)
    ensures AnnouncedGrows(s, NamespacePublished(env, s, c, ns))
    ensures c == 0 ==> NamespacePublished(env, s, c, ns).pubs == s.pubs
  {
  }

  lemma MadeIsListed(env: Env, s: Tables, c: Conn, ns: Namespace, k: (Track, Conn))
    requires TablesInv(s) && c != 0 && k.1 == c && Asked(env, s, (ns, c), k.0)
    ensures ListedFor(NamespacePublished(env, s, c, ns), k)
  {
    NamespacePublishListed(env, s, c, ns, k.0);
    assert (ns, k.1) == (ns, c);
  }

  lemma NamespacePublishKeepsListed(env: Env, s: Tables, c: Conn, ns: Namespace)
    requires TablesInv(s) && MadeListed(s)
    ensures MadeListed(NamespacePublished(env, s, c, ns))
  {
    var s' := NamespacePublished(env, s, c, ns);
    NamespacePublishGrows(env, s, c, ns);
    forall k | k in s'.pubs && !s'.pubs[k].initiated ensures ListedFor(s', k) {
      if c != 0 && k.1 == c && Asked(env, s, (ns, c), k.0) {
        MadeIsListed(env, s, c, ns, k);
      } else {
        if c != 0 {
          NamespacePublishHandler(env, s, c, ns, k);
        }
        ListedGrows(s, s', k);
      }
    }
  }

  lemma NamespaceSubscribeListed(env: Env, s: Tables, c: Conn, ns: Namespace)
    requires MadeListed(s)
    ensures MadeListed(NamespaceSubscribed(env, s, c, ns))
  {
    var s' := NamespaceSubscribed(env, s, c, ns);
    forall k | k in s'.pubs && !s'.pubs[k].initiated ensures ListedFor(s', k) {
      NamespaceSubscribeHandler(env, s, c, ns, k);
      ListedGrows(s, s', k);
    }
  }

  lemma NamespaceDoneListed(s: Tables, c: Conn, ns: Namespace)
    requires MadeListed(s)
    ensures MadeListed(NamespaceDone(s, c, ns))
  {
    var s' := NamespaceDone(s, c, ns);
    forall k | k in s'.pubs && !s'.pubs[k].initiated ensures ListedFor(s', k) {
      NamespaceDoneExact(s, c, ns, k);
      var n :| (n, k.1) in s.announced && k.0 in s.announced[(n, k.1)];
      assert (n, k.1) != (ns, c) && (n, k.1) in s'.announced;
    }
  }

  lemma PurgedListed(s: Tables, c: Conn)
    requires MadeListed(s)
    ensures MadeListed(Purged(s, c))
  {
    var s' := Purged(s, c);
    forall k | k in s'.pubs && !s'.pubs[k].initiated ensures ListedFor(s', k) {
      var n :| (n, k.1) in s.announced && k.0 in s.announced[(n, k.1)];
      assert (n, k.1) in s'.announced;
    }
  }

  lemma {:induction false} AllAnnounced(env: Env, s: Tables, subs: seq<(Conn, Req)>)
    ensures UnsubscribedAll(env, s, subs).announced == s.announced
  {
    if subs != [] {
      AllAnnounced(env, s, subs[..|subs| - 1]);
    }
  }

  lemma {:induction false} EachAnnounced(env: Env, s: Tables, c: Conn, rs: seq<Req>)
    ensures UnsubscribedEach(env, s, c, rs).announced == s.announced
  {
    if rs != [] {
      EachAnnounced(env, s, c, rs[..|rs| - 1]);
    }
  }

  lemma {:induction false} UnnamedAnnounced(env: Env, s: Tables, c: Conn, nss: seq<Namespace>)
    ensures UnnamedEach(env, s, c, nss).announced == s.announced
  {
    if nss != [] {
      UnnamedAnnounced(env, s, c, nss[..|nss| - 1]);
    }
  }

  lemma CloseListed(env: Env, s: Tables, c: Conn, nss: seq<Namespace>)
    requires MadeListed(s)
    ensures MadeListed(Closed(env, s, c, nss))
  {
    var s1 := UnnamedEach(env, s, c, nss);
    UnnamedShrinks(env, s, c, nss);
    UnnamedAnnounced(env, s, c, nss);
    ShrinksListed(s, s1);
    var rs := Sorted(Requests(s1, c));
    EachShrinks(env, s1, c, rs);
    EachAnnounced(env, s1, c, rs);
    ShrinksListed(s1, UnsubscribedEach(env, s1, c, rs));
    PurgedListed(UnsubscribedEach(env, s1, c, rs), c);
  }

  lemma PublishDoneListed(env: Env, s: Tables, c: Conn, t: Track, detached: bool)
    requires MadeListed(s)
    ensures MadeListed(PublishDone(env, s, c, t, detached))
  {
    var s1 := s.(pubs := s.pubs - {(t, c)});
    AllAnnounced(env, s1, SubscriptionsOf(s1, t, Sorted(SubscribersOf(s1, t))));
    PublishDoneShrinks(env, s, c, t, detached);
    ShrinksListed(s, PublishDone(env, s, c, t, detached));
  }

  lemma EventListed(env: Env, s: Tables, e: Event)
    requires TablesInv(s) && MadeListed(s)
    ensures MadeListed(Happen(env, s, e))
  {
    match e
    case Subscribe(c, r, t, order) => ProcessedListed(env, s, c, r, t, order);
    case PeerSubscribe(t, order) => ProcessedListed(env, s, 0, 0, t, order);
    case Publish(c, t) => PublishListed(env, s, c, t);
    case PublishNamespace(c, ns) => NamespacePublishKeepsListed(env, s, c, ns);
    case NamespaceIsDone(c, ns) => NamespaceDoneListed(s, c, ns);
    case PublishIsDone(c, t, detached) => PublishDoneListed(env, s, c, t, detached);
    case SubscribeNamespace(c, ns) => NamespaceSubscribeListed(env, s, c, ns);
    case Close(c, nss) => CloseListed(env, s, c, nss);
    case _ =>
      OthersShrink(env, s, e);
      ShrinksListed(s, Happen(env, s, e));
  }

  /** Over every run a handler that the relay made at an announcer is listed for a namespace that the announcer
      still has: once all of them are done, the handler is gone. */
  lemma {:induction false} AlwaysListed(envs: seq<Env>, es: seq<Event>)
    requires |envs| == |es| && Run(envs, EMPTY_TABLES, es)
    ensures MadeListed(After(envs, EMPTY_TABLES, es))
  {
    if es != [] {
      AlwaysListed(envs[..|es| - 1], es[..|es| - 1]);
      AlwaysAgree(envs[..|es| - 1], es[..|es| - 1]);
      EventListed(envs[|es| - 1], After(envs[..|es| - 1], EMPTY_TABLES, es[..|es| - 1]), es[|es| - 1]);
    }
  }
}
