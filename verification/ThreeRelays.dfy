/**
 Three relays in a line, 1 - 2 - 3, with a subscriber at relay 3: a network that the delivery theorem
 speaks about, a stream that crosses it, and what a change of route leaves behind.
 */
module ThreeRelays {
  import opened Ordered
  import opened Sessions
  import opened SnsRouting
  import opened SnsNetwork
  import opened SnsGrowth
  import opened Bytes
  import opened DataHeaders
  import opened Forwarding
  import opened Delivery

  const LINKS: Links := map[(1, 1) := (2, 1), (2, 1) := (1, 1), (2, 2) := (3, 1), (3, 1) := (2, 2)]
  const ROUTES: Routes := map[1 := map[2 := 1, 3 := 1], 2 := map[1 := 1, 3 := 2], 3 := map[1 := 1, 2 := 1]]

  function Hops(u: NodeId, v: NodeId): nat {
    if u == v then 0 else if u == 2 || v == 2 then 1 else 2
  }

  /** The network with these relays, where ends (2, 1) and (3, 1) have read so many messages. */
  function Line(a: Relay, b: Relay, c: Relay, m: int, n: int): Net {
    Net(map[1 := a, 2 := b, 3 := c], map[(1, 1) := 0, (2, 1) := m, (2, 2) := 0, (3, 1) := n])
  }

  const A0 := Relay(1, map[1 := NEW_SESSION], map[2 := 1, 3 := 1], map[])
  const B0 := Relay(2, map[1 := NEW_SESSION, 2 := NEW_SESSION], map[1 := 1, 3 := 2], map[])
  const C0 := Relay(3, map[1 := NEW_SESSION], map[1 := 1, 2 := 1], map[])

  /** Relay 1 learns of the subscriber, relay 2 passes the set on, relay 3 finds itself in it. */
  const A1 := A0.(sessions := map[1 := Session(true, map[7 := NodeSet(1, {3})], map[], 2, [Advertise(1, {3})])])
  const B1 := B0.(sessions := map[1 := NEW_SESSION,
                                  2 := Session(true, map[], map[(1, 1) := NodeSet(1, {3})], 2, [Advertise(1, {3})])],
                  fib := map[(1, 1) := map[2 := FibEntry(5, map[], 1)]])
  const C1 := C0.(fib := map[(1, 1) := map[SELF := FibEntry(6, map[], 0)]])

  // ---------------------------------------------------------------- runs, one step at a time

  lemma {:induction false} RunMore(start: Net, links: Links, steps: seq<Step>, step: Step, net: Net, end: Net)
    requires IsRun(start, links, steps) && After(start, links, steps) == net
    requires Enabled(net, links, step) && Apply(net, links, step) == end
    ensures IsRun(start, links, steps + [step]) && After(start, links, steps + [step]) == end
    decreases |steps|
  {
    if steps == [] {
      assert steps + [step] == [step] && [step][1..] == [];
    } else {
      RunMore(Apply(start, links, steps[0]), links, steps[1..], step, net, end);
      assert (steps + [step])[1..] == steps[1..] + [step];
    }
  }

  lemma RunOfThree(start: Net, links: Links, a: Step, b: Step, c: Step, one: Net, two: Net, end: Net)
    requires Enabled(start, links, a) && Apply(start, links, a) == one
    requires Enabled(one, links, b) && Apply(one, links, b) == two
    requires Enabled(two, links, c) && Apply(two, links, c) == end
    ensures IsRun(start, links, [] + [a] + [b] + [c]) && After(start, links, [] + [a] + [b] + [c]) == end
  {
    assert After(start, links, []) == start;
    RunMore(start, links, [], a, start, one);
    RunMore(start, links, [] + [a], b, one, two);
    RunMore(start, links, [] + [a] + [b], c, two, end);
  }

  lemma SettledBy(start: Net, links: Links, routes: Routes, steps: seq<Step>, end: Net)
    requires GrowInitial(start, links, routes) && GrowSteps(routes, steps)
    requires IsRun(start, links, steps) && After(start, links, steps) == end
    requires forall x | x in links :: ReadCount(end, x) == |Wire(end, links, x)|
    ensures Settled(end, links, routes)
  {
  }

  lemma ReachedBy(start: Net, links: Links, steps: seq<Step>, end: Net)
    requires Initial(start, links) && IsRun(start, links, steps) && After(start, links, steps) == end
    ensures Reached(end, links)
  {
  }

  // ---------------------------------------------------------------- the steps

  lemma StartRelay(u: NodeId)
    requires u in ROUTES
    ensures Line(A0, B0, C0, 0, 0).relays[u] == NewRelay(u, LINKS, ROUTES[u])
  {
    var es: set<SessionId> := if u == 2 then {1, 2} else {1};
    forall e ensures e in SessionsAt(u, LINKS) <==> e in es {
      assert (u, e) in LINKS ==> (u, e).0 == u && (u, e).1 == e;
    }
  }

  lemma InitialBy(net: Net, links: Links, routes: Routes)
    requires ValidLinks(links) && forall x | x in links :: x.0 in net.relays && x in net.read && net.read[x] == 0
    requires forall u | u in net.relays :: u in routes && u !in routes[u] && net.relays[u] == NewRelay(u, links, routes[u])
    ensures GrowInitial(net, links, routes)
  {
  }

  lemma LinkAt(x: End)
    requires x in LINKS
    ensures LINKS[x] in LINKS && LINKS[LINKS[x]] == x && x.1 != SELF
  {
    if x == (1, 1) {
      assert LINKS[(2, 1)] == (1, 1);
    } else if x == (2, 1) {
      assert LINKS[(1, 1)] == (2, 1);
    } else if x == (2, 2) {
      assert LINKS[(3, 1)] == (2, 2);
    } else {
      assert x == (3, 1) && LINKS[(2, 2)] == (3, 1);
    }
  }

  lemma LinksValid()
    ensures ValidLinks(LINKS)
  {
    forall x | x in LINKS ensures LINKS[x] in LINKS && LINKS[LINKS[x]] == x && x.1 != SELF {
      LinkAt(x);
    }
  }

  lemma NothingRead()
    ensures var net := Line(A0, B0, C0, 0, 0); forall x | x in LINKS :: x.0 in net.relays && x in net.read && net.read[x] == 0
  {
  }

  lemma StartInitial()
    ensures GrowInitial(Line(A0, B0, C0, 0, 0), LINKS, ROUTES)
  {
    var net := Line(A0, B0, C0, 0, 0);
    LinksValid();
    NothingRead();
    assert net.relays.Keys == {1, 2, 3} && ROUTES.Keys == {1, 2, 3};
    forall u | u in net.relays ensures u in ROUTES && u !in ROUTES[u] && net.relays[u] == NewRelay(u, LINKS, ROUTES[u]) {
      StartRelay(u);
    }
    InitialBy(net, LINKS, ROUTES);
  }

  lemma Wires(a: Relay, b: Relay, c: Relay, m: int, n: int)
    ensures var net := Line(a, b, c, m, n);
            && Wire(net, LINKS, (1, 1)) == SessionIn(b, 1).sent && Wire(net, LINKS, (2, 1)) == SessionIn(a, 1).sent
            && Wire(net, LINKS, (2, 2)) == SessionIn(c, 1).sent && Wire(net, LINKS, (3, 1)) == SessionIn(b, 2).sent
            && ReadCount(net, (2, 1)) == m && ReadCount(net, (3, 1)) == n
            && ReadCount(net, (1, 1)) == 0 && ReadCount(net, (2, 2)) == 0
  {
  }

  lemma SubscribeAtOne(a: Relay, b: Relay, c: Relay, m: int, n: int, node: NodeId)
    requires a.self == 1
    ensures Apply(Line(a, b, c, m, n), LINKS, Subscribe((1, 1), 7, node)) ==
            Line(WithSession(a, 1, AddSub(SessionIn(a, 1), 7, node)), b, c, m, n)
  {
    var net := Line(a, b, c, m, n);
    var a' := WithSession(a, 1, AddSub(SessionIn(a, 1), 7, node));
    assert net.relays[1 := a'] == map[1 := a', 2 := b, 3 := c];
  }

  lemma ReadAtTwo(a: Relay, b: Relay, c: Relay, m: int, n: int, b': Relay)
    requires b'.self == 2
    ensures ReadOne(Line(a, b, c, m, n), (2, 1), b') == Line(a, b', c, m + 1, n)
  {
    var net := Line(a, b, c, m, n);
    assert net.relays[2 := b'] == map[1 := a, 2 := b', 3 := c];
    assert net.read[(2, 1) := m + 1] == map[(1, 1) := 0, (2, 1) := m + 1, (2, 2) := 0, (3, 1) := n];
  }

  lemma ReadAtThree(a: Relay, b: Relay, c: Relay, m: int, n: int, c': Relay)
    requires c'.self == 3
    ensures ReadOne(Line(a, b, c, m, n), (3, 1), c') == Line(a, b, c', m, n + 1)
  {
    var net := Line(a, b, c, m, n);
    assert net.relays[3 := c'] == map[1 := a, 2 := b, 3 := c'];
    assert net.read[(3, 1) := n + 1] == map[(1, 1) := 0, (2, 1) := m, (2, 2) := 0, (3, 1) := n + 1];
  }

  lemma SortedOne(n: int)
    ensures Sorted({n}) == [n]
  {
    assert |{n}| == 1;
    SortedMembers({n}, Sorted({n})[0]);
  }

  lemma MarkOne(r: Relay, key: Ingress, ref: int, n: NodeId)
    ensures MarkAll(r, key, ref, [n]) == Mark(r, key, ref, n)
  {
    assert [n][..0] == [];
  }

  /** A relay told of a set that is itself alone keeps the row that leads to its own client manager. */
  lemma OwnSet(r: Relay, key: Ingress, ref: int)
    requires r.fib == map[]
    ensures OnAdvertise(r, key, {r.self}, ref) == r.(fib := map[key := map[SELF := FibEntry(ref, map[], 0)]])
  {
    SortedOne(r.self);
    MarkOne(Opened(r, key), key, ref, r.self);
    assert Mark(Opened(r, key), key, ref, r.self).fib == map[key := map[SELF := FibEntry(ref, map[], 0)]];
  }

  /** A relay told of one other node passes the set on by its best session to that node. */
  lemma PassOn(r: Relay, key: Ingress, ref: int, n: NodeId, e: SessionId)
    requires r.fib == map[] && n != r.self && n in r.best && r.best[n] == e
    requires e in r.sessions && r.sessions[e] == NEW_SESSION
    ensures OnAdvertise(r, key, {n}, ref) ==
            r.(sessions := r.sessions[e := AddPeer(NEW_SESSION, key, n)], fib := map[key := map[e := FibEntry(ref, map[], 1)]])
  {
    SortedOne(n);
    MarkOne(Opened(r, key), key, ref, n);
    assert Mark(Opened(r, key), key, ref, n).fib == map[key := map[e := FibEntry(ref, map[], 1)]];
  }

  lemma FirstSubscriber()
    ensures WithSession(A0, 1, AddSub(SessionIn(A0, 1), 7, 3)) == A1
  {
    assert {} + {3} == {3};
    assert AddSub(NEW_SESSION, 7, 3) == Session(true, map[7 := NodeSet(1, {3})], map[], 2, [Advertise(1, {3})]);
    assert A0.sessions[1 := AddSub(NEW_SESSION, 7, 3)] == A1.sessions;
  }

  lemma PassedOn()
    ensures OnAdvertise(B0, (1, 1), {3}, 5) == B1
  {
    PassOn(B0, (1, 1), 5, 3, 2);
    FirstPeerSet((1, 1), 3);
    var s := AddPeer(NEW_SESSION, (1, 1), 3);
    assert map[1 := NEW_SESSION, 2 := NEW_SESSION][2 := s] == map[1 := NEW_SESSION, 2 := s];
  }

  lemma FirstPeerSet(key: Ingress, n: NodeId)
    ensures AddPeer(NEW_SESSION, key, n) == Session(true, map[], map[key := NodeSet(1, {n})], 2, [Advertise(1, {n})])
  {
    assert {} + {n} == {n} && [] + [Advertise(1, {n})] == [Advertise(1, {n})];
  }

  lemma TakenIn()
    ensures OnAdvertise(C0, (1, 1), {3}, 6) == C1
  {
    OwnSet(C0, (1, 1), 6);
  }

  /** An end reads an advertise for a row that its relay does not have. */
  lemma ReadAdvertise(net: Net, links: Links, x: End, ref: int, id: SnsId, nodes: set<NodeId>)
    requires x in links && 0 <= ReadCount(net, x) < |Wire(net, links, x)| && Next(net, links, x) == Advertise(id, nodes)
    requires FreshRef(RelayAt(net, x.0), (x.1, id), ref)
    ensures Enabled(net, links, Receive(x, ref))
    ensures Apply(net, links, Receive(x, ref)) == ReadOne(net, x, OnAdvertise(RelayAt(net, x.0), (x.1, id), nodes, ref))
  {
  }

  const ASK := Subscribe((1, 1), 7, 3)
  const PASS := Receive((2, 1), 5)
  const TAKE := Receive((3, 1), 6)

  lemma AskStep()
    ensures Enabled(Line(A0, B0, C0, 0, 0), LINKS, ASK)
    ensures Apply(Line(A0, B0, C0, 0, 0), LINKS, ASK) == Line(A1, B0, C0, 0, 0)
  {
    SubscribeAtOne(A0, B0, C0, 0, 0, 3);
    FirstSubscriber();
  }

  lemma PassStep()
    ensures Enabled(Line(A1, B0, C0, 0, 0), LINKS, PASS)
    ensures Apply(Line(A1, B0, C0, 0, 0), LINKS, PASS) == Line(A1, B1, C0, 1, 0)
  {
    Wires(A1, B0, C0, 0, 0);
    ReadAdvertise(Line(A1, B0, C0, 0, 0), LINKS, (2, 1), 5, 1, {3});
    PassRead();
  }

  lemma PassRead()
    ensures ReadOne(Line(A1, B0, C0, 0, 0), (2, 1), OnAdvertise(B0, (1, 1), {3}, 5)) == Line(A1, B1, C0, 1, 0)
  {
    PassedOn();
    ReadAtTwo(A1, B0, C0, 0, 0, B1);
  }

  lemma TakeStep()
    ensures Enabled(Line(A1, B1, C0, 1, 0), LINKS, TAKE)
    ensures Apply(Line(A1, B1, C0, 1, 0), LINKS, TAKE) == Settle()
  {
    Wires(A1, B1, C0, 1, 0);
    ReadAdvertise(Line(A1, B1, C0, 1, 0), LINKS, (3, 1), 6, 1, {3});
    TakeRead();
  }

  lemma TakeRead()
    ensures ReadOne(Line(A1, B1, C0, 1, 0), (3, 1), OnAdvertise(C0, (1, 1), {3}, 6)) == Settle()
  {
    TakenIn();
    ReadAtThree(A1, B1, C0, 1, 0, C1);
  }

  lemma ThreeSteps()
    ensures var start, steps := Line(A0, B0, C0, 0, 0), [] + [ASK] + [PASS] + [TAKE];
            IsRun(start, LINKS, steps) && After(start, LINKS, steps) == Settle()
  {
    AskStep();
    PassStep();
    TakeStep();
    RunOfThree(Line(A0, B0, C0, 0, 0), LINKS, ASK, PASS, TAKE, Line(A1, B0, C0, 0, 0), Line(A1, B1, C0, 1, 0), Settle());
  }

  // ---------------------------------------------------------------- a settled network

  function Settle(): Net {
    Line(A1, B1, C1, 1, 1)
  }

  lemma GrowingSteps()
    ensures GrowSteps(ROUTES, [] + [ASK] + [PASS] + [TAKE])
  {
    assert ROUTES[1][3] == 1;
  }

  lemma AllRead(x: End)
    requires x in LINKS
    ensures ReadCount(Settle(), x) == |Wire(Settle(), LINKS, x)|
  {
    Wires(A1, B1, C1, 1, 1);
    assert x == (1, 1) || x == (2, 1) || x == (2, 2) || x == (3, 1);
  }

  lemma SettledExample()
    ensures Settled(Settle(), LINKS, ROUTES)
  {
    StartInitial();
    ThreeSteps();
    GrowingSteps();
    forall x | x in LINKS ensures ReadCount(Settle(), x) == |Wire(Settle(), LINKS, x)| {
      AllRead(x);
    }
    SettledBy(Line(A0, B0, C0, 0, 0), LINKS, ROUTES, [] + [ASK] + [PASS] + [TAKE], Settle());
  }

  lemma ShortensAt(u: NodeId, n: NodeId)
    requires u in {1, 2, 3} && n in {1, 2, 3} && n != u
    ensures u in ROUTES && n in ROUTES[u] && (u, ROUTES[u][n]) in LINKS
    ensures Hops(LINKS[(u, ROUTES[u][n])].0, n) < Hops(u, n)
  {
    if u == 1 {
      assert ROUTES[1][n] == 1 && LINKS[(1, 1)] == (2, 1);
    } else if u == 3 {
      assert ROUTES[3][n] == 1 && LINKS[(3, 1)] == (2, 2);
    } else if n == 1 {
      assert ROUTES[2][1] == 1 && LINKS[(2, 1)] == (1, 1);
    } else {
      assert ROUTES[2][3] == 2 && LINKS[(2, 2)] == (3, 1);
    }
  }

  lemma ShortensExample()
    ensures Shortens(Settle(), LINKS, ROUTES, Hops)
  {
    assert Settle().relays.Keys == {1, 2, 3};
    forall u, n | u in Settle().relays && n in Settle().relays && n != u
      ensures u in ROUTES && n in ROUTES[u] && (u, ROUTES[u][n]) in LINKS
      ensures Hops(LINKS[(u, ROUTES[u][n])].0, n) < Hops(u, n)
    {
      ShortensAt(u, n);
    }
  }

  lemma WithinExample()
    ensures RoutesWithin(Settle(), ROUTES)
  {
    assert ROUTES[1].Keys == {2, 3} && ROUTES[2].Keys == {1, 3} && ROUTES[3].Keys == {1, 2};
    assert Settle().relays.Keys == {1, 2, 3};
  }

  lemma FitExample()
    ensures IdsFit(Settle())
  {
  }

  /** The hypotheses of the delivery theorem can be met. */
  lemma ReadyExample()
    ensures Ready(Settle(), LINKS, ROUTES, Hops)
  {
    SettledExample();
    ShortensExample();
    WithinExample();
    FitExample();
  }

  lemma ToldExample()
    ensures Told(Settle(), LINKS, (2, 1)) == map[1 := {3}]
  {
    Wires(A1, B1, C1, 1, 1);
    assert Prefix([Advertise(1, {3})], 1) == [] + [Advertise(1, {3})];
    ReplayOne([], Advertise(1, {3}));
  }

  lemma HeaderExample(h: Header, payload: seq<byte>)
    requires InRange(h) && h.kind == NEW_STREAM && h.sns == 1
    ensures var data := Encode(h) + payload;
            FullHeader(data, NEW_STREAM) && HeadOf(data) == h && data[HeaderLen(NEW_STREAM)..] == payload
  {
    DecodeEncode(h, payload, DEFAULT_HEADER);
    EncodedFields(h, payload);
  }

  lemma OnceRewritten(f: Flight, g: Flight)
    requires FullHeader(f.data, NEW_STREAM) && g.data == Rewrite(f.data, 1)
    ensures FullHeader(g.data, NEW_STREAM) && SnsOf(g) == 1 && TrackOf(g) == TrackOf(f) && PayloadOf(g) == PayloadOf(f)
  {
    RewriteKeepsHeader(f.data, 1);
  }

  /** A stream with the advertised id that comes to relay 2 goes on to relay 3, and there to its clients. */
  lemma FlightExample(f: Flight, g: Flight, subs: Subscribers)
    requires f.at == (2, 1) && FullHeader(f.data, NEW_STREAM) && SnsOf(f) == 1 && (3, TrackOf(f)) in subs
    requires g == Flight((3, 1), Rewrite(f.data, 1))
    ensures Land(Settle(), LINKS, subs, Launch(f), 0) == Air([g], multiset{})
    ensures Land(Settle(), LINKS, subs, Air([g], multiset{}), 0) == Air([], multiset{(3, TrackOf(f), PayloadOf(f))})
  {
    FirstHop(f, subs);
    OnceRewritten(f, g);
    LastHop(g, subs);
  }

  /** A stream that begins with a header of the advertised id may enter at relay 2. */
  lemma MayEnter(h: Header, payload: seq<byte>)
    requires InRange(h) && h.kind == NEW_STREAM && h.sns == 1
    ensures FlightOk(Settle(), LINKS, Flight((2, 1), Encode(h) + payload))
  {
    HeaderExample(h, payload);
    ToldExample();
  }

  lemma FirstHop(f: Flight, subs: Subscribers)
    requires f.at == (2, 1) && FullHeader(f.data, NEW_STREAM) && SnsOf(f) == 1
    ensures Land(Settle(), LINKS, subs, Launch(f), 0) == Air([Flight((3, 1), Rewrite(f.data, 1))], multiset{})
  {
    var row: FibRow := map[2 := FibEntry(5, map[], 1)];
    assert RelayAt(Settle(), 2) == B1;
    LandAlone(Settle(), row, subs, f, 2);
    OutOfTwo(f);
  }

  lemma OutOfTwo(f: Flight)
    requires f.at == (2, 1)
    ensures CopyTo(LINKS, map[2 := FibEntry(5, map[], 1)], f, 2) == [Flight((3, 1), Rewrite(f.data, 1))]
  {
    assert FarEnd(LINKS, (2, 2)) == (3, 1);
  }

  /** A stream lands where its row has one egress. */
  lemma LandAlone(net: Net, row: FibRow, subs: Subscribers, f: Flight, e: SessionId)
    requires IngressRow(net, f) == row && row.Keys == {e}
    ensures Land(net, LINKS, subs, Air([f], multiset{}), 0) == Air(CopyTo(LINKS, row, f, e), HeardBy(subs, row, f))
  {
    SortedOne(e);
    OneCopy(row, f, e);
    assert [f][..0] + [f][1..] == [];
    assert [] + CopyTo(LINKS, row, f, e) == CopyTo(LINKS, row, f, e);
  }

  lemma OneCopy(row: FibRow, f: Flight, e: SessionId)
    ensures Copies(LINKS, row, f, [e]) == CopyTo(LINKS, row, f, e)
  {
    assert [e][..0] == [];
    assert Gather([], Copier(LINKS, row, f)) == [];
  }

  lemma LastHop(f: Flight, subs: Subscribers)
    requires f.at == (3, 1) && FullHeader(f.data, NEW_STREAM) && SnsOf(f) == 1 && (3, TrackOf(f)) in subs
    ensures Land(Settle(), LINKS, subs, Air([f], multiset{}), 0) == Air([], multiset{(3, TrackOf(f), PayloadOf(f))})
  {
    var row: FibRow := map[SELF := FibEntry(6, map[], 0)];
    assert RelayAt(Settle(), 3) == C1;
    LandAlone(Settle(), row, subs, f, SELF);
  }

  // ---------------------------------------------------------------- a route that is lost

  const B2 := B1.(best := map[])
  const A2 := A1.(sessions := map[1 := Session(true, map[7 := NodeSet(1, {2, 3})], map[], 2,
                                                [Advertise(1, {3}), Advertise(1, {2, 3})])])

  lemma SecondSubscriber()
    ensures WithSession(A1, 1, AddSub(SessionIn(A1, 1), 7, 2)) == A2
  {
    var was := A1.sessions[1];
    assert {3} + {2} == {2, 3};
    assert was.sent + [Advertise(1, {2, 3})] == A2.sessions[1].sent;
    assert was.subSns[7 := NodeSet(1, {2, 3})] == A2.sessions[1].subSns;
    assert AddSub(was, 7, 2) == A2.sessions[1];
    assert A1.sessions[1 := A2.sessions[1]] == A2.sessions;
  }

  lemma RerouteTwo(a: Relay, b: Relay, c: Relay, m: int, n: int, best: map<NodeId, SessionId>)
    requires b.self == 2
    ensures Apply(Line(a, b, c, m, n), LINKS, Reroute(2, best)) == Line(a, b.(best := best), c, m, n)
  {
    var b' := b.(best := best);
    assert Line(a, b, c, m, n).relays[2 := b'] == map[1 := a, 2 := b', 3 := c];
  }

  const LOSE := Reroute(2, map[])
  const ASK_AGAIN := Subscribe((1, 1), 7, 2)

  lemma LoseStep()
    ensures Enabled(Settle(), LINKS, LOSE) && Apply(Settle(), LINKS, LOSE) == Line(A1, B2, C1, 1, 1)
  {
    RerouteTwo(A1, B1, C1, 1, 1, map[]);
  }

  lemma AskAgainStep()
    ensures Enabled(Line(A1, B2, C1, 1, 1), LINKS, ASK_AGAIN)
    ensures Apply(Line(A1, B2, C1, 1, 1), LINKS, ASK_AGAIN) == Line(A2, B2, C1, 1, 1)
  {
    SubscribeAtOne(A1, B2, C1, 1, 1, 2);
    SecondSubscriber();
  }

  lemma LostReached()
    ensures Reached(Line(A2, B2, C1, 1, 1), LINKS)
  {
    var start, steps := Line(A0, B0, C0, 0, 0), [] + [ASK] + [PASS] + [TAKE];
    StartInitial();
    ThreeSteps();
    LoseStep();
    RunMore(start, LINKS, steps, LOSE, Settle(), Line(A1, B2, C1, 1, 1));
    AskAgainStep();
    RunMore(start, LINKS, steps + [LOSE], ASK_AGAIN, Line(A1, B2, C1, 1, 1), Line(A2, B2, C1, 1, 1));
    ReachedBy(start, LINKS, steps + [LOSE] + [ASK_AGAIN], Line(A2, B2, C1, 1, 1));
  }

  function ReadAgain(): Net {
    ReadOne(Line(A2, B2, C1, 1, 1), (2, 1), OnAdvertise(B2, (1, 1), {2, 3}, 8))
  }

  lemma ReadAgainStep()
    ensures Enabled(Line(A2, B2, C1, 1, 1), LINKS, Receive((2, 1), 8))
    ensures Next(Line(A2, B2, C1, 1, 1), LINKS, (2, 1)) == Advertise(1, {2, 3})
    ensures Apply(Line(A2, B2, C1, 1, 1), LINKS, Receive((2, 1), 8)) == ReadAgain()
  {
    Wires(A2, B2, C1, 1, 1);
    ReadAdvertise(Line(A2, B2, C1, 1, 1), LINKS, (2, 1), 8, 1, {2, 3});
  }

  lemma LostTargets()
    ensures FreshRef(B2, (1, 1), 8) && 2 in Row(B2, (1, 1)) && 2 !in Targets(B2, {2, 3}) && (2, 1) !in B2.sessions[2].peerSns
  {
  }

  lemma ReachedRelay(net: Net, u: NodeId, r: Relay)
    requires Reached(net, LINKS) && u in net.relays && net.relays[u] == r
    ensures RelayInv(r)
  {
    ReachedInv(net, LINKS);
    assert RelayOk(net.relays[u]);
  }

  lemma LostRelayOk()
    ensures RelayInv(B2)
  {
    LostReached();
    ReachedRelay(Line(A2, B2, C1, 1, 1), 2, B2);
  }

  /** Relay 2 loses its route to relay 3 and is then told of the set again: the sweep takes the egress
      out of the row, but its session keeps the set, tells relay 3 nothing, and relay 3 keeps its row. */
  lemma StaleRowExample()
    ensures Apply(Line(A2, B2, C1, 1, 1), LINKS, Receive((2, 1), 8)) == ReadAgain()
    ensures 2 in Row(B2, (1, 1)) && 2 !in Row(RelayAt(ReadAgain(), 2), (1, 1))
    ensures SessionAt(ReadAgain(), (2, 2)) == B2.sessions[2] && (1, 1) in B2.sessions[2].peerSns
    ensures RelayAt(ReadAgain(), 3) == C1 && (1, 1) in C1.fib
  {
    ReadAgainStep();
    LostRelayOk();
    LostTargets();
    AdvertiseFrame(B2, (1, 1), {2, 3}, 8);
    SweepWithdrawsIff(B2, (1, 1), {2, 3}, 8, 2);
    SweptSession(B2, (1, 1), {2, 3}, 8, 2);
    ReadAtTwo(A2, B2, C1, 1, 1, OnAdvertise(B2, (1, 1), {2, 3}, 8));
  }
}
