/**
 Announces flood the peering network: a relay passes on every announce it did not have, on all its
 sessions but the one it came from.
 */
module Flooding {
  import opened Bytes
  import opened Ordered
  import opened Sessions
  import opened SnsNetwork
  import opened AnnounceTable

  datatype Outgoing = Outgoing(session: SessionId, announce: Announce, withdraw: bool)

  /** The same message on each of the sessions. */
  function ToEach(es: seq<SessionId>, a: Announce, withdraw: bool): (r: seq<Outgoing>)
    ensures |r| == |es| && forall i | 0 <= i < |es| :: r[i] == Outgoing(es[i], a, withdraw)
  {
    if es == [] then [] else ToEach(es[..|es| - 1], a, withdraw) + [Outgoing(es[|es| - 1], a, withdraw)]
  }

  /** What a relay with these sessions sends on receiving an announce or its withdrawal. */
  function Passed(t: Table, sessions: set<SessionId>, from: SessionId, a: Announce, withdraw: bool): seq<Outgoing> {
    var stop := if withdraw then a.track !in t.announces || !AnyListed(t.prefixes, a.track, |a.track.ns|)
                else a.source in Sources(t, a.track);
    if stop then [] else ToEach(Sorted(sessions - {from}), a, withdraw)
  }

  /** Those of the sessions that are connected, in their order. */
  function Connected(es: seq<SessionId>, up: set<SessionId>): seq<SessionId> {
    if es == [] then []
    else Connected(es[..|es| - 1], up) + if es[|es| - 1] in up then [es[|es| - 1]] else []
  }

  lemma {:induction false} ConnectedSorted(s: set<SessionId>, up: set<SessionId>)
    ensures Connected(Sorted(s), up) == Sorted(s * up)
  {
    if s == {} {
      assert s * up == {};
    } else {
      var m := Max(s);
      ConnectedSorted(s - {m}, up);
      assert Sorted(s)[..|s| - 1] == Sorted(s - {m});
      if m in up {
        MaxIs(s * up, m);
        assert s * up - {m} == (s - {m}) * up;
      } else {
        assert s * up == (s - {m}) * up;
      }
    }
  }

  /** What is put on the connected ones of the sessions. */
  function Sends(es: seq<SessionId>, up: set<SessionId>, a: Announce, withdraw: bool): seq<Outgoing> {
    if es == [] then []
    else Sends(es[..|es| - 1], up, a, withdraw) + if es[|es| - 1] in up then [Outgoing(es[|es| - 1], a, withdraw)] else []
  }

  lemma {:induction false} SendsAre(es: seq<SessionId>, up: set<SessionId>, a: Announce, withdraw: bool)
    ensures Sends(es, up, a, withdraw) == ToEach(Connected(es, up), a, withdraw)
  {
    if es != [] {
      var before, last := Connected(es[..|es| - 1], up), es[|es| - 1];
      SendsAre(es[..|es| - 1], up, a, withdraw);
      assert (before + [last])[..|before|] == before;
    }
  }

  lemma SendsNext(es: seq<SessionId>, i: nat, up: set<SessionId>, a: Announce, withdraw: bool)
    requires i < |es|
    ensures Sends(es[..i + 1], up, a, withdraw) ==
            Sends(es[..i], up, a, withdraw) + if es[i] in up then [Outgoing(es[i], a, withdraw)] else []
  {
    assert es[..i + 1][..i] == es[..i];
  }

  lemma MaxIs(s: set<int>, m: int)
    requires m in s && forall x | x in s :: x <= m
    ensures s != {} && Max(s) == m
  {
  }

  /** `up` holds the sessions that are connected; the others drop what is sent on them. */
  class AnnounceRelay {
    const base: AnnounceBase
    var sessions: set<SessionId>
    var up: set<SessionId>
    var sent: seq<Outgoing>

    constructor (base: AnnounceBase, sessions: set<SessionId>)
      ensures this.base == base && this.sessions == sessions == up && sent == []
    {
      this.base := base;
      this.sessions, this.up := sessions, sessions;
      sent := [];
    }

    method Send(e: SessionId, a: Announce, withdraw: bool)
      modifies this`sent
      ensures sent == if e in up then old(sent) + [Outgoing(e, a, withdraw)] else old(sent)
    {
      if e !in up {
        return;
      }
      sent := sent + [Outgoing(e, a, withdraw)];
    }

    method SendToAllBut(skip: set<SessionId>, a: Announce, withdraw: bool)
      modifies this`sent
      ensures sent == old(sent) + ToEach(Sorted((sessions - skip) * up), a, withdraw)
    {
      var order := Sorted(sessions - skip);
      for i := 0 to |order|
        invariant sent == old(sent) + Sends(order[..i], up, a, withdraw)
      {
        SendsNext(order, i, up, a, withdraw);
        Send(order[i], a, withdraw);
      }
      assert order[..|order|] == order;
      SendsAre(order, up, a, withdraw);
      ConnectedSorted(sessions - skip, up);
    }

    /** Nothing is passed on when an announce is known already, or a withdrawal finds no state. */
    method AnnounceInfoReceived(from: SessionId, a: Announce, withdraw: bool)
      modifies this`sent, base
      ensures base.View() == if withdraw then Deleted(old(base.View()), a) else Added(old(base.View()), a)
      ensures sent == old(sent) + Passed(old(base.View()), sessions * up, from, a, withdraw)
    {
      if !withdraw {
        var isNew := base.AddAnnounce(a);
        if !isNew {
          return;
        }
      } else {
        var removed := base.RemoveAnnounce(a);
        if !removed {
          return;
        }
      }
      assert (sessions - {from}) * up == sessions * up - {from};
      SendToAllBut({from}, a, withdraw);
    }

    /** A client's announce is sent on every connected session, whether or not it is new. */
    method ClientAnnounce(a: Announce, withdraw: bool)
      modifies this`sent, base
      ensures base.View() == if withdraw then Deleted(old(base.View()), a) else Added(old(base.View()), a)
      ensures sent == old(sent) + ToEach(Sorted(sessions * up), a, withdraw)
    {
      if !withdraw {
        var isNew := base.AddAnnounce(a);
      } else {
        var removed := base.RemoveAnnounce(a);
      }
      assert sessions - {} == sessions;
      SendToAllBut({}, a, withdraw);
    }
  }

  // ---------------------------------------------------------------- what is passed on, by the events before

  lemma {:induction false} ListedSomewhere(events: seq<AnnounceEvent>, f: FullName, k: nat)
    requires k <= |f.ns|
    ensures AnyListed(AnnounceTable.After(EMPTY_TABLE, events).prefixes, f, k) <==> k > 0 && Findable(events, f)
  {
    if k > 0 {
      ListedSomewhere(events, f, k - 1);
      FoundIff(events, f, f.ns[..k]);
    }
  }

  lemma FindableIsAnnounced(events: seq<AnnounceEvent>, f: FullName)
    requires f.ns != [] && Findable(events, f)
    ensures f in AnnounceTable.After(EMPTY_TABLE, events).announces
  {
    FoundIff(events, f, f.ns);
    AlwaysSound(events);
    var t := AnnounceTable.After(EMPTY_TABLE, events);
    assert f.ns in t.prefixes && f in t.prefixes[f.ns];
  }

  /** An announce is passed on, to every session but the one it came from, exactly when its source did not
      stand for the name; a withdrawal exactly when the name has a namespace and can still be found under it,
      so that of several sources' withdrawals in a row only the first is. */
  lemma PassedIff(events: seq<AnnounceEvent>, sessions: set<SessionId>, from: SessionId, a: Announce)
    ensures var t, all := AnnounceTable.After(EMPTY_TABLE, events), Sorted(sessions - {from});
            && Passed(t, sessions, from, a, false) ==
               (if Standing(events, a.track, a.source) then [] else ToEach(all, a, false))
            && Passed(t, sessions, from, a, true) ==
               (if a.track.ns != [] && Findable(events, a.track) then ToEach(all, a, true) else [])
  {
    TableIsHistory(events);
    assert a.source in Sources(AnnounceTable.After(EMPTY_TABLE, events), a.track) <==> Standing(events, a.track, a.source);
    ListedSomewhere(events, a.track, |a.track.ns|);
    if a.track.ns != [] && Findable(events, a.track) {
      FindableIsAnnounced(events, a.track);
    }
  }

  // ---------------------------------------------------------------- the network

  /** An announce on its way to an end of a session. */
  datatype Letter = Letter(at: End, announce: Announce)

  /** The name and the source of an announce: what a relay has at most one entry for. */
  type Key = (FullName, NodeId)

  /** `passed` counts, for each relay and key, the letters of that key the relay has passed on. */
  datatype Flood = Flood(tables: map<NodeId, Table>, letters: seq<Letter>, passed: multiset<(NodeId, Key)>)

  function KeyOf(a: Announce): Key {
    (a.track, a.source)
  }

  function TableAt(net: Flood, u: NodeId): Table {
    if u in net.tables then net.tables[u] else EMPTY_TABLE
  }

  predicate Has(net: Flood, u: NodeId, k: Key) {
    k.1 in Sources(TableAt(net, u), k.0)
  }

  function Posted(links: Links, u: NodeId, out: seq<Outgoing>): (r: seq<Letter>)
    ensures |r| == |out| && forall i | 0 <= i < |out| :: r[i] == Letter(FarEnd(links, (u, out[i].session)), out[i].announce)
  {
    if out == [] then []
    else Posted(links, u, out[..|out| - 1]) + [Letter(FarEnd(links, (u, out[|out| - 1].session)), out[|out| - 1].announce)]
  }

  /** Letter `i` arrives. */
  function Deliver(net: Flood, links: Links, i: nat): Flood
    requires i < |net.letters|
  {
    var m := net.letters[i];
    var u := m.at.0;
    var out := Passed(TableAt(net, u), SessionsAt(u, links), m.at.1, m.announce, false);
    Flood(net.tables[u := Added(TableAt(net, u), m.announce)],
        net.letters[..i] + net.letters[i + 1..] + Posted(links, u, out),
        if Has(net, u, KeyOf(m.announce)) then net.passed else net.passed + multiset{(u, KeyOf(m.announce))})
  }

  /** A client of relay `u` announces a name. */
  function Announced(net: Flood, links: Links, u: NodeId, track: FullName, flags: byte): Flood {
    var a := Announce(u, track, flags);
    net.(tables := net.tables[u := Added(TableAt(net, u), a)],
         letters := net.letters + Posted(links, u, ToEach(Sorted(SessionsAt(u, links)), a, false)))
  }

  lemma AddedHas(t: Table, a: Announce, k: Key)
    ensures k.1 in Sources(Added(t, a), k.0) <==> k.1 in Sources(t, k.0) || k == KeyOf(a)
  {
  }

  lemma DeliverHas(net: Flood, links: Links, i: nat, v: NodeId, k: Key)
    requires i < |net.letters|
    ensures var m := net.letters[i];
            Has(Deliver(net, links, i), v, k) <==> Has(net, v, k) || (v == m.at.0 && k == KeyOf(m.announce))
  {
    AddedHas(TableAt(net, v), net.letters[i].announce, k);
  }

  ghost predicate OnTheWay(net: Flood, y: End, k: Key) {
    exists i | 0 <= i < |net.letters| :: net.letters[i].at == y && KeyOf(net.letters[i].announce) == k
  }

  /** What a relay has, its neighbour over each session has or will be told. */
  ghost predicate Spreads(net: Flood, links: Links, x: End, k: Key) {
    Has(net, x.0, k) ==> Has(net, FarEnd(links, x).0, k) || OnTheWay(net, FarEnd(links, x), k)
  }

  ghost predicate LetterOk(net: Flood, links: Links, m: Letter) {
    m.at in links && Has(net, FarEnd(links, m.at).0, KeyOf(m.announce))
  }

  ghost predicate FloodInv(net: Flood, links: Links) {
    && ValidLinks(links) && (forall x | x in links :: x.0 in net.tables)
    && (forall i | 0 <= i < |net.letters| :: LetterOk(net, links, net.letters[i]))
    && (forall x, k | x in links :: Spreads(net, links, x, k))
    && (forall u, k :: net.passed[(u, k)] <= 1 && ((u, k) in net.passed ==> Has(net, u, k)))
  }

  // ---------------------------------------------------------------- one delivery

  lemma StillOnTheWay(net: Flood, links: Links, i: nat, y: End, k: Key)
    requires i < |net.letters| && OnTheWay(net, y, k)
    requires net.letters[i].at != y || KeyOf(net.letters[i].announce) != k
    ensures OnTheWay(Deliver(net, links, i), y, k)
  {
    var rest := net.letters[..i] + net.letters[i + 1..];
    var n :| 0 <= n < |net.letters| && net.letters[n].at == y && KeyOf(net.letters[n].announce) == k;
    var n' := if n < i then n else n - 1;
    assert rest[n'] == net.letters[n];
    assert Deliver(net, links, i).letters[n'] == rest[n'];
  }

  /** One of the letters posted goes over session `e`. */
  lemma PostedTo(links: Links, u: NodeId, es: set<SessionId>, a: Announce, e: SessionId) returns (n: nat)
    requires e in es
    ensures n < |es| && Posted(links, u, ToEach(Sorted(es), a, false))[n] == Letter(FarEnd(links, (u, e)), a)
  {
    SortedMembers(es, e);
    n :| 0 <= n < |Sorted(es)| && Sorted(es)[n] == e;
  }

  /** The letters a relay posts for a new announce that came on session `from`. */
  function Relayed(links: Links, u: NodeId, from: SessionId, a: Announce): seq<Letter> {
    Posted(links, u, ToEach(Sorted(SessionsAt(u, links) - {from}), a, false))
  }

  lemma DeliverLetters(net: Flood, links: Links, i: nat)
    requires i < |net.letters|
    ensures var m := net.letters[i];
            Deliver(net, links, i).letters ==
            net.letters[..i] + net.letters[i + 1..] +
            if Has(net, m.at.0, KeyOf(m.announce)) then [] else Relayed(links, m.at.0, m.at.1, m.announce)
  {
  }

  lemma InLetters(net: Flood, a: seq<Letter>, b: seq<Letter>, n: nat)
    requires net.letters == a + b && n < |b|
    ensures OnTheWay(net, b[n].at, KeyOf(b[n].announce))
  {
    assert net.letters[|a| + n] == b[n];
  }

  /** A relay that takes a new announce posts it on each of its other sessions. */
  lemma PassedOn(net: Flood, links: Links, i: nat, x: End)
    requires i < |net.letters| && x in links
    requires var m := net.letters[i]; x.0 == m.at.0 && x.1 != m.at.1 && !Has(net, x.0, KeyOf(m.announce))
    ensures OnTheWay(Deliver(net, links, i), FarEnd(links, x), KeyOf(net.letters[i].announce))
  {
    var m := net.letters[i];
    assert x.1 in SessionsAt(x.0, links) - {m.at.1};
    var n := PostedTo(links, x.0, SessionsAt(x.0, links) - {m.at.1}, m.announce, x.1);
    DeliverLetters(net, links, i);
    InLetters(Deliver(net, links, i), net.letters[..i] + net.letters[i + 1..],
              Relayed(links, x.0, m.at.1, m.announce), n);
  }

  lemma DeliverSpreads(net: Flood, links: Links, i: nat, x: End, k: Key)
    requires FloodInv(net, links) && i < |net.letters| && x in links
    ensures Spreads(Deliver(net, links, i), links, x, k)
  {
    var m, net' := net.letters[i], Deliver(net, links, i);
    assert LetterOk(net, links, m);
    DeliverHas(net, links, i, x.0, k);
    DeliverHas(net, links, i, links[x].0, k);
    assert Spreads(net, links, x, k);
    if Has(net', x.0, k) {
      if !Has(net, x.0, k) {
        if x != m.at {
          PassedOn(net, links, i, x);
        }
      } else if !Has(net', links[x].0, k) {
        StillOnTheWay(net, links, i, links[x], k);
      }
    }
  }

  lemma PostedOk(net: Flood, links: Links, u: NodeId, es: set<SessionId>, a: Announce, i: nat)
    requires ValidLinks(links) && es <= SessionsAt(u, links) && i < |es| && Has(net, u, KeyOf(a))
    ensures LetterOk(net, links, Posted(links, u, ToEach(Sorted(es), a, false))[i])
  {
    var e := Sorted(es)[i];
    assert e in Sorted(es);
    SortedMembers(es, e);
    assert (u, e) in links by {
      var x :| x in links && x.0 == u && x.1 == e;
      assert x == (u, e);
    }
  }

  lemma DeliverLetter(net: Flood, links: Links, i: nat, n: nat)
    requires FloodInv(net, links) && i < |net.letters| && n < |Deliver(net, links, i).letters|
    ensures LetterOk(Deliver(net, links, i), links, Deliver(net, links, i).letters[n])
  {
    var net' := Deliver(net, links, i);
    var rest := net.letters[..i] + net.letters[i + 1..];
    assert net'.letters == rest + Caused(net, links, i);
    if n < |rest| {
      assert net'.letters[n] == rest[n];
      OldLetter(net, links, i, if n < i then n else n + 1);
    } else {
      NewLetter(net, links, i, n - |rest|);
    }
  }

  lemma OldLetter(net: Flood, links: Links, i: nat, n: nat)
    requires FloodInv(net, links) && i < |net.letters| && n < |net.letters|
    ensures LetterOk(Deliver(net, links, i), links, net.letters[n])
  {
    assert LetterOk(net, links, net.letters[n]);
    DeliverHas(net, links, i, FarEnd(links, net.letters[n].at).0, KeyOf(net.letters[n].announce));
  }

  /** The letters that a delivery causes. */
  function Caused(net: Flood, links: Links, i: nat): seq<Letter>
    requires i < |net.letters|
  {
    var m := net.letters[i];
    Posted(links, m.at.0, Passed(TableAt(net, m.at.0), SessionsAt(m.at.0, links), m.at.1, m.announce, false))
  }

  lemma NewLetter(net: Flood, links: Links, i: nat, n: nat)
    requires FloodInv(net, links) && i < |net.letters| && n < |Caused(net, links, i)|
    ensures LetterOk(Deliver(net, links, i), links, Caused(net, links, i)[n])
  {
    var m := net.letters[i];
    DeliverHas(net, links, i, m.at.0, KeyOf(m.announce));
    PostedOk(Deliver(net, links, i), links, m.at.0, SessionsAt(m.at.0, links) - {m.at.1}, m.announce, n);
  }

  /** Each relay passes a key on at most once, and nothing is lost, whatever letter arrives next. */
  lemma DeliverKeeps(net: Flood, links: Links, i: nat)
    requires FloodInv(net, links) && i < |net.letters|
    ensures FloodInv(Deliver(net, links, i), links)
  {
    var net' := Deliver(net, links, i);
    forall n | 0 <= n < |net'.letters| ensures LetterOk(net', links, net'.letters[n]) {
      DeliverLetter(net, links, i, n);
    }
    forall x, k | x in links ensures Spreads(net', links, x, k) {
      DeliverSpreads(net, links, i, x, k);
    }
    forall u, k ensures net'.passed[(u, k)] <= 1 && ((u, k) in net'.passed ==> Has(net', u, k)) {
      DeliverHas(net, links, i, u, k);
    }
  }

  // ---------------------------------------------------------------- a client's announce

  lemma AnnouncedHas(net: Flood, links: Links, u: NodeId, track: FullName, flags: byte, v: NodeId, k: Key)
    ensures Has(Announced(net, links, u, track, flags), v, k) <==> Has(net, v, k) || (v == u && k == (track, u))
  {
    AddedHas(TableAt(net, v), Announce(u, track, flags), k);
  }

  lemma AnnouncedSpreads(net: Flood, links: Links, u: NodeId, track: FullName, flags: byte, x: End, k: Key)
    requires FloodInv(net, links) && x in links
    ensures Spreads(Announced(net, links, u, track, flags), links, x, k)
  {
    var net' := Announced(net, links, u, track, flags);
    AnnouncedHas(net, links, u, track, flags, x.0, k);
    AnnouncedHas(net, links, u, track, flags, links[x].0, k);
    assert Spreads(net, links, x, k);
    if Has(net, x.0, k) && !Has(net, links[x].0, k) {
      var n :| 0 <= n < |net.letters| && net.letters[n].at == links[x] && KeyOf(net.letters[n].announce) == k;
      assert net'.letters[n] == net.letters[n];
    } else if x.0 == u && k == (track, u) {
      assert x.1 in SessionsAt(u, links);
      var n := PostedTo(links, u, SessionsAt(u, links), Announce(u, track, flags), x.1);
      InLetters(net', net.letters, Posted(links, u, ToEach(Sorted(SessionsAt(u, links)), Announce(u, track, flags), false)), n);
    }
  }

  lemma AnnouncedLetter(net: Flood, links: Links, u: NodeId, track: FullName, flags: byte, n: nat)
    requires FloodInv(net, links) && n < |Announced(net, links, u, track, flags).letters|
    ensures LetterOk(Announced(net, links, u, track, flags), links, Announced(net, links, u, track, flags).letters[n])
  {
    var net' := Announced(net, links, u, track, flags);
    if n < |net.letters| {
      var m := net.letters[n];
      assert LetterOk(net, links, m);
      AnnouncedHas(net, links, u, track, flags, FarEnd(links, m.at).0, KeyOf(m.announce));
    } else {
      AnnouncedHas(net, links, u, track, flags, u, (track, u));
      PostedOk(net', links, u, SessionsAt(u, links), Announce(u, track, flags), n - |net.letters|);
    }
  }

  lemma AnnouncedKeeps(net: Flood, links: Links, u: NodeId, track: FullName, flags: byte)
    requires FloodInv(net, links)
    ensures FloodInv(Announced(net, links, u, track, flags), links)
  {
    var net' := Announced(net, links, u, track, flags);
    forall n | 0 <= n < |net'.letters| ensures LetterOk(net', links, net'.letters[n]) {
      AnnouncedLetter(net, links, u, track, flags, n);
    }
    forall x, k | x in links ensures Spreads(net', links, x, k) {
      AnnouncedSpreads(net, links, u, track, flags, x, k);
    }
    forall v, k ensures net'.passed[(v, k)] <= 1 && ((v, k) in net'.passed ==> Has(net', v, k)) {
      AnnouncedHas(net, links, u, track, flags, v, k);
    }
  }

  // ---------------------------------------------------------------- runs

  datatype FloodStep = ClientAnnounces(relay: NodeId, track: FullName, flags: byte) | Arrives(letter: nat)

  ghost predicate CanStep(net: Flood, step: FloodStep) {
    match step
    case ClientAnnounces(u, track, flags) => u in net.tables
    case Arrives(i) => i < |net.letters|
  }

  function StepFlood(net: Flood, links: Links, step: FloodStep): Flood
    requires step.Arrives? ==> step.letter < |net.letters|
  {
    match step
    case ClientAnnounces(u, track, flags) => Announced(net, links, u, track, flags)
    case Arrives(i) => Deliver(net, links, i)
  }

  ghost predicate FloodRun(net: Flood, links: Links, steps: seq<FloodStep>)
    decreases |steps|
  {
    steps == [] || (CanStep(net, steps[0]) && FloodRun(StepFlood(net, links, steps[0]), links, steps[1..]))
  }

  ghost function FloodAfter(net: Flood, links: Links, steps: seq<FloodStep>): Flood
    requires FloodRun(net, links, steps)
    decreases |steps|
  {
    if steps == [] then net else FloodAfter(StepFlood(net, links, steps[0]), links, steps[1..])
  }

  /** No announces and no letters yet. */
  ghost predicate Quiet(net: Flood, links: Links) {
    && ValidLinks(links) && (forall x | x in links :: x.0 in net.tables)
    && (forall u | u in net.tables :: net.tables[u] == EMPTY_TABLE)
    && net.letters == [] && net.passed == multiset{}
  }

  lemma {:induction false} FloodRunKeeps(net: Flood, links: Links, steps: seq<FloodStep>)
    requires FloodInv(net, links) && FloodRun(net, links, steps)
    ensures FloodInv(FloodAfter(net, links, steps), links)
    ensures net.tables.Keys <= FloodAfter(net, links, steps).tables.Keys
    decreases |steps|
  {
    if steps != [] {
      match steps[0]
      case ClientAnnounces(u, track, flags) =>
        AnnouncedKeeps(net, links, u, track, flags);
        FloodRunKeeps(StepFlood(net, links, steps[0]), links, steps[1..]);
      case Arrives(i) =>
        DeliverKeeps(net, links, i);
        FloodRunKeeps(StepFlood(net, links, steps[0]), links, steps[1..]);
    }
  }

  ghost predicate Flooded(net: Flood, links: Links) {
    exists start, steps :: Quiet(start, links) && FloodRun(start, links, steps) && net == FloodAfter(start, links, steps)
  }

  lemma QuietInv(net: Flood, links: Links)
    requires Quiet(net, links)
    ensures FloodInv(net, links)
  {
    forall x: End, k: Key | x in links ensures Spreads(net, links, x, k) {
      var u := x.0;
      assert u in net.tables;
      assert TableAt(net, u) == EMPTY_TABLE;
    }
  }

  lemma FloodedInv(net: Flood, links: Links)
    requires Flooded(net, links)
    ensures FloodInv(net, links)
  {
    var start, steps :| Quiet(start, links) && FloodRun(start, links, steps) && net == FloodAfter(start, links, steps);
    QuietInv(start, links);
    FloodRunKeeps(start, links, steps);
  }

  /** In any advert-only run each relay passes on a given name and source at most once. */
  lemma PassesOnce(net: Flood, links: Links, u: NodeId, k: Key)
    requires Flooded(net, links)
    ensures net.passed[(u, k)] <= 1
  {
    FloodedInv(net, links);
  }

  // ---------------------------------------------------------------- convergence

  /** Relays joined by a chain of sessions. */
  ghost predicate Chain(links: Links, path: seq<End>, u: NodeId, v: NodeId) {
    if path == [] then u == v
    else path[0] in links && path[0].0 == u && Chain(links, path[1..], FarEnd(links, path[0]).0, v)
  }

  lemma {:induction false} AlongChain(net: Flood, links: Links, path: seq<End>, u: NodeId, v: NodeId, k: Key)
    requires FloodInv(net, links) && net.letters == [] && Chain(links, path, u, v) && Has(net, u, k)
    ensures Has(net, v, k)
    decreases |path|
  {
    if path != [] {
      assert Spreads(net, links, path[0], k);
      AlongChain(net, links, path[1..], FarEnd(links, path[0]).0, v, k);
    }
  }

  /** Convergence: once no letter is under way, every relay joined to one that has an announce has it
      too, over any graph of sessions, with cycles and parallel sessions. */
  lemma Converges(net: Flood, links: Links, path: seq<End>, u: NodeId, v: NodeId, k: Key)
    requires Flooded(net, links) && net.letters == []
    requires Chain(links, path, u, v)
    ensures Has(net, u, k) ==> Has(net, v, k)
  {
    FloodedInv(net, links);
    if Has(net, u, k) {
      AlongChain(net, links, path, u, v, k);
    }
  }

  // ---------------------------------------------------------------- termination

  /** The relays and keys, out of `keys`, that lack an entry. */
  ghost function Lacking(net: Flood, links: Links, keys: set<Key>): set<(NodeId, Key)> {
    set x, k | x in links && k in keys && !Has(net, x.0, k) :: (x.0, k)
  }

  ghost predicate LettersWithin(net: Flood, links: Links, keys: set<Key>) {
    forall i | 0 <= i < |net.letters| :: net.letters[i].at in links && KeyOf(net.letters[i].announce) in keys
  }

  lemma DeliverCount(net: Flood, links: Links, i: nat)
    requires i < |net.letters|
    ensures var m, count := net.letters[i], |Deliver(net, links, i).letters|;
            if Has(net, m.at.0, KeyOf(m.announce)) then count == |net.letters| - 1
            else count <= |net.letters| + |links|
  {
    var m := net.letters[i];
    DeliverLetters(net, links, i);
    FewSessions(links, m.at.0);
    SubsetSize(SessionsAt(m.at.0, links) - {m.at.1}, SessionsAt(m.at.0, links));
  }

  lemma DeliverLacking(net: Flood, links: Links, i: nat, keys: set<Key>)
    requires LettersWithin(net, links, keys) && i < |net.letters|
    ensures var u, k := net.letters[i].at.0, KeyOf(net.letters[i].announce);
            Lacking(Deliver(net, links, i), links, keys) == Lacking(net, links, keys) - {(u, k)}
            && ((u, k) in Lacking(net, links, keys) <==> !Has(net, u, k))
  {
    var m, net' := net.letters[i], Deliver(net, links, i);
    forall v, k' ensures Has(net', v, k') <==> Has(net, v, k') || (v == m.at.0 && k' == KeyOf(m.announce)) {
      DeliverHas(net, links, i, v, k');
    }
    assert m.at in links && KeyOf(m.announce) in keys;
  }

  /** Each delivery lowers (entries lacking, letters under way) in lexicographic order; one that
      supplies an entry adds no more letters than there are ends of sessions. */
  lemma DeliverLowers(net: Flood, links: Links, i: nat, keys: set<Key>)
    requires LettersWithin(net, links, keys) && i < |net.letters|
    ensures var net' := Deliver(net, links, i);
            || (|Lacking(net', links, keys)| == |Lacking(net, links, keys)| - 1
                && |net'.letters| <= |net.letters| + |links|)
            || (|Lacking(net', links, keys)| == |Lacking(net, links, keys)| && |net'.letters| == |net.letters| - 1)
  {
    var m := net.letters[i];
    DeliverLacking(net, links, i, keys);
    DeliverCount(net, links, i);
    if Has(net, m.at.0, KeyOf(m.announce)) {
      assert Lacking(net, links, keys) - {(m.at.0, KeyOf(m.announce))} == Lacking(net, links, keys);
    }
  }

  lemma FewSessions(links: Links, u: NodeId)
    ensures |SessionsAt(u, links)| <= |links|
  {
    var ends := set e | e in SessionsAt(u, links) :: (u, e);
    SamePairs(u, SessionsAt(u, links));
    forall x | x in ends ensures x in links.Keys {
      var y :| y in links && y.0 == u && y.1 == x.1;
      assert y == x;
    }
    SubsetSize(ends, links.Keys);
  }

  lemma {:induction false} SamePairs(u: NodeId, es: set<SessionId>)
    ensures |set e | e in es :: (u, e)| == |es|
    decreases |es|
  {
    if es == {} {
      assert (set e | e in es :: (u, e)) == {};
    } else {
      var e := Element(es);
      SamePairs(u, es - {e});
      assert (set d | d in es :: (u, d)) == (set d | d in es - {e} :: (u, d)) + {(u, e)};
    }
  }

  /** What is left to do: letters under way, and for each missing entry those it will cause. */
  ghost function Work(net: Flood, links: Links, keys: set<Key>): nat {
    |net.letters| + (|links| + 1) * |Lacking(net, links, keys)|
  }

  lemma OneLess(a: nat, n: nat)
    requires n > 0
    ensures (a + 1) * (n - 1) == (a + 1) * n - (a + 1)
  {
  }

  lemma DeliverWorks(net: Flood, links: Links, i: nat, keys: set<Key>)
    requires LettersWithin(net, links, keys) && i < |net.letters|
    ensures Work(Deliver(net, links, i), links, keys) < Work(net, links, keys)
  {
    DeliverLowers(net, links, i, keys);
    if |Lacking(net, links, keys)| > 0 {
      OneLess(|links|, |Lacking(net, links, keys)|);
    }
  }

  lemma DeliverWithin(net: Flood, links: Links, i: nat, keys: set<Key>)
    requires ValidLinks(links) && LettersWithin(net, links, keys) && i < |net.letters|
    ensures LettersWithin(Deliver(net, links, i), links, keys)
  {
    var m, net' := net.letters[i], Deliver(net, links, i);
    var rest := net.letters[..i] + net.letters[i + 1..];
    forall n | 0 <= n < |net'.letters|
      ensures net'.letters[n].at in links && KeyOf(net'.letters[n].announce) in keys
    {
      if n < |rest| {
        assert rest[n] == net.letters[if n < i then n else n + 1];
      } else {
        PostedWithin(TableAt(net, m.at.0), links, m, n - |rest|);
      }
    }
  }

  /** What a letter makes its relay send goes to ends of its own sessions and carries the same key. */
  lemma PostedWithin(t: Table, links: Links, m: Letter, n: nat)
    requires ValidLinks(links)
    requires n < |Posted(links, m.at.0, Passed(t, SessionsAt(m.at.0, links), m.at.1, m.announce, false))|
    ensures var l := Posted(links, m.at.0, Passed(t, SessionsAt(m.at.0, links), m.at.1, m.announce, false))[n];
            l.at in links && l.announce == m.announce
  {
    var es := SessionsAt(m.at.0, links) - {m.at.1};
    SortedMembers(es, Sorted(es)[n]);
    assert (m.at.0, Sorted(es)[n]) in links;
  }

  ghost predicate Deliveries(steps: seq<FloodStep>) {
    forall i | 0 <= i < |steps| :: steps[i].Arrives?
  }

  /** Once clients stop announcing, flooding ends: no run of deliveries is longer than the work left. */
  lemma {:induction false} FloodingEnds(net: Flood, links: Links, steps: seq<FloodStep>, keys: set<Key>)
    requires ValidLinks(links) && LettersWithin(net, links, keys)
    requires FloodRun(net, links, steps) && Deliveries(steps)
    ensures |steps| + Work(FloodAfter(net, links, steps), links, keys) <= Work(net, links, keys)
    decreases |steps|
  {
    if steps != [] {
      assert steps[0].Arrives?;
      DeliverWorks(net, links, steps[0].letter, keys);
      DeliverWithin(net, links, steps[0].letter, keys);
      assert Deliveries(steps[1..]);
      FloodingEnds(StepFlood(net, links, steps[0]), links, steps[1..], keys);
    }
  }
}
