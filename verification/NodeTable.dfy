/**
 The node tables of the information base: every node as each peer session described it, the nodes
 of each session, and the best session towards each node.
 */
module NodeTable {
  import opened Ordered
  import opened Sessions
  import opened SnsRouting

  /** The sRTT in microseconds of each hop to a node. */
  type Path = seq<nat>

  const WRAP := 0x1_0000_0000_0000_0000

  datatype Option<T> = None | Some(value: T)

  function ExactSum(path: Path): nat {
    if path == [] then 0 else ExactSum(path[..|path| - 1]) + path[|path| - 1]
  }

  /** The sum as a 64-bit counter holds it. */
  function Srtt(path: Path): nat {
    ExactSum(path) % WRAP
  }

  method SumSrtt(path: Path) returns (sum: nat)
    ensures sum == Srtt(path)
  {
    sum := 0;
    for i := 0 to |path|
      invariant sum == ExactSum(path[..i]) % WRAP
    {
      assert path[..i + 1][..i] == path[..i];
      sum := (sum + path[i]) % WRAP;
    }
    assert path[..|path|] == path;
  }

  // ---------------------------------------------------------------- the scan

  /** The sessions that know a node, with the path each of them gave. */
  type Candidates = map<SessionId, Path>

  function PathOf(c: Candidates, s: SessionId): Path {
    if s in c then c[s] else []
  }

  /** A later candidate replaces the choice when its path is shorter, or its sRTT is smaller. */
  predicate Replaces(now: Path, path: Path) {
    |now| > |path| || Srtt(now) > Srtt(path)
  }

  function Choose(c: Candidates, best: Option<SessionId>, s: SessionId): Option<SessionId> {
    if best.None? || Replaces(PathOf(c, best.value), PathOf(c, s)) then Some(s) else best
  }

  function Scan(c: Candidates, start: Option<SessionId>, order: seq<SessionId>): Option<SessionId> {
    if order == [] then start else Choose(c, Scan(c, start, order[..|order| - 1]), order[|order| - 1])
  }

  /** The scan replaced its choice at some point. */
  predicate Switches(c: Candidates, start: Option<SessionId>, order: seq<SessionId>) {
    order != [] &&
    (Switches(c, start, order[..|order| - 1])
     || (var best := Scan(c, start, order[..|order| - 1]);
         best.None? || Replaces(PathOf(c, best.value), PathOf(c, order[|order| - 1]))))
  }

  // ---------------------------------------------------------------- what the scan chooses

  /** Fewer hops first, then smaller total sRTT: the documented order. */
  predicate NoWorse(a: Path, b: Path) {
    |a| < |b| || (|a| == |b| && Srtt(a) <= Srtt(b))
  }

  ghost predicate Minimal(c: Candidates, s: SessionId) {
    s in c && forall t | t in c :: NoWorse(c[s], c[t])
  }

  ghost predicate AllIn(c: Candidates, start: Option<SessionId>, order: seq<SessionId>) {
    (start.Some? ==> start.value in c) && forall s | s in order :: s in c
  }

  lemma {:induction false} ScanIn(c: Candidates, start: Option<SessionId>, order: seq<SessionId>)
    requires AllIn(c, start, order)
    ensures Scan(c, start, order).Some? ==> Scan(c, start, order).value in c
    ensures order != [] ==> Scan(c, start, order).Some?
  {
    if order != [] {
      ScanIn(c, start, order[..|order| - 1]);
    }
  }

  /** The choice after a scan is minimal exactly when the last minimal candidate met was not
      followed by one with a smaller sRTT. */
  ghost predicate HoldsMinimal(c: Candidates, start: Option<SessionId>, order: seq<SessionId>) {
    if order == [] then start.Some? && Minimal(c, start.value)
    else
      var s := order[|order| - 1];
      Minimal(c, s) ||
      (HoldsMinimal(c, start, order[..|order| - 1])
       && forall m | Minimal(c, m) :: Srtt(c[m]) <= Srtt(PathOf(c, s)))
  }

  lemma {:induction false} ScanMinimal(c: Candidates, start: Option<SessionId>, order: seq<SessionId>)
    requires AllIn(c, start, order)
    ensures Scan(c, start, order).Some? && Minimal(c, Scan(c, start, order).value) <==> HoldsMinimal(c, start, order)
  {
    if order != [] {
      var init, s := order[..|order| - 1], order[|order| - 1];
      ScanMinimal(c, start, init);
      ScanIn(c, start, init);
      assert s in order;
      var best := Scan(c, start, init);
      if best.Some? && !Minimal(c, best.value) && Minimal(c, s) {
        assert Replaces(c[best.value], c[s]);
      }
    }
  }

  /** Some minimal candidate has no candidate with a larger session id and a smaller sRTT. */
  ghost predicate SafeMinimal(c: Candidates, m: SessionId) {
    Minimal(c, m) && forall s | s in c && m < s :: Srtt(c[m]) <= Srtt(c[s])
  }

  ghost predicate SafePart(c: Candidates, m: SessionId, order: seq<SessionId>) {
    m in order && Minimal(c, m) && forall s | s in order && m < s :: Srtt(c[m]) <= Srtt(PathOf(c, s))
  }

  ghost predicate Rising(order: seq<SessionId>) {
    forall i, j | 0 <= i < j < |order| :: order[i] < order[j]
  }

  lemma MinimalsAlike(c: Candidates, m: SessionId, m': SessionId)
    requires Minimal(c, m) && Minimal(c, m')
    ensures |c[m]| == |c[m']| && Srtt(c[m]) == Srtt(c[m'])
  {
    assert NoWorse(c[m], c[m']) && NoWorse(c[m'], c[m]);
  }

  lemma SafePartNext(c: Candidates, m: SessionId, order: seq<SessionId>, s: SessionId)
    requires Rising(order + [s]) && AllIn(c, None, order + [s]) && !Minimal(c, s)
    ensures SafePart(c, m, order + [s]) <==>
            SafePart(c, m, order) && forall m' | Minimal(c, m') :: Srtt(c[m']) <= Srtt(PathOf(c, s))
  {
    if m in order && Minimal(c, m) {
      var i :| 0 <= i < |order| && order[i] == m;
      assert (order + [s])[i] < (order + [s])[|order|];
      forall m' | Minimal(c, m') ensures Srtt(c[m']) == Srtt(c[m]) {
        MinimalsAlike(c, m, m');
      }
      assert s in order + [s];
    }
  }

  lemma SafePartLast(c: Candidates, order: seq<SessionId>, s: SessionId)
    requires Rising(order + [s]) && Minimal(c, s)
    ensures SafePart(c, s, order + [s])
  {
    forall t | t in order + [s] ensures t <= s {
      var i :| 0 <= i < |order + [s]| && (order + [s])[i] == t;
      assert i < |order| ==> (order + [s])[i] < (order + [s])[|order|];
    }
  }

  /** In a scan by rising session id, without the incumbent's head start. */
  lemma {:induction false} HoldsFromScan(c: Candidates, order: seq<SessionId>)
    requires Rising(order) && AllIn(c, None, order)
    ensures HoldsMinimal(c, None, order) <==> exists m :: SafePart(c, m, order)
  {
    if order != [] {
      var init, s := order[..|order| - 1], order[|order| - 1];
      HoldsFromScan(c, init);
      assert order == init + [s];
      if Minimal(c, s) {
        SafePartLast(c, init, s);
      } else {
        forall m ensures SafePart(c, m, order) <==>
                 SafePart(c, m, init) && forall m' | Minimal(c, m') :: Srtt(c[m']) <= Srtt(PathOf(c, s)) {
          SafePartNext(c, m, init, s);
        }
      }
    }
  }

  /** The incumbent's head start makes no difference once it has been scanned itself. */
  lemma {:induction false} HeadStart(c: Candidates, start: Option<SessionId>, order: seq<SessionId>)
    requires AllIn(c, start, order)
    ensures HoldsMinimal(c, None, order) ==> HoldsMinimal(c, start, order)
    ensures HoldsMinimal(c, start, order) ==>
              HoldsMinimal(c, None, order)
              || (start.Some? && Minimal(c, start.value) && start.value !in order)
  {
    if order != [] {
      var init, s := order[..|order| - 1], order[|order| - 1];
      HeadStart(c, start, init);
      assert order == init + [s];
    }
  }

  function Order(c: Candidates): seq<SessionId> {
    Sorted(c.Keys)
  }

  /** The session chosen for a node with candidates `c`, given the session in use. */
  function Best(c: Candidates, start: Option<SessionId>): Option<SessionId> {
    Scan(c, start, Order(c))
  }

  lemma OrderFacts(c: Candidates)
    ensures Rising(Order(c)) && forall s :: s in Order(c) <==> s in c
  {
    forall i, j | 0 <= i < j < |Order(c)| ensures Order(c)[i] < Order(c)[j] {
      SortedAscending(c.Keys, i, j);
    }
    forall s ensures s in Order(c) <==> s in c {
      SortedMembers(c.Keys, s);
    }
  }

  /** When the choice is the best one: it is minimal by (hops, total sRTT) if and only if some
      minimal candidate has no candidate with a larger session id and a smaller total sRTT. */
  lemma BestIsMinimalIff(c: Candidates, start: Option<SessionId>)
    requires c != map[] && (start.Some? ==> start.value in c)
    ensures Best(c, start).Some? && Best(c, start).value in c
    ensures Minimal(c, Best(c, start).value) <==> exists m :: SafeMinimal(c, m)
  {
    OrderFacts(c);
    var order := Order(c);
    assert c.Keys != {};
    var e := Element(c.Keys);
    assert e in order;
    ScanIn(c, start, order);
    ScanMinimal(c, start, order);
    HeadStart(c, start, order);
    HoldsFromScan(c, order);
    if m :| SafePart(c, m, order) {
      assert SafeMinimal(c, m);
    }
    if m :| SafeMinimal(c, m) {
      assert SafePart(c, m, order);
    }
  }

  /** Among the candidates a shorter path never has the larger total sRTT. */
  ghost predicate Monotone(c: Candidates) {
    forall a, b | a in c && b in c && |c[a]| < |c[b]| :: Srtt(c[a]) <= Srtt(c[b])
  }

  lemma MonotoneSafe(c: Candidates, m: SessionId)
    requires Monotone(c) && Minimal(c, m)
    ensures forall s | s in c :: Srtt(c[m]) <= Srtt(c[s])
  {
  }

  lemma {:induction false} MinimalKept(c: Candidates, start: SessionId, order: seq<SessionId>)
    requires Monotone(c) && Minimal(c, start) && AllIn(c, Some(start), order)
    ensures Scan(c, Some(start), order) == Some(start) && !Switches(c, Some(start), order)
  {
    if order != [] {
      MinimalKept(c, start, order[..|order| - 1]);
      MonotoneSafe(c, start);
      assert order[|order| - 1] in order;
    }
  }

  lemma {:induction false} HasMinimal(c: Candidates)
    requires c != map[]
    ensures exists m :: Minimal(c, m)
    decreases |c|
  {
    var s := Element(c.Keys);
    var rest := c - {s};
    assert c.Keys == rest.Keys + {s};
    if rest == map[] {
      assert Minimal(c, s);
    } else {
      HasMinimal(rest);
      var m :| Minimal(rest, m);
      assert forall t | t in c :: t == s || (t in rest && rest[t] == c[t]);
      assert Minimal(c, if NoWorse(c[m], c[s]) then m else s);
    }
  }

  /** With monotone candidates the choice is minimal, and a minimal session in use is kept. */
  lemma MonotoneBest(c: Candidates, start: Option<SessionId>)
    requires c != map[] && (start.Some? ==> start.value in c) && Monotone(c)
    ensures Best(c, start).Some? && Minimal(c, Best(c, start).value)
    ensures start.Some? && Minimal(c, start.value) ==> Best(c, start) == start
    ensures Switches(c, start, Order(c)) <==> Best(c, start) != start
  {
    HasMinimal(c);
    var m :| Minimal(c, m);
    MonotoneSafe(c, m);
    assert SafeMinimal(c, m);
    BestIsMinimalIff(c, start);
    OrderFacts(c);
    if start.Some? && Minimal(c, start.value) {
      MinimalKept(c, start.value, Order(c));
    }
    NoSwitch(c, start, Order(c));
  }

  lemma {:induction false} NoSwitch(c: Candidates, start: Option<SessionId>, order: seq<SessionId>)
    ensures !Switches(c, start, order) ==> Scan(c, start, order) == start
  {
    if order != [] {
      NoSwitch(c, start, order[..|order| - 1]);
    }
  }

  // ---------------------------------------------------------------- the last switch

  predicate SwitchesLast(c: Candidates, start: Option<SessionId>, order: seq<SessionId>)
    requires order != []
  {
    var best := Scan(c, start, order[..|order| - 1]);
    best.None? || Replaces(PathOf(c, best.value), PathOf(c, order[|order| - 1]))
  }

  /** How many candidates had been scanned when the scan last replaced its choice. */
  function LastSwitch(c: Candidates, start: Option<SessionId>, order: seq<SessionId>): (n: nat)
    ensures n <= |order|
  {
    if order == [] then 0
    else if SwitchesLast(c, start, order) then |order|
    else LastSwitch(c, start, order[..|order| - 1])
  }

  /** The choice is the candidate of the last switch, and nothing scanned after it beats it. */
  lemma {:induction false} ScanUnbeaten(c: Candidates, start: Option<SessionId>, order: seq<SessionId>)
    ensures var n, best := LastSwitch(c, start, order), Scan(c, start, order);
            && best == (if n == 0 then start else Some(order[n - 1]))
            && (Switches(c, start, order) <==> n > 0)
            && forall k | n <= k < |order| :: best.Some? && !Replaces(PathOf(c, best.value), PathOf(c, order[k]))
  {
    if order != [] {
      var init := order[..|order| - 1];
      ScanUnbeaten(c, start, init);
      if !SwitchesLast(c, start, order) {
        assert forall k | 0 <= k < |init| :: order[k] == init[k];
      }
    }
  }

  // ---------------------------------------------------------------- what is reported

  /** An update is reported for a first choice, and when some candidate would replace the session in use. */
  ghost predicate Reports(c: Candidates, start: Option<SessionId>) {
    start.None? || exists s | s in c :: Replaces(PathOf(c, start.value), c[s])
  }

  /** Some candidate of the order would replace the session in use. */
  ghost predicate Beaten(c: Candidates, b: SessionId, order: seq<SessionId>) {
    exists i | 0 <= i < |order| :: Replaces(PathOf(c, b), PathOf(c, order[i]))
  }

  lemma BeatenNext(c: Candidates, b: SessionId, order: seq<SessionId>)
    requires order != []
    ensures Beaten(c, b, order) <==>
            Beaten(c, b, order[..|order| - 1]) || Replaces(PathOf(c, b), PathOf(c, order[|order| - 1]))
  {
    var init := order[..|order| - 1];
    if Beaten(c, b, init) {
      var i :| 0 <= i < |init| && Replaces(PathOf(c, b), PathOf(c, init[i]));
      assert order[i] == init[i];
    }
  }

  lemma {:induction false} SwitchesOver(c: Candidates, b: SessionId, order: seq<SessionId>)
    ensures Switches(c, Some(b), order) <==> Beaten(c, b, order)
  {
    if order != [] {
      SwitchesOver(c, b, order[..|order| - 1]);
      NoSwitch(c, Some(b), order[..|order| - 1]);
      BeatenNext(c, b, order);
    }
  }

  lemma {:induction false} FirstSwitch(c: Candidates, order: seq<SessionId>)
    ensures Switches(c, None, order) <==> order != []
  {
    if order != [] {
      FirstSwitch(c, order[..|order| - 1]);
      NoSwitch(c, None, order[..|order| - 1]);
    }
  }

  lemma BeatenInOrder(c: Candidates, b: SessionId)
    ensures Beaten(c, b, Order(c)) <==> exists s | s in c :: Replaces(PathOf(c, b), c[s])
  {
    OrderFacts(c);
    if Beaten(c, b, Order(c)) {
      var i :| 0 <= i < |Order(c)| && Replaces(PathOf(c, b), PathOf(c, Order(c)[i]));
      assert Order(c)[i] in Order(c);
    }
    if s :| s in c && Replaces(PathOf(c, b), c[s]) {
      assert s in Order(c);
      var i :| 0 <= i < |Order(c)| && Order(c)[i] == s;
    }
  }

  lemma SwitchesIffReports(c: Candidates, start: Option<SessionId>)
    requires c != map[]
    ensures Switches(c, start, Order(c)) <==> Reports(c, start)
  {
    match start
    case None =>
      FirstSwitch(c, Order(c));
      assert c.Keys != {};
    case Some(b) =>
      SwitchesOver(c, b, Order(c));
      BeatenInOrder(c, b);
  }

  /** No candidate of the order with a smaller session id than `b` would replace it. */
  ghost predicate NoneBefore(c: Candidates, b: SessionId, order: seq<SessionId>) {
    forall i | 0 <= i < |order| && order[i] < b :: !Replaces(PathOf(c, b), PathOf(c, order[i]))
  }

  /** The scan has left `b` for a candidate further on. */
  ghost predicate LeftBehind(c: Candidates, b: SessionId, order: seq<SessionId>) {
    order != [] && Scan(c, Some(b), order) != Some(b) && order[|order| - 1] > b
  }

  /** Once left, the session in use is not met again. */
  lemma {:induction false} LeftForGood(c: Candidates, b: SessionId, order: seq<SessionId>)
    requires Rising(order) && NoneBefore(c, b, order) && Switches(c, Some(b), order)
    ensures LeftBehind(c, b, order)
  {
    var init, last := order[..|order| - 1], |order| - 1;
    if Switches(c, Some(b), init) {
      LeftForGood(c, b, init);
      assert order[last - 1] < order[last];
    } else {
      NoSwitch(c, Some(b), init);
    }
  }

  /** A candidate with a smaller session id than the session in use would replace it. */
  ghost predicate BeatenBefore(c: Candidates, b: SessionId) {
    exists s | s in c :: s < b && Replaces(PathOf(c, b), c[s])
  }

  lemma NoneBeforeOrder(c: Candidates, b: SessionId)
    ensures Rising(Order(c)) && (!BeatenBefore(c, b) ==> NoneBefore(c, b, Order(c)))
  {
    OrderFacts(c);
    assert forall i | 0 <= i < |Order(c)| :: Order(c)[i] in Order(c);
  }

  /** What a report of an update means: the choice changed, or a candidate with a smaller session id
      than the session in use would replace it and the scan came back. */
  lemma UpdateReportedIff(c: Candidates, b: SessionId)
    requires b in c
    ensures Switches(c, Some(b), Order(c)) <==> Best(c, Some(b)) != Some(b) || BeatenBefore(c, b)
  {
    NoSwitch(c, Some(b), Order(c));
    SwitchesIffReports(c, Some(b));
    NoneBeforeOrder(c, b);
    if Switches(c, Some(b), Order(c)) && !BeatenBefore(c, b) {
      LeftForGood(c, b, Order(c));
    }
  }

  lemma ScanNext(c: Candidates, start: Option<SessionId>, order: seq<SessionId>, s: SessionId)
    ensures Scan(c, start, order + [s]) == Choose(c, Scan(c, start, order), s)
  {
    assert (order + [s])[..|order|] == order;
  }

  lemma ScanOfTwo(c: Candidates, start: Option<SessionId>)
    requires c.Keys == {1, 2}
    ensures Best(c, start) == Choose(c, Choose(c, start, 1), 2)
  {
    OrderFacts(c);
    var order := Order(c);
    assert order[0] in c && order[1] in c && order[0] < order[1];
    assert order == [] + [1] + [2];
    ScanNext(c, start, [], 1);
    ScanNext(c, start, [] + [1], 2);
  }

  /** The scan leaves the one-hop session 1 for the two-hop session 2, whose sRTT is smaller. */
  lemma LongerPathChosen()
    ensures var c: Candidates := map[1 := [5], 2 := [1, 1]]; Minimal(c, 1) && Best(c, Some(1)) == Some(2)
  {
    var c: Candidates := map[1 := [5], 2 := [1, 1]];
    assert c.Keys == {1, 2};
    ScanOfTwo(c, Some(1));
    SrttOne(5);
    SrttTwo(1, 1);
  }

  /** The scan may leave the session in use and come back to it, and still reports an update. */
  lemma UpdateWithoutChange()
    ensures var c: Candidates := map[1 := [1, 1], 2 := [5]];
            Best(c, Some(2)) == Some(2) && Switches(c, Some(2), Order(c))
  {
    var c: Candidates := map[1 := [1, 1], 2 := [5]];
    assert c.Keys == {1, 2};
    SrttOne(5);
    SrttTwo(1, 1);
    ScanOfTwo(c, Some(2));
    assert 1 in c && Replaces(PathOf(c, 2), c[1]);
    UpdateReportedIff(c, 2);
  }

  lemma SrttOne(a: nat)
    requires a < WRAP
    ensures Srtt([a]) == a
  {
    assert [a][..0] == [] && ExactSum([a]) == ExactSum([]) + a;
  }

  lemma SrttTwo(a: nat, b: nat)
    requires a + b < WRAP
    ensures Srtt([a, b]) == a + b
  {
    assert [a][..0] == [] && ExactSum([a]) == ExactSum([]) + a;
    assert [a, b][..1] == [a] && ExactSum([a, b]) == ExactSum([a]) + b;
  }

  // ---------------------------------------------------------------- the tables

  datatype Tables = Tables(
    nodes: map<(NodeId, SessionId), Path>,
    best: map<NodeId, SessionId>,
    bySession: map<SessionId, set<NodeId>>)

  function SessionsFor(nodes: map<(NodeId, SessionId), Path>, n: NodeId): set<SessionId> {
    set k | k in nodes && k.0 == n :: k.1
  }

  function CandidatesFor(nodes: map<(NodeId, SessionId), Path>, n: NodeId): Candidates {
    map s | s in SessionsFor(nodes, n) :: nodes[(n, s)]
  }

  lemma CandidateOf(nodes: map<(NodeId, SessionId), Path>, n: NodeId, s: SessionId)
    ensures s in CandidatesFor(nodes, n) <==> (n, s) in nodes
    ensures (n, s) in nodes ==> CandidatesFor(nodes, n)[s] == nodes[(n, s)]
  {
    if (n, s) in nodes {
      assert (n, s).0 == n && (n, s).1 == s;
    }
  }

  function Incumbent(t: Tables, n: NodeId): Option<SessionId> {
    if n in t.best then Some(t.best[n]) else None
  }

  function Reselect(t: Tables, n: NodeId): Tables {
    var b := Best(CandidatesFor(t.nodes, n), Incumbent(t, n));
    if b.None? then t else t.(best := t.best[n := b.value])
  }

  function Known(t: Tables, s: SessionId): set<NodeId> {
    if s in t.bySession then t.bySession[s] else {}
  }

  function Listed(t: Tables, s: SessionId, n: NodeId, path: Path): Tables {
    t.(nodes := t.nodes[(n, s) := path], bySession := t.bySession[s := Known(t, s) + {n}])
  }

  function Added(t: Tables, s: SessionId, n: NodeId, path: Path): Tables {
    Reselect(Listed(t, s, n, path), n)
  }

  /** The node is no longer known through the session; a best choice for it is made afresh. */
  function Dropped(t: Tables, s: SessionId, n: NodeId): Tables {
    var t1 := t.(nodes := t.nodes - {(n, s)}, best := t.best - {n});
    if n in t.best then Reselect(t1, n) else t1
  }

  function Unlisted(bySession: map<SessionId, set<NodeId>>, s: SessionId, n: NodeId): map<SessionId, set<NodeId>> {
    if s !in bySession then bySession
    else if bySession[s] - {n} == {} then bySession - {s}
    else bySession[s := bySession[s] - {n}]
  }

  function Removed(t: Tables, s: SessionId, n: NodeId): Tables {
    Dropped(t, s, n).(bySession := Unlisted(t.bySession, s, n))
  }

  function DroppedEach(t: Tables, s: SessionId, ns: seq<NodeId>): Tables {
    if ns == [] then t else Dropped(DroppedEach(t, s, ns[..|ns| - 1]), s, ns[|ns| - 1])
  }

  function Purged(t: Tables, s: SessionId): Tables {
    DroppedEach(t, s, Sorted(Known(t, s))).(bySession := t.bySession - {s})
  }

  /** The nodes of each session are exactly those in the node table; no session has none. */
  ghost predicate Inverse(t: Tables) {
    && (forall n, s :: (n, s) in t.nodes <==> s in t.bySession && n in t.bySession[s])
    && (forall s | s in t.bySession :: t.bySession[s] != {})
  }

  /** A node has a best session exactly when it is known at all, and that session knows it. */
  ghost predicate BestKnown(t: Tables) {
    && (forall n | n in t.best :: (n, t.best[n]) in t.nodes)
    && (forall n, s | (n, s) in t.nodes :: n in t.best)
  }

  /** The choice for every node is minimal when its candidates are monotone. */
  ghost predicate BestChosen(t: Tables) {
    forall n | n in t.best && Monotone(CandidatesFor(t.nodes, n)) :: Minimal(CandidatesFor(t.nodes, n), t.best[n])
  }

  ghost predicate TablesOk(t: Tables) {
    Inverse(t) && BestKnown(t) && BestChosen(t)
  }

  lemma SameCandidates(a: map<(NodeId, SessionId), Path>, b: map<(NodeId, SessionId), Path>, n: NodeId)
    requires forall s :: ((n, s) in a <==> (n, s) in b) && ((n, s) in a ==> a[(n, s)] == b[(n, s)])
    ensures CandidatesFor(a, n) == CandidatesFor(b, n)
  {
    forall s ensures s in CandidatesFor(a, n) <==> s in CandidatesFor(b, n) {
      CandidateOf(a, n, s);
      CandidateOf(b, n, s);
    }
    forall s | s in CandidatesFor(a, n) ensures CandidatesFor(a, n)[s] == CandidatesFor(b, n)[s] {
      CandidateOf(a, n, s);
      CandidateOf(b, n, s);
    }
  }

  /** All of `t` but the choice for `n` is in order, and the session in use for `n`, if any, knows it. */
  ghost predicate OkExcept(t: Tables, n: NodeId) {
    && (forall m | m in t.best :: (m, t.best[m]) in t.nodes)
    && (forall m, s | (m, s) in t.nodes && m != n :: m in t.best)
    && (forall m | m in t.best && m != n && Monotone(CandidatesFor(t.nodes, m)) ::
          Minimal(CandidatesFor(t.nodes, m), t.best[m]))
  }

  /** A known node gets a session that knows it, a minimal one when its candidates are monotone. */
  lemma ReselectKnown(t: Tables, n: NodeId, s: SessionId)
    requires n in t.best ==> (n, t.best[n]) in t.nodes
    requires (n, s) in t.nodes
    ensures var t', c := Reselect(t, n), CandidatesFor(t.nodes, n);
            && n in t'.best && (n, t'.best[n]) in t.nodes
            && t' == t.(best := t.best[n := t'.best[n]])
            && (Monotone(c) ==> Minimal(c, t'.best[n]))
  {
    var c := CandidatesFor(t.nodes, n);
    CandidateOf(t.nodes, n, s);
    if n in t.best {
      CandidateOf(t.nodes, n, t.best[n]);
    }
    BestIsMinimalIff(c, Incumbent(t, n));
    CandidateOf(t.nodes, n, Best(c, Incumbent(t, n)).value);
    if Monotone(c) {
      MonotoneBest(c, Incumbent(t, n));
    }
  }

  lemma ReselectUnknown(t: Tables, n: NodeId)
    requires n !in t.best && forall s :: (n, s) !in t.nodes
    ensures Reselect(t, n) == t
  {
    var c := CandidatesFor(t.nodes, n);
    forall s ensures s !in c {
      CandidateOf(t.nodes, n, s);
    }
    assert c == map[];
    OrderFacts(c);
    assert Order(c) == [];
  }

  lemma ReselectSettles(t: Tables, n: NodeId)
    requires OkExcept(t, n)
    ensures BestKnown(Reselect(t, n)) && BestChosen(Reselect(t, n))
    ensures Reselect(t, n).nodes == t.nodes && Reselect(t, n).bySession == t.bySession
  {
    if n in t.best {
      ReselectKnown(t, n, t.best[n]);
    } else if s :| (n, s) in t.nodes {
      ReselectKnown(t, n, s);
    } else {
      ReselectUnknown(t, n);
    }
  }

  /** The tables agree with `t` on every node but `n`. */
  ghost predicate AgreesBut(t: Tables, t1: Tables, n: NodeId) {
    && (forall m, s | m != n :: ((m, s) in t1.nodes <==> (m, s) in t.nodes)
                                && ((m, s) in t.nodes ==> t1.nodes[(m, s)] == t.nodes[(m, s)]))
    && (forall m | m != n :: (m in t1.best <==> m in t.best) && (m in t.best ==> t1.best[m] == t.best[m]))
    && (n in t1.best ==> (n, t1.best[n]) in t1.nodes)
  }

  lemma OthersKept(t: Tables, t1: Tables, n: NodeId)
    requires BestKnown(t) && BestChosen(t) && AgreesBut(t, t1, n)
    ensures OkExcept(t1, n)
  {
    forall m | m in t1.best && m != n && Monotone(CandidatesFor(t1.nodes, m))
      ensures Minimal(CandidatesFor(t1.nodes, m), t1.best[m])
    {
      SameCandidates(t1.nodes, t.nodes, m);
    }
  }

  lemma ListedInverse(t: Tables, s: SessionId, n: NodeId, path: Path)
    requires Inverse(t)
    ensures Inverse(Listed(t, s, n, path))
  {
  }

  lemma AddKeeps(t: Tables, s: SessionId, n: NodeId, path: Path)
    requires TablesOk(t)
    ensures TablesOk(Added(t, s, n, path))
    ensures n in Added(t, s, n, path).best
  {
    var t1 := Listed(t, s, n, path);
    ListedInverse(t, s, n, path);
    assert AgreesBut(t, t1, n);
    OthersKept(t, t1, n);
    ReselectSettles(t1, n);
    assert (n, s) in t1.nodes;
  }

  lemma DropKeeps(t: Tables, s: SessionId, n: NodeId)
    requires BestKnown(t) && BestChosen(t)
    ensures BestKnown(Dropped(t, s, n)) && BestChosen(Dropped(t, s, n))
    ensures Dropped(t, s, n).nodes == t.nodes - {(n, s)} && Dropped(t, s, n).bySession == t.bySession
  {
    var t1 := t.(nodes := t.nodes - {(n, s)}, best := t.best - {n});
    assert AgreesBut(t, t1, n);
    OthersKept(t, t1, n);
    if n in t.best {
      ReselectSettles(t1, n);
    } else {
      ReselectUnknown(t1, n);
      ReselectSettles(t1, n);
    }
  }

  lemma UnlistedInverse(t: Tables, t': Tables, s: SessionId, n: NodeId)
    requires Inverse(t)
    requires t'.nodes == t.nodes - {(n, s)} && t'.bySession == Unlisted(t.bySession, s, n)
    ensures Inverse(t')
  {
    assert t'.bySession.Keys == t.bySession.Keys || t'.bySession.Keys == t.bySession.Keys - {s};
  }

  lemma RelistedBest(t: Tables, bySession: map<SessionId, set<NodeId>>)
    requires BestKnown(t) && BestChosen(t)
    ensures BestKnown(t.(bySession := bySession)) && BestChosen(t.(bySession := bySession))
  {
  }

  lemma RemoveKeeps(t: Tables, s: SessionId, n: NodeId)
    requires TablesOk(t)
    ensures TablesOk(Removed(t, s, n))
  {
    DropKeeps(t, s, n);
    RelistedBest(Dropped(t, s, n), Unlisted(t.bySession, s, n));
    UnlistedInverse(t, Removed(t, s, n), s, n);
  }

  lemma {:induction false} DropEachKeeps(t: Tables, s: SessionId, ns: seq<NodeId>)
    requires BestKnown(t) && BestChosen(t)
    ensures var t' := DroppedEach(t, s, ns);
            && BestKnown(t') && BestChosen(t') && t'.bySession == t.bySession
            && (forall m, r :: (m, r) in t'.nodes <==> (m, r) in t.nodes && !(r == s && m in ns))
  {
    if ns != [] {
      DropEachKeeps(t, s, ns[..|ns| - 1]);
      DropKeeps(DroppedEach(t, s, ns[..|ns| - 1]), s, ns[|ns| - 1]);
      assert ns == ns[..|ns| - 1] + [ns[|ns| - 1]];
    }
  }

  /** After a purge nothing mentions the session, and the other sessions' nodes are as before. */
  lemma PurgeKeeps(t: Tables, s: SessionId)
    requires TablesOk(t)
    ensures var t' := Purged(t, s);
            && TablesOk(t') && s !in t'.bySession
            && (forall n :: (n, s) !in t'.nodes && (n in t'.best ==> t'.best[n] != s))
            && (forall n, r | r != s :: (n, r) in t'.nodes <==> (n, r) in t.nodes)
  {
    DropEachKeeps(t, s, Sorted(Known(t, s)));
    forall n ensures n in Sorted(Known(t, s)) <==> n in Known(t, s) {
      SortedMembers(Known(t, s), n);
    }
    var t1, t' := DroppedEach(t, s, Sorted(Known(t, s))), Purged(t, s);
    assert t'.nodes == t1.nodes && t'.best == t1.best;
  }

  // ---------------------------------------------------------------- runs

  datatype NodeEvent =
    | Add(session: SessionId, node: NodeId, path: Path)
    | Remove(session: SessionId, node: NodeId)
    | Purge(session: SessionId)

  function Apply(t: Tables, event: NodeEvent): Tables {
    match event
    case Add(s, n, path) => Added(t, s, n, path)
    case Remove(s, n) => Removed(t, s, n)
    case Purge(s) => Purged(t, s)
  }

  function ApplyAll(t: Tables, events: seq<NodeEvent>): Tables {
    if events == [] then t else Apply(ApplyAll(t, events[..|events| - 1]), events[|events| - 1])
  }

  /** The tables stay consistent, and every choice minimal where candidates are monotone, after any
      sequence of adds, removes and purges. */
  lemma {:induction false} TablesAlwaysOk(events: seq<NodeEvent>)
    ensures TablesOk(ApplyAll(Tables(map[], map[], map[]), events))
  {
    if events != [] {
      TablesAlwaysOk(events[..|events| - 1]);
      var t := ApplyAll(Tables(map[], map[], map[]), events[..|events| - 1]);
      match events[|events| - 1]
      case Add(s, n, path) => AddKeeps(t, s, n, path);
      case Remove(s, n) => RemoveKeeps(t, s, n);
      case Purge(s) => PurgeKeeps(t, s);
    }
  }

  const NO_NODES := Tables(map[], map[], map[])

  /** By the events alone: the path of the last add of the node on the session, unless a remove of it or a
      purge of the session came later. */
  function LastPath(events: seq<NodeEvent>, n: NodeId, s: SessionId): Option<Path> {
    if events == [] then None
    else
      var init, last := events[..|events| - 1], events[|events| - 1];
      match last
      case Add(s', n', path) => if (n', s') == (n, s) then Some(path) else LastPath(init, n, s)
      case Remove(s', n') => if (n', s') == (n, s) then None else LastPath(init, n, s)
      case Purge(s') => if s' == s then None else LastPath(init, n, s)
  }

  /** The path stored for a node and session. */
  function PathAt(t: Tables, n: NodeId, s: SessionId): Option<Path> {
    if (n, s) in t.nodes then Some(t.nodes[(n, s)]) else None
  }

  lemma {:induction false} DropEachPaths(t: Tables, s: SessionId, ns: seq<NodeId>, m: NodeId, r: SessionId)
    ensures PathAt(DroppedEach(t, s, ns), m, r) == if r == s && m in ns then None else PathAt(t, m, r)
  {
    if ns != [] {
      DropEachPaths(t, s, ns[..|ns| - 1], m, r);
      assert ns == ns[..|ns| - 1] + [ns[|ns| - 1]];
    }
  }

  lemma EventPaths(t: Tables, event: NodeEvent, m: NodeId, r: SessionId)
    requires TablesOk(t)
    ensures PathAt(Apply(t, event), m, r) ==
            match event
            case Add(s, n, path) => if (n, s) == (m, r) then Some(path) else PathAt(t, m, r)
            case Remove(s, n) => if (n, s) == (m, r) then None else PathAt(t, m, r)
            case Purge(s) => if s == r then None else PathAt(t, m, r)
  {
    match event
    case Purge(s) =>
      DropEachPaths(t, s, Sorted(Known(t, s)), m, r);
      SortedMembers(Known(t, s), m);
    case _ =>
  }

  /** After any sequence of adds, removes and purges the node table stores for every node and session exactly
      the path that was received last and not taken back. */
  lemma {:induction false} NodesAreHistory(events: seq<NodeEvent>, n: NodeId, s: SessionId)
    ensures PathAt(ApplyAll(NO_NODES, events), n, s) == LastPath(events, n, s)
  {
    if events != [] {
      NodesAreHistory(events[..|events| - 1], n, s);
      TablesAlwaysOk(events[..|events| - 1]);
      EventPaths(ApplyAll(NO_NODES, events[..|events| - 1]), events[|events| - 1], n, s);
    }
  }

  /** The nodes whose choice an event makes afresh. */
  function Rechosen(t: Tables, event: NodeEvent): set<NodeId> {
    match event
    case Add(s, n, path) => {n}
    case Remove(s, n) => {n}
    case Purge(s) => Known(t, s)
  }

  lemma ReselectOthers(t: Tables, n: NodeId, m: NodeId)
    requires m != n
    ensures Incumbent(Reselect(t, n), m) == Incumbent(t, m)
  {
  }

  lemma DroppedOthers(t: Tables, s: SessionId, n: NodeId, m: NodeId)
    requires m != n
    ensures Incumbent(Dropped(t, s, n), m) == Incumbent(t, m)
  {
    ReselectOthers(t.(nodes := t.nodes - {(n, s)}, best := t.best - {n}), n, m);
  }

  lemma {:induction false} DropEachOthers(t: Tables, s: SessionId, ns: seq<NodeId>, m: NodeId)
    requires m !in ns
    ensures Incumbent(DroppedEach(t, s, ns), m) == Incumbent(t, m)
  {
    if ns != [] {
      DropEachOthers(t, s, ns[..|ns| - 1], m);
      assert ns[|ns| - 1] in ns;
      DroppedOthers(DroppedEach(t, s, ns[..|ns| - 1]), s, ns[|ns| - 1], m);
    }
  }

  lemma SameChoice(a: Tables, b: Tables, m: NodeId)
    requires a.best == b.best
    ensures Incumbent(a, m) == Incumbent(b, m)
  {
  }

  lemma RemovedOthers(t: Tables, s: SessionId, n: NodeId, m: NodeId)
    requires m != n
    ensures Incumbent(Removed(t, s, n), m) == Incumbent(t, m)
  {
    DroppedOthers(t, s, n, m);
    SameChoice(Removed(t, s, n), Dropped(t, s, n), m);
  }

  lemma PurgedOthers(t: Tables, s: SessionId, m: NodeId)
    requires m !in Known(t, s)
    ensures Incumbent(Purged(t, s), m) == Incumbent(t, m)
  {
    SortedMembers(Known(t, s), m);
    DropEachOthers(t, s, Sorted(Known(t, s)), m);
    SameChoice(Purged(t, s), DroppedEach(t, s, Sorted(Known(t, s))), m);
  }

  /** Every other node keeps the best session it had. */
  lemma OthersKeepBest(t: Tables, event: NodeEvent, m: NodeId)
    requires m !in Rechosen(t, event)
    ensures Incumbent(Apply(t, event), m) == Incumbent(t, m)
  {
    match event
    case Add(s, n, path) => ReselectOthers(Listed(t, s, n, path), n, m);
    case Remove(s, n) => RemovedOthers(t, s, n, m);
    case Purge(s) => PurgedOthers(t, s, m);
  }

  // ---------------------------------------------------------------- the information base

  /** The rows of other sessions. */
  function RowsExcept(fib: map<Ingress, FibRow>, s: SessionId, ids: set<SnsId>): map<Ingress, FibRow> {
    map k | k in fib && !(k.0 == s && k.1 in ids) :: fib[k]
  }

  lemma OneRowLess(fib: map<Ingress, FibRow>, s: SessionId, ids: set<SnsId>, id: SnsId)
    ensures RowsExcept(fib, s, ids + {id}) == RowsExcept(fib, s, ids) - {(s, id)}
  {
  }

  lemma AllRowsLess(fib: map<Ingress, FibRow>, s: SessionId)
    ensures RowsExcept(fib, s, IdsOf(fib, s)) == RowsWithout(fib, s)
  {
    assert forall k | k in fib && k.0 == s :: k.1 in IdsOf(fib, s);
  }

  lemma DroppedAlike(t: Tables, t': Tables, s: SessionId, n: NodeId)
    requires t' == Dropped(t.(bySession := Unlisted(t.bySession, s, n)), s, n)
    ensures t' == Removed(t, s, n)
  {
  }

  function IdsOf(fib: map<Ingress, FibRow>, s: SessionId): set<SnsId> {
    set k | k in fib && k.0 == s :: k.1
  }

  /** Compares the choice, whose path is `info`, with the next candidate. */
  method Compare(c: Candidates, choice: Option<SessionId>, info: Path, s: SessionId)
    returns (choice': Option<SessionId>, info': Path, switched: bool)
    requires s in c && (choice.Some? ==> info == PathOf(c, choice.value))
    ensures choice' == Choose(c, choice, s) && choice'.Some? && info' == PathOf(c, choice'.value)
    ensures switched <==> choice.None? || Replaces(PathOf(c, choice.value), PathOf(c, s))
  {
    if choice.None? {
      return Some(s), c[s], true;
    }
    var known := SumSrtt(info);
    var offered := SumSrtt(c[s]);
    if |info| > |c[s]| || known > offered {
      return Some(s), c[s], true;
    }
    return choice, info, false;
  }

  /** Scans the sessions that know a node in increasing order. The session in use must be one. */
  method ScanCandidates(c: Candidates, start: Option<SessionId>) returns (choice: Option<SessionId>, updated: bool)
    requires start.Some? ==> start.value in c
    ensures choice == Best(c, start) && (choice.Some? ==> choice.value in c)
    ensures updated <==> Switches(c, start, Order(c))
    ensures updated ==> choice.Some?
  {
    choice, updated := start, false;
    var info := PathOf(c, if start.Some? then start.value else 0);
    var order := Sorted(c.Keys);
    for k := 0 to |order|
      invariant choice == Scan(c, start, order[..k])
      invariant choice.Some? ==> info == PathOf(c, choice.value)
      invariant updated <==> Switches(c, start, order[..k])
      invariant updated ==> choice.Some?
    {
      SortedMembers(c.Keys, order[k]);
      assert order[..k + 1][..k] == order[..k];
      var switched;
      choice, info, switched := Compare(c, choice, info, order[k]);
      updated := updated || switched;
    }
    assert order[..|order|] == order;
    OrderFacts(c);
    ScanIn(c, start, order);
  }

  function BestLine(nodes: map<(NodeId, SessionId), Path>, best: map<NodeId, SessionId>, n: NodeId): (NodeId, SessionId, Path) {
    if n in best && (n, best[n]) in nodes then (n, best[n], nodes[(n, best[n])]) else (n, 0, [])
  }

  lemma AddReports(t: Tables, s: SessionId, n: NodeId, path: Path)
    requires BestFound(t.nodes, t.best)
    ensures var t1 := Listed(t, s, n, path);
            var c, start := CandidatesFor(t1.nodes, n), Incumbent(t, n);
            && BestFound(t1.nodes, t1.best) && start == Incumbent(t1, n)
            && (Switches(c, start, Order(c)) <==> Reports(c, start))
            && (!Switches(c, start, Order(c)) ==> Added(t, s, n, path).best == t.best)
  {
    var t1 := Listed(t, s, n, path);
    var c, start := CandidatesFor(t1.nodes, n), Incumbent(t, n);
    CandidateOf(t1.nodes, n, s);
    SwitchesIffReports(c, start);
    NoSwitch(c, start, Order(c));
    if n in t.best {
      assert t.best[n := t.best[n]] == t.best;
    }
  }

  /** The best session of every node knows it. */
  ghost predicate BestFound(nodes: map<(NodeId, SessionId), Path>, best: map<NodeId, SessionId>) {
    forall n | n in best :: (n, best[n]) in nodes
  }

  class InfoBase {
    var nodes: map<(NodeId, SessionId), Path>
    var best: map<NodeId, SessionId>
    var bySession: map<SessionId, set<NodeId>>
    var peerFib: map<Ingress, FibRow>

    function View(): Tables
      reads this
    {
      Tables(nodes, best, bySession)
    }

    ghost predicate Valid()
      reads this
    {
      TablesOk(View())
    }

    /** Lists the best session of every node and the path it gave; every lookup succeeds. */
    method DumpBestNodes() returns (lines: seq<(NodeId, SessionId, Path)>)
      requires BestFound(nodes, best)
      ensures |lines| == |best.Keys|
      ensures forall k | 0 <= k < |lines| :: lines[k] == BestLine(nodes, best, Sorted(best.Keys)[k])
    {
      lines := [];
      var order := Sorted(best.Keys);
      for k := 0 to |order|
        invariant |lines| == k
        invariant forall i | 0 <= i < k :: lines[i] == BestLine(nodes, best, order[i])
      {
        SortedMembers(best.Keys, order[k]);
        var s := best[order[k]];
        lines := lines + [(order[k], s, nodes[(order[k], s)])];
      }
    }

    /** Returns whether the scan replaced its choice at some point. */
    method SelectBestNode(n: NodeId) returns (updated: bool)
      requires BestFound(nodes, best)
      modifies this`best
      ensures View() == Reselect(old(View()), n) && BestFound(nodes, best)
      ensures updated <==> Switches(CandidatesFor(nodes, n), Incumbent(old(View()), n), Order(CandidatesFor(nodes, n)))
    {
      var start: Option<SessionId> := if n in best then Some(best[n]) else None;
      var c := CandidatesFor(nodes, n);
      if n in best {
        CandidateOf(nodes, n, best[n]);
      }
      var choice;
      choice, updated := ScanCandidates(c, start);
      NoSwitch(c, start, Order(c));
      if updated {
        CandidateOf(nodes, n, choice.value);
        best := best[n := choice.value];
        var dump := DumpBestNodes();
      } else if n in best {
        assert best[n := best[n]] == best;
      }
    }

    method List(s: SessionId, n: NodeId, path: Path)
      modifies this`nodes, this`bySession
      ensures View() == Listed(old(View()), s, n, path)
    {
      nodes := nodes[(n, s) := path];
      bySession := bySession[s := (if s in bySession then bySession[s] else {}) + {n}];
    }

    /** Reports an update for a node that is new, and when some candidate would replace the session in
        use; without one the choice stays. */
    method AddNode(s: SessionId, n: NodeId, path: Path) returns (updated: bool)
      requires Valid()
      modifies this`nodes, this`best, this`bySession
      ensures Valid() && View() == Added(old(View()), s, n, path)
      ensures updated <==> Reports(CandidatesFor(nodes, n), Incumbent(old(View()), n))
      ensures !updated ==> best == old(best)
    {
      AddKeeps(View(), s, n, path);
      AddReports(View(), s, n, path);
      List(s, n, path);
      updated := SelectBestNode(n);
    }

    method Unlist(s: SessionId, n: NodeId)
      modifies this`bySession
      ensures bySession == Unlisted(old(bySession), s, n)
    {
      if s in bySession {
        var was := bySession;
        bySession := bySession[s := bySession[s] - {n}];
        if bySession[s] == {} {
          bySession := bySession - {s};
          assert bySession == was - {s};
        }
      }
    }

    method RemoveNode(s: SessionId, n: NodeId)
      requires Valid()
      modifies this`nodes, this`best, this`bySession
      ensures Valid() && View() == Removed(old(View()), s, n)
    {
      RemoveKeeps(View(), s, n);
      Unlist(s, n);
      DropNode(s, n);
      DroppedAlike(old(View()), View(), s, n);
    }

    method DropNode(s: SessionId, n: NodeId)
      requires BestFound(nodes, best)
      modifies this`nodes, this`best
      ensures View() == Dropped(old(View()), s, n) && BestFound(nodes, best)
    {
      nodes := nodes - {(n, s)};
      if n in best {
        Rechoose(n);
      } else {
        assert best - {n} == best;
      }
    }

    /** Drops the choice for a node and makes it afresh. */
    method Rechoose(n: NodeId)
      requires forall m | m in best && m != n :: (m, best[m]) in nodes
      modifies this`best
      ensures View() == Reselect(old(View()).(best := old(best) - {n}), n) && BestFound(nodes, best)
    {
      best := best - {n};
      var updated := SelectBestNode(n);
    }

    method DropNodes(s: SessionId, order: seq<NodeId>)
      requires BestFound(nodes, best)
      modifies this`nodes, this`best
      ensures View() == DroppedEach(old(View()), s, order)
    {
      for k := 0 to |order|
        invariant View() == DroppedEach(old(View()), s, order[..k]) && BestFound(nodes, best)
      {
        assert order[..k + 1][..k] == order[..k];
        DropNode(s, order[k]);
      }
      assert order[..|order|] == order;
    }

    method PurgeNodes(s: SessionId)
      requires BestFound(nodes, best)
      modifies this`nodes, this`best, this`bySession
      ensures View() == Purged(old(View()), s)
    {
      if s in bySession {
        DropNodes(s, Sorted(bySession[s]));
        bySession := bySession - {s};
      } else {
        assert bySession - {s} == bySession;
      }
    }

    /** Forgets everything learned on a session, and the forwarding rows of its ingress sets. */
    method PurgePeerSessionInfo(s: SessionId)
      requires Valid()
      modifies this
      ensures Valid() && View() == Purged(old(View()), s)
      ensures peerFib == RowsWithout(old(peerFib), s)
    {
      PurgeKeeps(View(), s);
      PurgeNodes(s);
      PurgeRows(s);
    }

    method PurgeRows(s: SessionId)
      modifies this`peerFib
      ensures peerFib == RowsWithout(old(peerFib), s)
    {
      var ids := IdsOf(peerFib, s);
      var order := Sorted(ids);
      SeenNone(ids);
      assert RowsExcept(peerFib, s, {}) == peerFib;
      for k := 0 to |order|
        invariant peerFib == RowsExcept(old(peerFib), s, Seen(ids, k))
      {
        SeeOne(ids, k);
        OneRowLess(old(peerFib), s, Seen(ids, k), order[k]);
        peerFib := peerFib - {(s, order[k])};
      }
      AllRowsLess(old(peerFib), s);
    }
  }
}
