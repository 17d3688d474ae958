/**
 The announce table of the information base with its index by namespace prefix. A hash stands for
 the namespace or full name it was made from: hashes are taken to be free of collisions.
 */
module AnnounceTable {
  import opened Bytes
  import opened Ordered
  import opened Sessions

  type Entry = seq<byte>
  type Namespace = seq<Entry>

  datatype FullName = FullName(ns: Namespace, name: seq<byte>)

  /** `flags` is carried along: bit 0 tells a namespace announce from a publish. */
  datatype Announce = Announce(source: NodeId, track: FullName, flags: byte)

  type SourceMap = map<NodeId, Announce>

  datatype Table = Table(announces: map<FullName, SourceMap>, prefixes: map<Namespace, set<FullName>>)

  function Sources(t: Table, f: FullName): SourceMap {
    if f in t.announces then t.announces[f] else map[]
  }

  function Listed(prefixes: map<Namespace, set<FullName>>, p: Namespace): set<FullName> {
    if p in prefixes then prefixes[p] else {}
  }

  predicate IsPrefix(p: Namespace, ns: Namespace) {
    p != [] && p <= ns
  }

  // ---------------------------------------------------------------- operations as functions

  /** The name joins the sets of its first `k` prefixes. */
  function Indexed(prefixes: map<Namespace, set<FullName>>, f: FullName, k: nat): map<Namespace, set<FullName>>
    requires k <= |f.ns|
  {
    if k == 0 then prefixes
    else
      var before := Indexed(prefixes, f, k - 1);
      before[f.ns[..k] := Listed(before, f.ns[..k]) + {f}]
  }

  /** An announce already known from its source changes nothing. */
  function Added(t: Table, a: Announce): Table {
    if a.source in Sources(t, a.track) then t
    else Table(t.announces[a.track := Sources(t, a.track)[a.source := a]], Indexed(t.prefixes, a.track, |a.track.ns|))
  }

  /** The name leaves the sets of its first `k` prefixes. */
  function Unindexed(prefixes: map<Namespace, set<FullName>>, f: FullName, k: nat): map<Namespace, set<FullName>> {
    map p | p in prefixes :: if IsPrefix(p, f.ns) && |p| <= k then prefixes[p] - {f} else prefixes[p]
  }

  /** Prefixes of `f` whose set ran empty when `f` left it. */
  function Emptied(prefixes: map<Namespace, set<FullName>>, f: FullName, k: nat): set<Namespace> {
    set p | p in prefixes && IsPrefix(p, f.ns) && |p| <= k && prefixes[p] == {f}
  }

  predicate AnyListed(prefixes: map<Namespace, set<FullName>>, f: FullName, k: nat)
    requires k <= |f.ns|
  {
    k > 0 && (AnyListed(prefixes, f, k - 1) || f in Listed(prefixes, f.ns[..k]))
  }

  function Deleted(t: Table, a: Announce): Table {
    var f := a.track;
    if f !in t.announces then t
    else
      var left := t.announces[f] - {a.source};
      Table(if left == map[] then t.announces - {f} else t.announces[f := left],
            Unindexed(t.prefixes, f, |f.ns|) - Emptied(t.prefixes, f, |f.ns|))
  }

  /** The nodes that announce one of the names `fs`. */
  ghost function Announcers(t: Table, fs: set<FullName>): set<NodeId> {
    set f, n | f in fs && n in Sources(t, f) :: n
  }

  ghost function Ids(t: Table, f: FullName, exact: bool): set<NodeId> {
    if Sources(t, f) != map[] || exact then Sources(t, f).Keys else Announcers(t, Listed(t.prefixes, f.ns))
  }

  // ---------------------------------------------------------------- the information base

  class AnnounceBase {
    var announces: map<FullName, SourceMap>
    var prefixes: map<Namespace, set<FullName>>

    function View(): Table
      reads this
    {
      Table(announces, prefixes)
    }

    /** The prefixes of a namespace, each one entry longer than the last. */
    static method PrefixHashNamespaceTuples(ns: Namespace) returns (hashes: seq<Namespace>)
      ensures |hashes| == |ns| && forall i | 0 <= i < |ns| :: hashes[i] == ns[..i + 1]
    {
      hashes := [];
      var hash: Namespace := [];
      for i := 0 to |ns|
        invariant hash == ns[..i]
        invariant |hashes| == i && forall j | 0 <= j < i :: hashes[j] == ns[..j + 1]
      {
        hash := hash + [ns[i]];
        hashes := hashes + [hash];
      }
    }

    method Index(f: FullName)
      modifies this`prefixes
      ensures prefixes == Indexed(old(prefixes), f, |f.ns|)
    {
      var hashes := PrefixHashNamespaceTuples(f.ns);
      for i := 0 to |hashes|
        invariant prefixes == Indexed(old(prefixes), f, i)
      {
        var p := hashes[i];
        assert prefixes == Indexed(old(prefixes), f, i) && p == f.ns[..i + 1];
        if p !in prefixes {
          assert {} + {f} == {f};
          prefixes := prefixes[p := {f}];
        } else if f !in prefixes[p] {
          prefixes := prefixes[p := prefixes[p] + {f}];
        } else {
          assert prefixes[p] + {f} == prefixes[p];
          assert prefixes[p := prefixes[p]] == prefixes;
        }
      }
    }

    method AddAnnounce(a: Announce) returns (isNew: bool)
      modifies this
      ensures View() == Added(old(View()), a)
      ensures isNew <==> a.source !in Sources(old(View()), a.track)
    {
      var f := a.track;
      if f !in announces {
        announces := announces[f := map[]];
      }
      isNew := a.source !in announces[f];
      if isNew {
        announces := announces[f := announces[f][a.source := a]];
        Index(f);
      }
    }

    /** Takes the name out of the set of one prefix. */
    method UnindexAt(f: FullName, p: Namespace) returns (removed: bool, empty: bool)
      modifies this`prefixes
      ensures removed <==> f in Listed(old(prefixes), p)
      ensures empty <==> p in old(prefixes) && old(prefixes)[p] == {f}
      ensures prefixes == if p in old(prefixes) then old(prefixes)[p := old(prefixes)[p] - {f}] else old(prefixes)
    {
      removed, empty := false, false;
      if p !in prefixes {
        return;
      }
      if f in prefixes[p] {
        removed := true;
        prefixes := prefixes[p := prefixes[p] - {f}];
        empty := prefixes[p] == {};
      } else {
        assert prefixes[p] - {f} == prefixes[p] && prefixes[p := prefixes[p]] == prefixes;
      }
    }

    /** Takes the name out of its prefixes; reports the sets this emptied. */
    method Unindex(f: FullName) returns (removed: bool, emptied: seq<Namespace>)
      modifies this`prefixes
      ensures prefixes == Unindexed(old(prefixes), f, |f.ns|)
      ensures removed <==> AnyListed(old(prefixes), f, |f.ns|)
      ensures (set p | p in emptied) == Emptied(old(prefixes), f, |f.ns|)
    {
      removed, emptied := false, [];
      var hashes := PrefixHashNamespaceTuples(f.ns);
      UnindexNone(prefixes, f);
      for i := 0 to |hashes|
        invariant prefixes == Unindexed(old(prefixes), f, i)
        invariant removed <==> AnyListed(old(prefixes), f, i)
        invariant (set p | p in emptied) == Emptied(old(prefixes), f, i)
      {
        var p := hashes[i];
        UnindexOne(old(prefixes), f, i);
        var r, empty := UnindexAt(f, p);
        removed := removed || r;
        if empty {
          assert (set q | q in emptied + [p]) == (set q | q in emptied) + {p};
          emptied := emptied + [p];
        }
      }
    }

    method RemoveAnnounce(a: Announce) returns (removed: bool)
      modifies this
      ensures View() == Deleted(old(View()), a)
      ensures removed <==> a.track in old(announces) && AnyListed(old(prefixes), a.track, |a.track.ns|)
    {
      var f := a.track;
      if f !in announces {
        return false;
      }
      var emptied;
      removed, emptied := Unindex(f);
      for i := 0 to |emptied|
        invariant announces == old(announces)
        invariant prefixes == Unindexed(old(prefixes), f, |f.ns|) - (set p | p in emptied[..i])
      {
        prefixes := prefixes - {emptied[i]};
      }
      assert emptied[..|emptied|] == emptied;
      announces := announces[f := announces[f] - {a.source}];
      if announces[f] == map[] {
        announces := announces - {f};
        assert announces == old(announces) - {f};
      }
    }

    /** A lookup that is not exact and finds no full match needs a namespace with some entry. */
    method GetAnnounceIds(f: FullName, exact: bool) returns (ids: set<NodeId>)
      requires exact || Sources(View(), f) != map[] || f.ns != []
      ensures ids == Ids(View(), f, exact)
    {
      ids := {};
      if f in announces {
        ids := announces[f].Keys;
      }
      if ids != {} || exact {
        return;
      }
      var hashes := PrefixHashNamespaceTuples(f.ns);
      var p := hashes[|hashes| - 1];
      assert p == f.ns;
      if p in prefixes {
        var rest := prefixes[p];
        assert Announcers(View(), {}) == {};
        while rest != {}
          invariant rest <= prefixes[p]
          invariant ids == Announcers(View(), prefixes[p] - rest)
        {
          var g :| g in rest;
          OneAnnouncer(View(), prefixes[p] - rest, g);
          assert prefixes[p] - (rest - {g}) == prefixes[p] - rest + {g};
          rest := rest - {g};
          if g in announces {
            ids := ids + announces[g].Keys;
          }
        }
        assert prefixes[p] - {} == prefixes[p];
      } else {
        assert Announcers(View(), {}) == {};
      }
    }
  }

  lemma OneAnnouncer(t: Table, fs: set<FullName>, g: FullName)
    ensures Announcers(t, fs + {g}) == Announcers(t, fs) + Sources(t, g).Keys
  {
    forall n | n in Sources(t, g) ensures n in Announcers(t, fs + {g}) {
      assert g in fs + {g};
    }
    forall n | n in Announcers(t, fs) ensures n in Announcers(t, fs + {g}) {
      var f :| f in fs && n in Sources(t, f);
      assert f in fs + {g};
    }
  }

  lemma PrefixAt(ns: Namespace, k: nat, p: Namespace)
    requires k < |ns|
    ensures IsPrefix(p, ns) && |p| <= k + 1 <==> (IsPrefix(p, ns) && |p| <= k) || p == ns[..k + 1]
  {
  }

  lemma UnindexNone(prefixes: map<Namespace, set<FullName>>, f: FullName)
    ensures Unindexed(prefixes, f, 0) == prefixes && Emptied(prefixes, f, 0) == {}
  {
  }

  lemma UnindexOne(prefixes: map<Namespace, set<FullName>>, f: FullName, k: nat)
    requires k < |f.ns|
    ensures var p, now := f.ns[..k + 1], Unindexed(prefixes, f, k);
            && (p in now <==> p in prefixes) && (p in prefixes ==> now[p] == prefixes[p])
            && (p in prefixes ==> Unindexed(prefixes, f, k + 1) == now[p := prefixes[p] - {f}])
            && (p !in prefixes ==> Unindexed(prefixes, f, k + 1) == now)
            && (p in prefixes && f !in prefixes[p] ==> Unindexed(prefixes, f, k + 1) == now)
            && (AnyListed(prefixes, f, k + 1) <==> AnyListed(prefixes, f, k) || f in Listed(prefixes, p))
            && Emptied(prefixes, f, k + 1) ==
               Emptied(prefixes, f, k) + if p in prefixes && prefixes[p] == {f} then {p} else {}
  {
    forall p ensures IsPrefix(p, f.ns) && |p| <= k + 1 <==> (IsPrefix(p, f.ns) && |p| <= k) || p == f.ns[..k + 1] {
      PrefixAt(f.ns, k, p);
    }
    var p := f.ns[..k + 1];
    if p in prefixes && f !in prefixes[p] {
      assert prefixes[p] - {f} == prefixes[p];
    }
  }

  // ---------------------------------------------------------------- the index against the table

  /** Every listed name is announced and has the prefix it is listed under; no set is empty. */
  ghost predicate IndexSound(t: Table) {
    && (forall p | p in t.prefixes :: t.prefixes[p] != {})
    && (forall f | f in t.announces :: t.announces[f] != map[])
    && (forall p, f | p in t.prefixes && f in t.prefixes[p] :: IsPrefix(p, f.ns) && f in t.announces)
  }

  /** Every announced name is listed under each of its prefixes. */
  ghost predicate IndexComplete(t: Table) {
    forall p, f | f in t.announces && IsPrefix(p, f.ns) :: f in Listed(t.prefixes, p)
  }

  lemma {:induction false} IndexedAt(prefixes: map<Namespace, set<FullName>>, f: FullName, k: nat, p: Namespace)
    requires k <= |f.ns|
    ensures Listed(Indexed(prefixes, f, k), p) ==
            Listed(prefixes, p) + if IsPrefix(p, f.ns) && |p| <= k then {f} else {}
    ensures p in Indexed(prefixes, f, k) <==> p in prefixes || (IsPrefix(p, f.ns) && |p| <= k)
  {
    if k > 0 {
      IndexedAt(prefixes, f, k - 1, p);
      IndexedAt(prefixes, f, k - 1, f.ns[..k]);
      PrefixAt(f.ns, k - 1, p);
    }
  }

  lemma AddKeepsSound(t: Table, a: Announce)
    requires IndexSound(t)
    ensures IndexSound(Added(t, a))
  {
    if a.source !in Sources(t, a.track) {
      var t' := Added(t, a);
      forall p | p in t'.prefixes
        ensures t'.prefixes[p] != {} && forall f | f in t'.prefixes[p] :: IsPrefix(p, f.ns) && f in t'.announces
      {
        IndexedAt(t.prefixes, a.track, |a.track.ns|, p);
        assert Listed(t'.prefixes, p) == t'.prefixes[p];
      }
    }
  }

  lemma AddKeepsComplete(t: Table, a: Announce)
    requires IndexComplete(t)
    ensures IndexComplete(Added(t, a))
  {
    if a.source !in Sources(t, a.track) {
      var t' := Added(t, a);
      forall p, f | f in t'.announces && IsPrefix(p, f.ns) ensures f in Listed(t'.prefixes, p) {
        IndexedAt(t.prefixes, a.track, |a.track.ns|, p);
      }
    }
  }

  lemma DeletedAt(t: Table, a: Announce, p: Namespace)
    requires a.track in t.announces && IndexSound(t)
    ensures Listed(Deleted(t, a).prefixes, p) ==
            Listed(t.prefixes, p) - if IsPrefix(p, a.track.ns) then {a.track} else {}
    ensures p in Deleted(t, a).prefixes ==> p in t.prefixes && Deleted(t, a).prefixes[p] != {}
  {
  }

  lemma DeleteKeepsSound(t: Table, a: Announce)
    requires IndexSound(t)
    ensures IndexSound(Deleted(t, a))
  {
    if a.track in t.announces {
      var t' := Deleted(t, a);
      forall p | p in t'.prefixes
        ensures t'.prefixes[p] != {} && forall f | f in t'.prefixes[p] :: IsPrefix(p, f.ns) && f in t'.announces
      {
        DeletedAt(t, a, p);
        assert Listed(t'.prefixes, p) == t'.prefixes[p];
      }
    }
  }

  lemma OneKeyLess(m: SourceMap, n: NodeId)
    ensures m - {n} == map[] <==> m.Keys <= {n}
  {
    assert (m - {n}).Keys == m.Keys - {n};
    if m.Keys - {n} != {} {
      var k := Element(m.Keys - {n});
      assert k in m - {n} && k !in {n};
    }
  }

  /** Removing an announce keeps the index complete exactly when no other source announces the name,
      or the name has no prefix to be listed under. */
  lemma DeleteKeepsCompleteIff(t: Table, a: Announce)
    requires IndexSound(t) && IndexComplete(t)
    ensures IndexComplete(Deleted(t, a)) <==> Sources(t, a.track).Keys <= {a.source} || a.track.ns == []
  {
    var f, t' := a.track, Deleted(t, a);
    if f in t.announces {
      forall p, g | g in t'.announces && g != f && IsPrefix(p, g.ns) ensures g in Listed(t'.prefixes, p) {
        DeletedAt(t, a, p);
      }
      if f.ns != [] {
        DeletedAt(t, a, f.ns);
        assert IsPrefix(f.ns, f.ns) && f !in Listed(t'.prefixes, f.ns);
      }
      assert t'.announces.Keys == t.announces.Keys || t'.announces.Keys == t.announces.Keys - {f};
      assert f in t'.announces <==> t.announces[f] - {a.source} != map[];
      OneKeyLess(t.announces[f], a.source);
    } else {
      assert t' == t;
    }
  }

  /** The nodes that announce some name with this prefix, by a scan of the whole table. */
  ghost function ScanIds(t: Table, p: Namespace): set<NodeId> {
    set f, n | f in t.announces && IsPrefix(p, f.ns) && n in t.announces[f] :: n
  }

  /** Whatever the number of sources, every id returned announces a match. */
  lemma IdsSound(t: Table, f: FullName, exact: bool, n: NodeId)
    requires IndexSound(t) && n in Ids(t, f, exact)
    ensures n in Sources(t, f) || (!exact && n in ScanIds(t, f.ns))
  {
    if Sources(t, f) == map[] && !exact {
      var g :| g in Listed(t.prefixes, f.ns) && n in Sources(t, g);
      assert g in t.announces && IsPrefix(f.ns, g.ns) && n in t.announces[g];
    }
  }

  /** With a complete index the lookup is a linear scan: the sources of the full name when there are
      any, and otherwise, unless the match must be exact, those of every name with the prefix. */
  lemma IdsAreScan(t: Table, f: FullName, exact: bool)
    requires IndexSound(t) && IndexComplete(t)
    ensures Ids(t, f, exact) ==
            if Sources(t, f) != map[] || exact then Sources(t, f).Keys else ScanIds(t, f.ns)
  {
    if Sources(t, f) == map[] && !exact {
      forall n ensures n in Ids(t, f, exact) <==> n in ScanIds(t, f.ns) {
        if n in Ids(t, f, exact) {
          IdsSound(t, f, exact, n);
        }
        if n in ScanIds(t, f.ns) {
          var g :| g in t.announces && IsPrefix(f.ns, g.ns) && n in t.announces[g];
          assert g in Listed(t.prefixes, f.ns) && n in Sources(t, g);
        }
      }
    }
  }

  /** Two sources announce a name; when one withdraws it, a lookup by its prefix finds neither. */
  lemma SharedNameLost()
    ensures var f := FullName([[1]], [7]);
            var a, b := Announce(1, f, 0), Announce(2, f, 0);
            var t := Deleted(Added(Added(Table(map[], map[]), a), b), a);
            && Sources(t, f) == map[2 := b]
            && Ids(t, FullName([[1]], []), false) == {} && 2 in ScanIds(t, [[1]])
  {
    var f := FullName([[1]], [7]);
    var a, b := Announce(1, f, 0), Announce(2, f, 0);
    var t1 := Added(Added(Table(map[], map[]), a), b);
    var t := Deleted(t1, a);
    AddKeepsSound(Table(map[], map[]), a);
    AddKeepsSound(Added(Table(map[], map[]), a), b);
    assert IsPrefix([[1]], f.ns);
    assert t1.announces == map[f := map[1 := a, 2 := b]];
    assert map[1 := a, 2 := b] - {1} == map[2 := b];
    assert t.announces == map[f := map[2 := b]];
    DeletedAt(t1, a, [[1]]);
    IndexedAt(map[], f, 1, [[1]]);
    IndexedAt(Indexed(map[], f, 1), f, 1, [[1]]);
    assert Listed(t.prefixes, [[1]]) == {};
    assert FullName([[1]], []) != f;
  }

  // ---------------------------------------------------------------- runs

  datatype AnnounceEvent = Advert(announce: Announce) | Withdrawal(announce: Announce)

  function After(t: Table, events: seq<AnnounceEvent>): Table {
    if events == [] then t
    else
      var before, e := After(t, events[..|events| - 1]), events[|events| - 1];
      if e.Advert? then Added(before, e.announce) else Deleted(before, e.announce)
  }

  const EMPTY_TABLE := Table(map[], map[])

  lemma {:induction false} AlwaysSound(events: seq<AnnounceEvent>)
    ensures IndexSound(After(EMPTY_TABLE, events))
  {
    if events != [] {
      var before, e := After(EMPTY_TABLE, events[..|events| - 1]), events[|events| - 1];
      AlwaysSound(events[..|events| - 1]);
      AddKeepsSound(before, e.announce);
      DeleteKeepsSound(before, e.announce);
    }
  }

  ghost predicate OwnedBy(t: Table, owner: FullName -> NodeId) {
    forall f | f in t.announces :: t.announces[f].Keys <= {owner(f)}
  }

  /** While every name has one source, the index is complete after any run. */
  lemma {:induction false} OwnedComplete(events: seq<AnnounceEvent>, owner: FullName -> NodeId)
    requires forall i | 0 <= i < |events| :: events[i].announce.source == owner(events[i].announce.track)
    ensures var t := After(EMPTY_TABLE, events); IndexComplete(t) && OwnedBy(t, owner)
  {
    if events != [] {
      var init, e := events[..|events| - 1], events[|events| - 1];
      OwnedComplete(init, owner);
      AlwaysSound(init);
      AddKeepsComplete(After(EMPTY_TABLE, init), e.announce);
      DeleteKeepsCompleteIff(After(EMPTY_TABLE, init), e.announce);
    }
  }

  // ---------------------------------------------------------------- the table as a history

  predicate About(e: AnnounceEvent, f: FullName, n: NodeId) {
    e.announce.track == f && e.announce.source == n
  }

  /** By the events alone: the last one about the name and source was an advert. */
  predicate Standing(events: seq<AnnounceEvent>, f: FullName, n: NodeId) {
    events != [] &&
    var init, last := events[..|events| - 1], events[|events| - 1];
    if About(last, f, n) then last.Advert? else Standing(init, f, n)
  }

  /** The announce is the first advert of its name and source since the last withdrawal of them. */
  predicate StandingAs(events: seq<AnnounceEvent>, a: Announce) {
    events != [] &&
    var init, last := events[..|events| - 1], events[|events| - 1];
    if !About(last, a.track, a.source) then StandingAs(init, a)
    else last.Advert? && (if Standing(init, a.track, a.source) then StandingAs(init, a) else last.announce == a)
  }

  /** The last event about the name, repeated adverts of a known source aside, was an advert. */
  predicate Findable(events: seq<AnnounceEvent>, f: FullName) {
    events != [] &&
    var init, last := events[..|events| - 1], events[|events| - 1];
    if last.announce.track != f || (last.Advert? && Standing(init, f, last.announce.source)) then Findable(init, f)
    else last.Advert?
  }

  ghost predicate TableIs(t: Table, events: seq<AnnounceEvent>) {
    && (forall f, n :: n in Sources(t, f) <==> Standing(events, f, n))
    && (forall f, n | n in Sources(t, f) ::
          Sources(t, f)[n].track == f && Sources(t, f)[n].source == n && StandingAs(events, Sources(t, f)[n]))
  }

  lemma AddedSources(t: Table, a: Announce, f: FullName, n: NodeId)
    ensures n in Sources(Added(t, a), f) <==> n in Sources(t, f) || (f == a.track && n == a.source)
    ensures n in Sources(t, f) ==> Sources(Added(t, a), f)[n] == Sources(t, f)[n]
    ensures n !in Sources(t, f) && f == a.track && n == a.source ==> Sources(Added(t, a), f)[n] == a
  {
  }

  lemma DeletedSources(t: Table, a: Announce, f: FullName, n: NodeId)
    ensures n in Sources(Deleted(t, a), f) <==> n in Sources(t, f) && !(f == a.track && n == a.source)
    ensures n in Sources(Deleted(t, a), f) ==> Sources(Deleted(t, a), f)[n] == Sources(t, f)[n]
  {
    if a.track in t.announces {
      assert (t.announces[a.track] - {a.source}).Keys == t.announces[a.track].Keys - {a.source};
    }
  }

  lemma SourcesStep(t: Table, init: seq<AnnounceEvent>, e: AnnounceEvent, f: FullName, n: NodeId)
    requires TableIs(t, init)
    ensures var t' := if e.Advert? then Added(t, e.announce) else Deleted(t, e.announce);
            && (n in Sources(t', f) <==> Standing(init + [e], f, n))
            && (n in Sources(t', f) ==>
                  Sources(t', f)[n].track == f && Sources(t', f)[n].source == n && StandingAs(init + [e], Sources(t', f)[n]))
  {
    assert (init + [e])[..|init|] == init;
    AddedSources(t, e.announce, f, n);
    DeletedSources(t, e.announce, f, n);
  }

  /** After any run the table has, for every name, exactly the sources whose last event was an advert, each
      with the first announce that it has made since it last withdrew. */
  lemma {:induction false} TableIsHistory(events: seq<AnnounceEvent>)
    ensures TableIs(After(EMPTY_TABLE, events), events)
  {
    if events != [] {
      var init, e := events[..|events| - 1], events[|events| - 1];
      TableIsHistory(init);
      assert init + [e] == events;
      forall f, n
        ensures n in Sources(After(EMPTY_TABLE, events), f) <==> Standing(events, f, n)
        ensures n in Sources(After(EMPTY_TABLE, events), f) ==>
                  var a := Sources(After(EMPTY_TABLE, events), f)[n];
                  a.track == f && a.source == n && StandingAs(events, a)
      {
        SourcesStep(After(EMPTY_TABLE, init), init, e, f, n);
      }
    }
  }

  lemma FindableStep(init: seq<AnnounceEvent>, e: AnnounceEvent, t: Table, f: FullName, p: Namespace)
    requires TableIs(t, init) && IndexSound(t)
    requires f in Listed(t.prefixes, p) <==> IsPrefix(p, f.ns) && Findable(init, f)
    ensures var t' := if e.Advert? then Added(t, e.announce) else Deleted(t, e.announce);
            f in Listed(t'.prefixes, p) <==> IsPrefix(p, f.ns) && Findable(init + [e], f)
  {
    assert (init + [e])[..|init|] == init;
    var a := e.announce;
    if e.Advert? {
      IndexedAt(t.prefixes, a.track, |a.track.ns|, p);
      assert a.source in Sources(t, a.track) <==> Standing(init, a.track, a.source);
    } else if a.track in t.announces {
      DeletedAt(t, a, p);
    } else {
      assert a.track !in Listed(t.prefixes, p);
    }
  }

  /** And a name is found under a prefix of it exactly when the last event about the name, repeated adverts of
      a known source aside, was an advert: one source's withdrawal hides the name until a new source comes. */
  lemma {:induction false} FoundIff(events: seq<AnnounceEvent>, f: FullName, p: Namespace)
    ensures f in Listed(After(EMPTY_TABLE, events).prefixes, p) <==> IsPrefix(p, f.ns) && Findable(events, f)
  {
    if events != [] {
      var init, e := events[..|events| - 1], events[|events| - 1];
      FoundIff(init, f, p);
      TableIsHistory(init);
      AlwaysSound(init);
      assert init + [e] == events;
      FindableStep(init, e, After(EMPTY_TABLE, init), f, p);
    }
  }
}
