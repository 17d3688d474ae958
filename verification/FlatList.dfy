/** The flat list of a ranking: what a rebuild makes of the buckets, and when the in-place path agrees. */
module FlatList {
  import opened Ordered
  import opened Ranking

  /** The entry of a track of bucket `b`. */
  function Entry(b: Bucket, x: Alias, conns: map<Alias, int>): Flat
    requires x in b
  {
    Flat(x, b[x].seqNum, b[x].tick, ConnOf(conns, x))
  }

  lemma {:induction false} FlatLineAt(b: Bucket, l: seq<Place>, conns: map<Alias, int>)
    requires InBucket(b, l)
    ensures |FlatLine(b, l, conns)| == |l|
    ensures forall i | 0 <= i < |l| :: FlatLine(b, l, conns)[i] == Entry(b, l[i].alias, conns)
  {
    if l != [] {
      FlatLineAt(b, l[..|l| - 1], conns);
    }
  }

  /** A bucket's part of the flat list. */
  function Part(b: Bucket, conns: map<Alias, int>): seq<Flat> {
    FlatLine(b, Line(b), conns)
  }

  lemma PartMembers(b: Bucket, conns: map<Alias, int>, f: Flat)
    ensures f in Part(b, conns) <==> f.alias in b && f == Entry(b, f.alias, conns)
  {
    LineIs(b);
    FlatLineAt(b, Line(b), conns);
    if f.alias in b && f == Entry(b, f.alias, conns) {
      assert PlaceOf(b, f.alias) in Line(b);
      var i :| 0 <= i < |Line(b)| && Line(b)[i] == PlaceOf(b, f.alias);
      assert Part(b, conns)[i] == f;
    }
  }

  lemma PartOrder(b: Bucket, conns: map<Alias, int>, i: nat, j: nat)
    requires i < j < |Part(b, conns)| && NumsDiffer(b)
    ensures Part(b, conns)[i].seqNum < Part(b, conns)[j].seqNum
    ensures Part(b, conns)[i].alias != Part(b, conns)[j].alias
  {
    LineIs(b);
    FlatLineAt(b, Line(b), conns);
    assert Before(b, Line(b)[i].alias, Line(b)[j].alias);
  }

  /** `f` is the entry of a track that has value `v`. */
  ghost predicate EntryAt(buckets: Buckets, conns: map<Alias, int>, prop: Prop, f: Flat, v: Value) {
    f.alias in At(buckets, (prop, v)) && f == Entry(At(buckets, (prop, v)), f.alias, conns)
  }

  lemma {:induction false} ValuesMembers(buckets: Buckets, conns: map<Alias, int>, prop: Prop, vs: seq<Value>, f: Flat)
    ensures f in FlatValues(buckets, conns, prop, vs) <==> exists v :: v in vs && EntryAt(buckets, conns, prop, f, v)
  {
    if vs != [] {
      var init, v := vs[..|vs| - 1], vs[|vs| - 1];
      assert vs == init + [v];
      ValuesMembers(buckets, conns, prop, init, f);
      PartMembers(At(buckets, (prop, v)), conns, f);
      assert f in Part(At(buckets, (prop, v)), conns) <==> EntryAt(buckets, conns, prop, f, v);
      if w :| w in vs && EntryAt(buckets, conns, prop, f, w) {
        assert w == v || w in init;
      }
      if w :| w in init && EntryAt(buckets, conns, prop, f, w) {
        assert w in vs;
      }
    } else {
      assert FlatValues(buckets, conns, prop, vs) == [];
    }
  }

  lemma ValueListed(buckets: Buckets, prop: Prop, v: Value)
    ensures v in Sorted(ValuesOf(buckets, prop)) <==> (prop, v) in buckets
  {
    SortedMembers(ValuesOf(buckets, prop), v);
    if v in ValuesOf(buckets, prop) {
      var k :| k in buckets && k.0 == prop && k.1 == v;
      assert k == (prop, v);
    }
    if (prop, v) in buckets {
      assert (prop, v).0 == prop && (prop, v).1 == v;
    }
  }

  /** A rebuilt list holds exactly the property's tracks. */
  lemma FlattenMembers(buckets: Buckets, conns: map<Alias, int>, prop: Prop, f: Flat)
    ensures f in Flatten(buckets, conns, prop) <==> exists v :: EntryAt(buckets, conns, prop, f, v)
  {
    ValuesMembers(buckets, conns, prop, Sorted(ValuesOf(buckets, prop)), f);
    forall v | EntryAt(buckets, conns, prop, f, v) ensures v in Sorted(ValuesOf(buckets, prop)) {
      ValueListed(buckets, prop, v);
    }
  }

  /** `f` ranks above `g`: a higher value, or the same value and a smaller sequence number. */
  ghost predicate Above(buckets: Buckets, conns: map<Alias, int>, prop: Prop, f: Flat, g: Flat) {
    exists v, w :: EntryAt(buckets, conns, prop, f, v) && EntryAt(buckets, conns, prop, g, w)
                   && (v > w || (v == w && f.seqNum < g.seqNum))
  }

  ghost predicate RisingValues(vs: seq<Value>) {
    forall i, j | 0 <= i < j < |vs| :: vs[i] < vs[j]
  }

  lemma {:induction false} ValuesOrder(buckets: Buckets, conns: map<Alias, int>, prop: Prop, vs: seq<Value>, i: nat, j: nat)
    requires RisingValues(vs) && forall v :: NumsDiffer(At(buckets, (prop, v)))
    requires i < j < |FlatValues(buckets, conns, prop, vs)|
    ensures Above(buckets, conns, prop, FlatValues(buckets, conns, prop, vs)[i], FlatValues(buckets, conns, prop, vs)[j])
  {
    var init, v := vs[..|vs| - 1], vs[|vs| - 1];
    var b := At(buckets, (prop, v));
    var part, rest := Part(b, conns), FlatValues(buckets, conns, prop, init);
    var all := FlatValues(buckets, conns, prop, vs);
    if i < |part| {
      PartMembers(b, conns, part[i]);
      assert EntryAt(buckets, conns, prop, all[i], v);
      if j < |part| {
        PartMembers(b, conns, part[j]);
        PartOrder(b, conns, i, j);
        assert EntryAt(buckets, conns, prop, all[j], v);
      } else {
        assert all[j] == rest[j - |part|] && rest[j - |part|] in rest;
        ValuesMembers(buckets, conns, prop, init, all[j]);
        var w :| w in init && EntryAt(buckets, conns, prop, all[j], w);
        var n :| 0 <= n < |init| && init[n] == w;
        assert vs[n] < vs[|vs| - 1];
      }
    } else {
      assert all[i] == rest[i - |part|] && all[j] == rest[j - |part|];
      ValuesOrder(buckets, conns, prop, init, i - |part|, j - |part|);
    }
  }

  lemma BucketsDiffer(s: State, k: Key)
    requires RankInv(s)
    ensures NumsDiffer(At(s.buckets, k))
  {
    if k in s.buckets {
      assert BucketOk(s.buckets[k], s.count);
    }
  }

  /** A rebuilt list is ordered by value descending, then sequence number ascending. */
  lemma FlattenOrder(s: State, conns: map<Alias, int>, prop: Prop, i: nat, j: nat)
    requires RankInv(s) && i < j < |Flatten(s.buckets, conns, prop)|
    ensures Above(s.buckets, conns, prop, Flatten(s.buckets, conns, prop)[i], Flatten(s.buckets, conns, prop)[j])
  {
    var vs := Sorted(ValuesOf(s.buckets, prop));
    forall a, b | 0 <= a < b < |vs| ensures vs[a] < vs[b] {
      SortedAscending(ValuesOf(s.buckets, prop), a, b);
    }
    forall v ensures NumsDiffer(At(s.buckets, (prop, v))) {
      BucketsDiffer(s, (prop, v));
    }
    ValuesOrder(s.buckets, conns, prop, vs, i, j);
  }

  lemma SameValue(s: State, conns: map<Alias, int>, prop: Prop, f: Flat, g: Flat, v: Value, w: Value)
    requires RankInv(s) && f.alias == g.alias
    requires EntryAt(s.buckets, conns, prop, f, v) && EntryAt(s.buckets, conns, prop, g, w)
    ensures v == w && f.seqNum == g.seqNum
  {
    assert f.alias in s.buckets[(prop, v)] && f.alias in s.buckets[(prop, w)];
  }

  /** No track is listed twice. */
  lemma FlattenOnce(s: State, conns: map<Alias, int>, prop: Prop, i: nat, j: nat)
    requires RankInv(s) && i < j < |Flatten(s.buckets, conns, prop)|
    ensures Flatten(s.buckets, conns, prop)[i].alias != Flatten(s.buckets, conns, prop)[j].alias
  {
    FlattenOrder(s, conns, prop, i, j);
    var f, g := Flatten(s.buckets, conns, prop)[i], Flatten(s.buckets, conns, prop)[j];
    var v, w :| EntryAt(s.buckets, conns, prop, f, v) && EntryAt(s.buckets, conns, prop, g, w)
                && (v > w || (v == w && f.seqNum < g.seqNum));
    if f.alias == g.alias {
      SameValue(s, conns, prop, f, g, v, w);
    }
  }

  // ---------------------------------------------------------------- the in-place path

  function Refresh(u: Update, f: Flat): Flat {
    if f.alias == u.alias then f.(tick := u.tick, conn := u.conn) else f
  }

  /** Every entry of the track refreshed. */
  function RefreshedAll(flat: seq<Flat>, u: Update): (r: seq<Flat>)
    ensures |r| == |flat| && forall i | 0 <= i < |flat| :: r[i] == Refresh(u, flat[i])
  {
    if flat == [] then [] else RefreshedAll(flat[..|flat| - 1], u) + [Refresh(u, flat[|flat| - 1])]
  }

  ghost predicate ListedOnce(flat: seq<Flat>) {
    forall i, j | 0 <= i < j < |flat| :: flat[i].alias != flat[j].alias
  }

  lemma {:induction false} FirstIsAll(flat: seq<Flat>, u: Update)
    requires ListedOnce(flat)
    ensures Refreshed(flat, u) == RefreshedAll(flat, u)
  {
    if flat != [] {
      FirstIsAll(flat[1..], u);
      if flat[0].alias == u.alias {
        assert Refreshed(flat, u) == [Refresh(u, flat[0])] + flat[1..];
      } else {
        assert Refreshed(flat, u) == [flat[0]] + RefreshedAll(flat[1..], u);
      }
    }
  }

  lemma RefreshedAppend(a: seq<Flat>, b: seq<Flat>, u: Update)
    ensures RefreshedAll(a + b, u) == RefreshedAll(a, u) + RefreshedAll(b, u)
  {
  }

  lemma {:induction false} FlatLineRefreshed(b: Bucket, b': Bucket, l: seq<Place>, l': seq<Place>,
                                             conns: map<Alias, int>, u: Update)
    requires |l'| == |l| && forall i | 0 <= i < |l| :: l'[i] == if l[i].alias == u.alias then Place(u.alias, u.tick) else l[i]
    requires forall x :: x in b' <==> x in b
    requires forall x | x in b :: b'[x].seqNum == b[x].seqNum
    ensures FlatLine(b', l', conns[u.alias := u.conn]) == RefreshedAll(FlatLine(b, l, conns), u)
  {
    if l != [] {
      FlatLineRefreshed(b, b', l[..|l| - 1], l'[..|l| - 1], conns, u);
    }
  }

  /** The part of a bucket in which the track was refreshed, or does not occur. */
  lemma PartRefreshed(b: Bucket, b': Bucket, conns: map<Alias, int>, u: Update)
    requires BucketRefreshed(b, b', u)
    ensures Part(b', conns[u.alias := u.conn]) == RefreshedAll(Part(b, conns), u)
  {
    LineIs(b);
    if u.alias in b {
      LineTouch(b, u.alias, u.tick);
    }
    FlatLineRefreshed(b, b', Line(b), Line(b'), conns, u);
  }

  /** What becomes of a bucket of the property when the track is only refreshed. */
  ghost predicate BucketRefreshed(b: Bucket, b': Bucket, u: Update) {
    if u.alias in b then b' == b[u.alias := b[u.alias].(tick := u.tick)] else b' == b
  }

  lemma {:induction false} ValuesRefreshed(buckets: Buckets, buckets': Buckets, conns: map<Alias, int>, u: Update, vs: seq<Value>)
    requires forall v | v in vs :: BucketRefreshed(At(buckets, (u.prop, v)), At(buckets', (u.prop, v)), u)
    ensures FlatValues(buckets', conns[u.alias := u.conn], u.prop, vs) ==
            RefreshedAll(FlatValues(buckets, conns, u.prop, vs), u)
  {
    if vs != [] {
      var init, v := vs[..|vs| - 1], vs[|vs| - 1];
      assert v in vs && forall w | w in init :: w in vs;
      ValuesRefreshed(buckets, buckets', conns, u, init);
      PartRefreshed(At(buckets, (u.prop, v)), At(buckets', (u.prop, v)), conns, u);
      RefreshedAppend(Part(At(buckets, (u.prop, v)), conns), FlatValues(buckets, conns, u.prop, init), u);
    }
  }

  /** The list is the one a rebuild for the property would make. */
  ghost predicate Current(s: State, prop: Prop) {
    s.flat == Flatten(s.buckets, s.conns, prop)
  }

  /** An update that rebuilds nothing and finds the track in its bucket only refreshes it there. */
  lemma RefreshOnly(s: State, u: Update, age: int)
    requires RankInv(s) && !Rebuilds(s, u, age) && u.alias in At(s.buckets, KeyOf(u))
    ensures Updated(s, u, age).buckets == s.buckets[KeyOf(u) := JoinedBucket(At(s.buckets, KeyOf(u)), u, 0)]
  {
    var k := KeyOf(u);
    var bs := Updated(s, u, age).buckets;
    forall k' ensures k' in bs <==> k' in s.buckets
              ensures k' in bs ==> bs[k'] == if k' == k then JoinedBucket(s.buckets[k], u, 0) else s.buckets[k']
    {
      NothingLeaves(s, u, age, k');
    }
  }

  lemma NothingLeaves(s: State, u: Update, age: int, k: Key)
    requires RankInv(s) && !Rebuilds(s, u, age) && u.alias in At(s.buckets, KeyOf(u))
    ensures At(Updated(s, u, age).buckets, k) ==
            if k == KeyOf(u) then JoinedBucket(At(s.buckets, k), u, 0) else At(s.buckets, k)
    ensures k in Updated(s, u, age).buckets <==> k in s.buckets
  {
    UpdatedBucket(s, u, age, k);
    var b := MovedBucket(s, u, k);
    if OtherValue(u, k) && k in s.buckets {
      assert u.alias !in s.buckets[k];
      assert s.buckets[k] - {u.alias} == s.buckets[k];
    }
    if k in s.buckets {
      assert BucketOk(s.buckets[k], s.count);
    }
    forall x | x in b ensures Active(u.tick, age)(PlaceOf(b, x)) {
      assert k in Moved(s, u) && x in Moved(s, u)[k];
    }
    assert Restrict(b, Active(u.tick, age)) == b;
  }

  lemma RefreshOnlyThere(s: State, u: Update, age: int, v: Value)
    requires RankInv(s) && !Rebuilds(s, u, age) && u.alias in At(s.buckets, KeyOf(u))
    ensures BucketRefreshed(At(s.buckets, (u.prop, v)), At(Updated(s, u, age).buckets, (u.prop, v)), u)
  {
    NothingLeaves(s, u, age, (u.prop, v));
    if u.alias in At(s.buckets, (u.prop, v)) {
      assert (u.prop, v) == KeyOf(u);
    }
  }

  lemma RefreshedList(s: State, u: Update, age: int)
    requires RankInv(s) && !Rebuilds(s, u, age) && u.alias in At(s.buckets, KeyOf(u))
    ensures Flatten(Updated(s, u, age).buckets, s.conns[u.alias := u.conn], u.prop) ==
            RefreshedAll(Flatten(s.buckets, s.conns, u.prop), u)
  {
    var bs := Updated(s, u, age).buckets;
    RefreshOnly(s, u, age);
    assert bs.Keys == s.buckets.Keys;
    assert ValuesOf(bs, u.prop) == ValuesOf(s.buckets, u.prop);
    var vs := Sorted(ValuesOf(s.buckets, u.prop));
    forall v | v in vs ensures BucketRefreshed(At(s.buckets, (u.prop, v)), At(bs, (u.prop, v)), u) {
      RefreshOnlyThere(s, u, age, v);
    }
    ValuesRefreshed(s.buckets, bs, s.conns, u, vs);
  }

  /** Refreshing a track already in its bucket gives in place the list that a rebuild would give. */
  lemma InPlaceIsRebuild(s: State, u: Update, age: int)
    requires RankInv(s) && Current(s, u.prop)
    requires !Rebuilds(s, u, age) && u.alias in At(s.buckets, KeyOf(u))
    ensures Current(Updated(s, u, age), u.prop)
  {
    RefreshedList(s, u, age);
    forall i, j | 0 <= i < j < |s.flat| ensures s.flat[i].alias != s.flat[j].alias {
      FlattenOnce(s, s.conns, u.prop, i, j);
    }
    FirstIsAll(s.flat, u);
  }

  lemma {:induction false} RefreshedNums(flat: seq<Flat>, u: Update, f: Flat)
    requires f in Refreshed(flat, u)
    ensures exists g :: g in flat && g.alias == f.alias && g.seqNum == f.seqNum
  {
    if f == Refreshed(flat, u)[0] {
      assert flat[0] in flat;
    } else if f in flat[1..] {
      assert f in flat;
    } else {
      RefreshedNums(flat[1..], u, f);
      var g :| g in flat[1..] && g.alias == f.alias && g.seqNum == f.seqNum;
      assert g in flat;
    }
  }

  lemma ListedNums(s: State, prop: Prop, g: Flat)
    requires RankInv(s) && g in Flatten(s.buckets, s.conns, prop)
    ensures HALF - 1 - s.count <= g.seqNum <= HALF + s.count
  {
    FlattenMembers(s.buckets, s.conns, prop, g);
    var v :| EntryAt(s.buckets, s.conns, prop, g, v);
    assert BucketOk(s.buckets[(prop, v)], s.count);
  }

  /** A track that joins an existing bucket without a rebuild is missing from the list, or stands in
      it with the sequence number of the bucket it left. */
  lemma JoinGoesStale(s: State, u: Update, age: int)
    requires RankInv(s) && age >= 0 && Current(s, u.prop)
    requires !Rebuilds(s, u, age) && u.alias !in At(s.buckets, KeyOf(u))
    ensures !Current(Updated(s, u, age), u.prop)
  {
    var s' := Updated(s, u, age);
    UpdateKeeps(s, u, age);
    UpdatedBucket(s, u, age, KeyOf(u));
    var f := Entry(s'.buckets[KeyOf(u)], u.alias, s'.conns);
    assert EntryAt(s'.buckets, s'.conns, u.prop, f, u.value);
    FlattenMembers(s'.buckets, s'.conns, u.prop, f);
    if f in s'.flat {
      RefreshedNums(s.flat, u, f);
      var g :| g in s.flat && g.alias == f.alias && g.seqNum == f.seqNum;
      ListedNums(s, u.prop, g);
      assert false;
    }
  }

  /** When the list is right: after an update of the property it was current for, it is current if
      and only if it was rebuilt or the track was in its bucket already. */
  lemma CurrentIff(s: State, u: Update, age: int)
    requires RankInv(s) && age >= 0 && Current(s, u.prop)
    ensures Current(Updated(s, u, age), u.prop) <==> Rebuilds(s, u, age) || u.alias in At(s.buckets, KeyOf(u))
  {
    if !Rebuilds(s, u, age) {
      if u.alias in At(s.buckets, KeyOf(u)) {
        InPlaceIsRebuild(s, u, age);
      } else {
        JoinGoesStale(s, u, age);
      }
    }
  }

  /** The track leaves another value of the property to other tracks. */
  ghost predicate LeavesOthers(buckets: Buckets, u: Update) {
    exists w, x :: w != u.value && x != u.alias && Has(buckets, (u.prop, w), u.alias) && Has(buckets, (u.prop, w), x)
  }

  /** Some entry, other than one of the updated track, is too old. */
  ghost predicate SomeTooOld(buckets: Buckets, u: Update, age: int) {
    exists k, x :: Has(buckets, k, x) && !(x == u.alias && k.0 == u.prop)
                   && buckets[k][x].tick <= u.tick && u.tick - buckets[k][x].tick > age
  }

  lemma LeftOthersMeans(buckets: Buckets, u: Update)
    ensures LeftOthers(buckets, u) <==> LeavesOthers(buckets, u)
  {
    if LeftOthers(buckets, u) {
      var k :| k in buckets && OtherValue(u, k) && u.alias in buckets[k] && buckets[k] - {u.alias} != map[];
      assert (buckets[k] - {u.alias}).Keys != {};
      var x := Element((buckets[k] - {u.alias}).Keys);
      assert k == (u.prop, k.1) && Has(buckets, (u.prop, k.1), u.alias) && Has(buckets, (u.prop, k.1), x);
    }
    if LeavesOthers(buckets, u) {
      var w, x :| w != u.value && x != u.alias && Has(buckets, (u.prop, w), u.alias) && Has(buckets, (u.prop, w), x);
      assert OtherValue(u, (u.prop, w)) && x in buckets[(u.prop, w)] - {u.alias};
    }
  }

  lemma NewValueMeans(s: State, u: Update)
    requires RankInv(s)
    ensures KeyOf(u) !in Left(s.buckets, u) <==> forall x :: !Has(s.buckets, KeyOf(u), x)
  {
    assert KeyOf(u) in Left(s.buckets, u) <==> KeyOf(u) in s.buckets;
    if KeyOf(u) in s.buckets {
      assert BucketOk(s.buckets[KeyOf(u)], s.count);
      assert s.buckets[KeyOf(u)].Keys != {};
      var x := Element(s.buckets[KeyOf(u)].Keys);
      assert Has(s.buckets, KeyOf(u), x);
    }
  }

  lemma MovedEntry(s: State, u: Update, age: int, k: Key, x: Alias)
    requires RankInv(s)
    ensures !(x == u.alias && k.0 == u.prop) ==>
              (Has(Moved(s, u), k, x) <==> Has(s.buckets, k, x))
              && (Has(s.buckets, k, x) ==> Moved(s, u)[k][x] == s.buckets[k][x])
    ensures x == u.alias && k.0 == u.prop && Has(Moved(s, u), k, x) ==> Moved(s, u)[k][x].tick == u.tick
  {
    UpdatedBucket(s, u, age, k);
    if !(x == u.alias && k.0 == u.prop) {
      MovedKeeps(s, u, k, x);
    }
    assert Has(Moved(s, u), k, x) <==> x in At(Moved(s, u), k);
  }

  lemma AnyInactiveMeans(s: State, u: Update, age: int)
    requires RankInv(s) && age >= 0
    ensures AnyInactive(Moved(s, u), u.tick, age) <==> SomeTooOld(s.buckets, u, age)
  {
    if AnyInactive(Moved(s, u), u.tick, age) {
      var k :| k in Moved(s, u) && exists x | x in Moved(s, u)[k] :: !Active(u.tick, age)(PlaceOf(Moved(s, u)[k], x));
      var x :| x in Moved(s, u)[k] && !Active(u.tick, age)(PlaceOf(Moved(s, u)[k], x));
      MovedEntry(s, u, age, k, x);
      assert Has(Moved(s, u), k, x) && Has(s.buckets, k, x);
    }
    if SomeTooOld(s.buckets, u, age) {
      var k, x :| Has(s.buckets, k, x) && !(x == u.alias && k.0 == u.prop)
                  && s.buckets[k][x].tick <= u.tick && u.tick - s.buckets[k][x].tick > age;
      MovedEntry(s, u, age, k, x);
      assert !Active(u.tick, age)(PlaceOf(Moved(s, u)[k], x));
    }
  }

  /** The same in terms of the entries before the update: the list stays current if and only if the track has
      the value already, or nobody has, or the track leaves another value to others, or some entry is too old. */
  lemma CurrentWhen(s: State, u: Update, age: int)
    requires RankInv(s) && age >= 0 && Current(s, u.prop)
    ensures Current(Updated(s, u, age), u.prop) <==>
            || Has(s.buckets, KeyOf(u), u.alias)
            || (forall x :: !Has(s.buckets, KeyOf(u), x))
            || LeavesOthers(s.buckets, u)
            || SomeTooOld(s.buckets, u, age)
  {
    CurrentIff(s, u, age);
    LeftOthersMeans(s.buckets, u);
    NewValueMeans(s, u);
    AnyInactiveMeans(s, u, age);
  }

  /** Every update that rebuilds leaves the list current for its own property. */
  lemma RebuildIsCurrent(s: State, u: Update, age: int)
    requires Rebuilds(s, u, age)
    ensures Current(Updated(s, u, age), u.prop)
  {
  }

  /** A refresh in place keeps every entry's track. */
  lemma {:induction false} RefreshedAliases(flat: seq<Flat>, u: Update)
    ensures |Refreshed(flat, u)| == |flat|
    ensures forall i | 0 <= i < |flat| :: Refreshed(flat, u)[i].alias == flat[i].alias
  {
    if flat != [] {
      RefreshedAliases(flat[1..], u);
    }
  }

  /** Whatever the updates were, current or stale, the list never holds a track twice. */
  lemma {:induction false} RunListedOnce(us: seq<Aged>)
    ensures ListedOnce(UpdatedAll(EMPTY_RANKING, us).flat)
  {
    if us != [] {
      RunListedOnce(us[..|us| - 1]);
      RunRefines(us[..|us| - 1]);
      UpdateListedOnce(UpdatedAll(EMPTY_RANKING, us[..|us| - 1]), us[|us| - 1].update, us[|us| - 1].age);
    }
  }

  lemma UpdateListedOnce(s: State, u: Update, age: int)
    requires RankInv(s) && ListedOnce(s.flat) && age >= 0
    ensures ListedOnce(Updated(s, u, age).flat)
  {
    var s' := Updated(s, u, age);
    if Rebuilds(s, u, age) {
      UpdateKeeps(s, u, age);
      forall i, j | 0 <= i < j < |s'.flat| ensures s'.flat[i].alias != s'.flat[j].alias {
        FlattenOnce(s', s'.conns, u.prop, i, j);
      }
    } else {
      RefreshedAliases(s.flat, u);
    }
  }

  lemma FirstUpdate(u: Update, age: int)
    requires age >= 0
    ensures var s := Updated(EMPTY_RANKING, u, age);
            s.buckets == map[KeyOf(u) := map[u.alias := TickInfo(HALF + 1, u.tick)]] && Current(s, u.prop) && RankInv(s)
  {
    assert Left(map[], u) == map[];
    UpdateKeeps(EMPTY_RANKING, u, age);
    RebuildIsCurrent(EMPTY_RANKING, u, age);
    forall k | k in Updated(EMPTY_RANKING, u, age).buckets ensures k == KeyOf(u) {
      UpdatedBucket(EMPTY_RANKING, u, age, k);
    }
    UpdatedBucket(EMPTY_RANKING, u, age, KeyOf(u));
    var b: Bucket := map[u.alias := TickInfo(HALF + 1, u.tick)];
    assert MovedBucket(EMPTY_RANKING, u, KeyOf(u)) == b;
    assert Active(u.tick, age)(PlaceOf(b, u.alias));
    assert Restrict(b, Active(u.tick, age)) == b;
    assert Updated(EMPTY_RANKING, u, age).buckets == map[KeyOf(u) := b];
  }

  lemma SecondJoins(s: State, u: Update, age: int, x: Alias, num: int, tick: int)
    requires age >= 0 && u.alias != x && s.buckets == map[KeyOf(u) := map[x := TickInfo(num, tick)]]
    requires tick == u.tick
    ensures !Rebuilds(s, u, age) && u.alias !in At(s.buckets, KeyOf(u))
  {
    assert Left(s.buckets, u) == s.buckets;
  }

  /** Two tracks with the same value: the second joins the bucket but not the list. */
  lemma SecondTrackUnlisted(age: nat)
    ensures var s := UpdatedAll(EMPTY_RANKING, [Aged(Update(1, 7, 5, 0, 1), age), Aged(Update(2, 7, 5, 0, 2), age)]);
            2 in At(s.buckets, (7, 5)) && !Current(s, 7)
  {
    var a1, a2 := Aged(Update(1, 7, 5, 0, 1), age), Aged(Update(2, 7, 5, 0, 2), age);
    var s1 := Updated(EMPTY_RANKING, a1.update, age);
    assert [a1, a2][..1] == [a1] && [a1][..0] == [];
    assert UpdatedAll(EMPTY_RANKING, [a1]) == s1;
    FirstUpdate(a1.update, age);
    SecondJoins(s1, a2.update, age, 1, HALF + 1, 0);
    UpdateKeeps(s1, a2.update, age);
    JoinGoesStale(s1, a2.update, age);
  }
}
