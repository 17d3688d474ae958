/**
 Track ranking: for each property and value a bucket of tracks, ordered inside a bucket by 64-bit
 sequence numbers, and a flat list of the tracks of one property, best first.
 */
module Ranking {
  import opened Ordered

  type Alias = int
  type Prop = int
  type Value = int
  type Key = (Prop, Value)

  /** When a track entered its bucket, and when it was last updated. */
  datatype TickInfo = TickInfo(seqNum: int, tick: int)

  type Bucket = map<Alias, TickInfo>
  type Buckets = map<Key, Bucket>

  const HALF := 0x8000_0000_0000_0000

  // ---------------------------------------------------------------- the order inside a bucket

  /** Ascending sequence number; the larger alias first when numbers are equal. */
  predicate Before(b: Bucket, x: Alias, y: Alias)
    requires x in b && y in b
  {
    b[x].seqNum < b[y].seqNum || (b[x].seqNum == b[y].seqNum && x > y)
  }

  ghost predicate IsFirst(b: Bucket, x: Alias) {
    x in b && forall y | y in b && y != x :: Before(b, x, y)
  }

  lemma {:induction false} HasFirst(b: Bucket)
    requires b != map[]
    ensures exists x :: IsFirst(b, x)
    decreases |b|
  {
    assert b.Keys != {};
    var e := Element(b.Keys);
    var rest := b - {e};
    assert b.Keys == rest.Keys + {e};
    if rest == map[] {
      assert IsFirst(b, e);
    } else {
      HasFirst(rest);
      var x :| IsFirst(rest, x);
      assert IsFirst(b, if Before(b, x, e) then x else e);
    }
  }

  function First(b: Bucket): (x: Alias)
    requires b != map[]
    ensures IsFirst(b, x)
  {
    HasFirst(b);
    var x :| x in b && forall y | y in b && y != x :: Before(b, x, y);
    x
  }

  /** A place in a line: a track and its last update. */
  datatype Place = Place(alias: Alias, tick: int)

  function PlaceOf(b: Bucket, x: Alias): Place
    requires x in b
  {
    Place(x, b[x].tick)
  }

  /** The tracks of a bucket in order. */
  function Line(b: Bucket): seq<Place>
    decreases |b|
  {
    if b == map[] then []
    else
      var x := First(b);
      assert (b - {x}).Keys == b.Keys - {x};
      [PlaceOf(b, x)] + Line(b - {x})
  }

  ghost predicate InBucket(b: Bucket, l: seq<Place>) {
    forall i | 0 <= i < |l| :: l[i].alias in b && l[i].tick == b[l[i].alias].tick
  }

  ghost predicate InOrder(b: Bucket, l: seq<Place>)
    requires InBucket(b, l)
  {
    forall i, j | 0 <= i < j < |l| :: Before(b, l[i].alias, l[j].alias)
  }

  ghost predicate Covers(b: Bucket, l: seq<Place>) {
    forall x | x in b :: PlaceOf(b, x) in l
  }

  /** `l` lists exactly the tracks of `b`, in order. */
  ghost predicate IsLine(b: Bucket, l: seq<Place>) {
    InBucket(b, l) && InOrder(b, l) && Covers(b, l)
  }

  lemma {:induction false} LineIs(b: Bucket)
    ensures IsLine(b, Line(b))
    decreases |b|
  {
    if b != map[] {
      var x := First(b);
      var rest := b - {x};
      assert rest.Keys == b.Keys - {x};
      LineIs(rest);
      var l := Line(rest);
      forall y | y in b ensures PlaceOf(b, y) in [PlaceOf(b, x)] + l {
        if y != x {
          assert PlaceOf(rest, y) in l;
        }
      }
    }
  }

  lemma {:induction false} LineOnly(b: Bucket, l: seq<Place>)
    requires IsLine(b, l)
    ensures l == Line(b)
    decreases |b|
  {
    if b != map[] {
      var x := First(b);
      FirstLeads(b, l, x);
      TailIsLine(b, l);
      assert (b - {x}).Keys == b.Keys - {x};
      LineOnly(b - {x}, l[1..]);
      assert l == [PlaceOf(b, x)] + l[1..];
    }
  }

  lemma FirstLeads(b: Bucket, l: seq<Place>, x: Alias)
    requires IsLine(b, l) && IsFirst(b, x)
    ensures l != [] && l[0] == PlaceOf(b, x)
  {
    assert PlaceOf(b, x) in l;
    var i :| 0 <= i < |l| && l[i] == PlaceOf(b, x);
    if i > 0 {
      assert Before(b, l[0].alias, l[i].alias);
      assert l[0].alias == x;
    }
  }

  lemma TailIsLine(b: Bucket, l: seq<Place>)
    requires IsLine(b, l) && l != []
    ensures IsLine(b - {l[0].alias}, l[1..])
  {
    var rest := b - {l[0].alias};
    forall k | 0 <= k < |l[1..]| ensures l[1..][k] == l[k + 1] && l[k + 1].alias in rest {
      assert Before(b, l[0].alias, l[k + 1].alias);
    }
    forall y | y in rest ensures PlaceOf(rest, y) in l[1..] {
      assert PlaceOf(b, y) in l;
      var k :| 0 <= k < |l| && l[k] == PlaceOf(b, y);
      assert l[1..][k - 1] == l[k];
    }
  }

  // ---------------------------------------------------------------- changes of a bucket

  /** A track with the largest number goes last. */
  lemma LineAppend(b: Bucket, x: Alias, info: TickInfo)
    requires x !in b && forall y | y in b :: b[y].seqNum < info.seqNum
    ensures Line(b[x := info]) == Line(b) + [Place(x, info.tick)]
  {
    LineIs(b);
    var b', l := b[x := info], Line(b) + [Place(x, info.tick)];
    forall y | y in b' ensures PlaceOf(b', y) in l {
      if y == x {
        assert l[|l| - 1] == PlaceOf(b', x);
      } else {
        assert PlaceOf(b, y) in Line(b);
      }
    }
    LineOnly(b', l);
  }

  /** A track with the smallest number goes first. */
  lemma LinePrepend(b: Bucket, x: Alias, info: TickInfo)
    requires x !in b && forall y | y in b :: info.seqNum < b[y].seqNum
    ensures Line(b[x := info]) == [Place(x, info.tick)] + Line(b)
  {
    LineIs(b);
    var b', l := b[x := info], [Place(x, info.tick)] + Line(b);
    forall y | y in b' ensures PlaceOf(b', y) in l {
      if y == x {
        assert l[0] == PlaceOf(b', x);
      } else {
        assert PlaceOf(b, y) in Line(b);
      }
    }
    LineOnly(b', l);
  }

  /** The same line with a new update time for one track. */
  function Touched(l: seq<Place>, x: Alias, tick: int): (r: seq<Place>)
    ensures |r| == |l|
    ensures forall i | 0 <= i < |l| :: r[i] == if l[i].alias == x then Place(x, tick) else l[i]
  {
    if l == [] then []
    else
      var last := l[|l| - 1];
      Touched(l[..|l| - 1], x, tick) + [if last.alias == x then Place(x, tick) else last]
  }

  lemma TouchedLine(b: Bucket, x: Alias, tick: int, l: seq<Place>)
    requires x in b && InBucket(b, l) && InOrder(b, l)
    ensures var b' := b[x := b[x].(tick := tick)]; InBucket(b', Touched(l, x, tick)) && InOrder(b', Touched(l, x, tick))
  {
    assert forall i | 0 <= i < |l| :: Touched(l, x, tick)[i].alias == l[i].alias;
  }

  lemma TouchedCovers(b: Bucket, x: Alias, tick: int, l: seq<Place>)
    requires x in b && Covers(b, l)
    ensures Covers(b[x := b[x].(tick := tick)], Touched(l, x, tick))
  {
    var b' := b[x := b[x].(tick := tick)];
    forall y | y in b' ensures PlaceOf(b', y) in Touched(l, x, tick) {
      assert PlaceOf(b, y) in l;
      var i :| 0 <= i < |l| && l[i] == PlaceOf(b, y);
      assert Touched(l, x, tick)[i] == PlaceOf(b', y);
    }
  }

  lemma LineTouch(b: Bucket, x: Alias, tick: int)
    requires x in b
    ensures Line(b[x := b[x].(tick := tick)]) == Touched(Line(b), x, tick)
  {
    LineIs(b);
    TouchedLine(b, x, tick, Line(b));
    TouchedCovers(b, x, tick, Line(b));
    LineOnly(b[x := b[x].(tick := tick)], Touched(Line(b), x, tick));
  }

  /** The places that satisfy `keep`. */
  function Kept(l: seq<Place>, keep: Place -> bool): seq<Place> {
    if l == [] then []
    else Kept(l[..|l| - 1], keep) + if keep(l[|l| - 1]) then [l[|l| - 1]] else []
  }

  lemma {:induction false} KeptMembers(l: seq<Place>, keep: Place -> bool, p: Place)
    ensures p in Kept(l, keep) <==> p in l && keep(p)
  {
    if l != [] {
      KeptMembers(l[..|l| - 1], keep, p);
      assert l == l[..|l| - 1] + [l[|l| - 1]];
    }
  }

  lemma {:induction false} KeptInOrder(b: Bucket, l: seq<Place>, keep: Place -> bool)
    requires InBucket(b, l) && InOrder(b, l)
    ensures InBucket(b, Kept(l, keep)) && InOrder(b, Kept(l, keep))
  {
    if l != [] {
      var init, last := l[..|l| - 1], l[|l| - 1];
      KeptInOrder(b, init, keep);
      var k := Kept(init, keep);
      forall i | 0 <= i < |k| ensures Before(b, k[i].alias, last.alias) {
        KeptMembers(init, keep, k[i]);
        var n :| 0 <= n < |init| && init[n] == k[i];
        assert Before(b, l[n].alias, l[|l| - 1].alias);
      }
    }
  }

  function Restrict(b: Bucket, keep: Place -> bool): Bucket {
    map x | x in b && keep(PlaceOf(b, x)) :: b[x]
  }

  /** Removals keep the order of the rest. */
  lemma LineRestrict(b: Bucket, keep: Place -> bool)
    ensures Line(Restrict(b, keep)) == Kept(Line(b), keep)
  {
    LineIs(b);
    var b', l := Restrict(b, keep), Kept(Line(b), keep);
    KeptInOrder(b, Line(b), keep);
    forall i | 0 <= i < |l| ensures l[i].alias in b' && l[i].tick == b'[l[i].alias].tick {
      assert l[i] in l;
      KeptMembers(Line(b), keep, l[i]);
    }
    assert InOrder(b', l) by {
      forall i, j | 0 <= i < j < |l| ensures Before(b', l[i].alias, l[j].alias) {
        assert Before(b, l[i].alias, l[j].alias);
      }
    }
    forall x | x in b' ensures PlaceOf(b', x) in l {
      assert PlaceOf(b, x) in Line(b);
      KeptMembers(Line(b), keep, PlaceOf(b, x));
    }
    LineOnly(b', l);
  }

  // ---------------------------------------------------------------- one update

  datatype Update = Update(alias: Alias, prop: Prop, value: Value, tick: int, conn: int)

  datatype Flat = Flat(alias: Alias, seqNum: int, tick: int, conn: int)

  datatype State = State(buckets: Buckets, flat: seq<Flat>, conns: map<Alias, int>, count: int)

  function KeyOf(u: Update): Key {
    (u.prop, u.value)
  }

  function At(buckets: Buckets, k: Key): Bucket {
    if k in buckets then buckets[k] else map[]
  }

  /** Another value of the property that is updated. */
  predicate OtherValue(u: Update, k: Key) {
    k.0 == u.prop && k.1 != u.value
  }

  /** The track leaves every other value of the property; a bucket that this empties is erased. */
  function Left(buckets: Buckets, u: Update): Buckets {
    map k | k in buckets && !(OtherValue(u, k) && u.alias in buckets[k] && buckets[k] - {u.alias} == map[]) ::
      if OtherValue(u, k) then buckets[k] - {u.alias} else buckets[k]
  }

  predicate Decreased(buckets: Buckets, u: Update) {
    exists k | k in buckets :: k.0 == u.prop && k.1 > u.value && u.alias in buckets[k]
  }

  /** The track left a bucket that keeps other tracks. */
  predicate LeftOthers(buckets: Buckets, u: Update) {
    exists k | k in buckets :: OtherValue(u, k) && u.alias in buckets[k] && buckets[k] - {u.alias} != map[]
  }

  /** A track that came from a higher value goes before all others, one that did not after them. */
  function SeqNum(count: int, decreased: bool): int {
    if decreased then HALF - 1 - count else HALF + count
  }

  function JoinedBucket(b: Bucket, u: Update, num: int): Bucket {
    if u.alias in b then b[u.alias := b[u.alias].(tick := u.tick)] else b[u.alias := TickInfo(num, u.tick)]
  }

  function Joined(buckets: Buckets, u: Update, num: int): Buckets {
    buckets[KeyOf(u) := JoinedBucket(At(buckets, KeyOf(u)), u, num)]
  }

  /** Not inactive at `now`: an update in the future never is. */
  function Active(now: int, age: int): Place -> bool {
    (p: Place) => !(now >= p.tick && now - p.tick > age)
  }

  function Swept(buckets: Buckets, now: int, age: int): Buckets {
    map k | k in buckets && Restrict(buckets[k], Active(now, age)) != map[] :: Restrict(buckets[k], Active(now, age))
  }

  predicate AnyInactive(buckets: Buckets, now: int, age: int) {
    exists k | k in buckets :: exists x | x in buckets[k] :: !Active(now, age)(PlaceOf(buckets[k], x))
  }

  function ConnOf(conns: map<Alias, int>, x: Alias): int {
    if x in conns then conns[x] else 0
  }

  /** A bucket's part of the flat list. */
  function FlatLine(b: Bucket, l: seq<Place>, conns: map<Alias, int>): seq<Flat> {
    if l == [] then []
    else
      var x := l[|l| - 1].alias;
      FlatLine(b, l[..|l| - 1], conns) + [Flat(x, if x in b then b[x].seqNum else 0, l[|l| - 1].tick, ConnOf(conns, x))]
  }

  function ValuesOf(buckets: Buckets, prop: Prop): set<Value> {
    set k | k in buckets && k.0 == prop :: k.1
  }

  /** The buckets of the values `vs`, the last value first. */
  function FlatValues(buckets: Buckets, conns: map<Alias, int>, prop: Prop, vs: seq<Value>): seq<Flat> {
    if vs == [] then []
    else
      var b := At(buckets, (prop, vs[|vs| - 1]));
      FlatLine(b, Line(b), conns) + FlatValues(buckets, conns, prop, vs[..|vs| - 1])
  }

  /** The flat list of a property: values descending, each bucket in its order. */
  function Flatten(buckets: Buckets, conns: map<Alias, int>, prop: Prop): seq<Flat> {
    FlatValues(buckets, conns, prop, Sorted(ValuesOf(buckets, prop)))
  }

  /** The fast path: the first entry of the track is refreshed in place. */
  function Refreshed(flat: seq<Flat>, u: Update): seq<Flat> {
    if flat == [] then []
    else if flat[0].alias == u.alias then [flat[0].(tick := u.tick, conn := u.conn)] + flat[1..]
    else [flat[0]] + Refreshed(flat[1..], u)
  }

  function Moved(s: State, u: Update): Buckets {
    Joined(Left(s.buckets, u), u, SeqNum(s.count + 1, Decreased(s.buckets, u)))
  }

  predicate Rebuilds(s: State, u: Update, age: int) {
    LeftOthers(s.buckets, u) || KeyOf(u) !in Left(s.buckets, u) || AnyInactive(Moved(s, u), u.tick, age)
  }

  function Updated(s: State, u: Update, age: int): State {
    var buckets := Swept(Moved(s, u), u.tick, age);
    var conns := s.conns[u.alias := u.conn];
    State(buckets, if Rebuilds(s, u, age) then Flatten(buckets, conns, u.prop) else Refreshed(s.flat, u),
          conns, s.count + 1)
  }

  // ---------------------------------------------------------------- the invariant

  ghost predicate NumsWithin(b: Bucket, count: int) {
    forall x | x in b :: HALF - 1 - count <= b[x].seqNum <= HALF + count
  }

  ghost predicate NumsDiffer(b: Bucket) {
    forall x, y | x in b && y in b && x != y :: b[x].seqNum != b[y].seqNum
  }

  ghost predicate BucketOk(b: Bucket, count: int) {
    b != map[] && NumsWithin(b, count) && NumsDiffer(b)
  }

  ghost predicate OneValue(buckets: Buckets) {
    forall k, k' | k in buckets && k' in buckets && k.0 == k'.0 && k != k' ::
      forall x | x in buckets[k] :: x !in buckets[k']
  }

  /** No bucket is empty, each track has at most one value for a property, and the sequence numbers
      of a bucket differ, so that the alias never decides the order. */
  ghost predicate RankInv(s: State) {
    && (forall k | k in s.buckets :: BucketOk(s.buckets[k], s.count))
    && OneValue(s.buckets)
    && (forall k, x | k in s.buckets && x in s.buckets[k] :: x in s.conns)
    && 0 <= s.count
  }

  lemma LeftBucket(buckets: Buckets, u: Update, k: Key)
    requires forall k | k in buckets :: buckets[k] != map[]
    ensures At(Left(buckets, u), k) == if OtherValue(u, k) then At(buckets, k) - {u.alias} else At(buckets, k)
    ensures k in Left(buckets, u) <==> At(Left(buckets, u), k) != map[]
  {
    if k in buckets && u.alias !in buckets[k] {
      assert buckets[k] - {u.alias} == buckets[k];
    }
  }

  lemma SweptBucket(buckets: Buckets, now: int, age: int, k: Key)
    ensures At(Swept(buckets, now, age), k) == Restrict(At(buckets, k), Active(now, age))
    ensures k in Swept(buckets, now, age) <==> At(Swept(buckets, now, age), k) != map[]
  {
  }

  /** The bucket of `k` after an update, before the sweep. */
  function MovedBucket(s: State, u: Update, k: Key): Bucket {
    if k == KeyOf(u) then JoinedBucket(At(s.buckets, k), u, SeqNum(s.count + 1, Decreased(s.buckets, u)))
    else if OtherValue(u, k) then At(s.buckets, k) - {u.alias}
    else At(s.buckets, k)
  }

  lemma UpdatedBucket(s: State, u: Update, age: int, k: Key)
    requires RankInv(s)
    ensures At(Moved(s, u), k) == MovedBucket(s, u, k)
    ensures At(Updated(s, u, age).buckets, k) == Restrict(MovedBucket(s, u, k), Active(u.tick, age))
    ensures k in Updated(s, u, age).buckets <==> At(Updated(s, u, age).buckets, k) != map[]
  {
    forall k | k in s.buckets ensures s.buckets[k] != map[] {
      assert BucketOk(s.buckets[k], s.count);
    }
    LeftBucket(s.buckets, u, k);
    SweptBucket(Moved(s, u), u.tick, age, k);
  }

  /** The track has an entry for the property value. */
  predicate Has(buckets: Buckets, k: Key, x: Alias) {
    k in buckets && x in buckets[k]
  }

  /** In numbers, what becomes of every other entry: one last updated in the future stays, and else one no more
      than `age` ticks old; what stays is as it was. */
  lemma EntryStaysIff(s: State, u: Update, age: int, k: Key, x: Alias)
    requires RankInv(s) && !(x == u.alias && k.0 == u.prop)
    ensures Has(Updated(s, u, age).buckets, k, x) <==>
            Has(s.buckets, k, x) && (s.buckets[k][x].tick > u.tick || u.tick - s.buckets[k][x].tick <= age)
    ensures Has(Updated(s, u, age).buckets, k, x) ==> Updated(s, u, age).buckets[k][x] == s.buckets[k][x]
  {
    var b, b' := MovedBucket(s, u, k), At(Updated(s, u, age).buckets, k);
    UpdatedBucket(s, u, age, k);
    MovedKeeps(s, u, k, x);
    RestrictMember(b, u.tick, age, x);
    assert b' == Restrict(b, Active(u.tick, age));
  }

  lemma MovedKeeps(s: State, u: Update, k: Key, x: Alias)
    requires !(x == u.alias && k.0 == u.prop)
    ensures x in MovedBucket(s, u, k) <==> x in At(s.buckets, k)
    ensures x in At(s.buckets, k) ==> MovedBucket(s, u, k)[x] == At(s.buckets, k)[x]
  {
  }

  lemma RestrictMember(b: Bucket, now: int, age: int, x: Alias)
    ensures var b' := Restrict(b, Active(now, age));
            (x in b' <==> x in b && (b[x].tick > now || now - b[x].tick <= age)) && (x in b' ==> b'[x] == b[x])
  {
  }

  /** And of the updated track for the property: it has the new value, and no other, with the new tick; where it
      had the value before it keeps its number, and else takes one outside the range of those given before,
      below them all exactly when it had a higher value. */
  lemma EntryUpdated(s: State, u: Update, age: int, v: Value)
    requires RankInv(s) && age >= 0
    ensures Has(Updated(s, u, age).buckets, (u.prop, v), u.alias) <==> v == u.value
    ensures var now := Updated(s, u, age).buckets;
            && Has(now, KeyOf(u), u.alias) && now[KeyOf(u)][u.alias].tick == u.tick
            && (if Has(s.buckets, KeyOf(u), u.alias)
                then now[KeyOf(u)][u.alias].seqNum == s.buckets[KeyOf(u)][u.alias].seqNum
                else if exists w :: w > u.value && Has(s.buckets, (u.prop, w), u.alias)
                then now[KeyOf(u)][u.alias].seqNum == HALF - 1 - (s.count + 1)
                else now[KeyOf(u)][u.alias].seqNum == HALF + (s.count + 1))
  {
    UpdatedBucket(s, u, age, (u.prop, v));
    UpdatedSurvives(s, u, age);
    UpdatedBucket(s, u, age, KeyOf(u));
    DecreasedMeans(s.buckets, u);
    assert u.alias in At(Updated(s, u, age).buckets, (u.prop, v)) <==>
           u.alias in Restrict(MovedBucket(s, u, (u.prop, v)), Active(u.tick, age));
  }

  lemma DecreasedMeans(buckets: Buckets, u: Update)
    ensures Decreased(buckets, u) <==> exists w :: w > u.value && Has(buckets, (u.prop, w), u.alias)
  {
    if w :| w > u.value && Has(buckets, (u.prop, w), u.alias) {
      assert (u.prop, w).0 == u.prop && (u.prop, w).1 == w;
    }
    if Decreased(buckets, u) {
      var k :| k in buckets && k.0 == u.prop && k.1 > u.value && u.alias in buckets[k];
      assert k == (u.prop, k.1) && Has(buckets, (u.prop, k.1), u.alias);
    }
  }

  lemma MovedOk(s: State, u: Update, k: Key)
    requires RankInv(s)
    ensures NumsWithin(MovedBucket(s, u, k), s.count + 1) && NumsDiffer(MovedBucket(s, u, k))
  {
    if k in s.buckets {
      assert BucketOk(s.buckets[k], s.count);
    }
  }

  lemma UpdatedBucketOk(s: State, u: Update, age: int, k: Key)
    requires RankInv(s) && k in Updated(s, u, age).buckets
    ensures BucketOk(Updated(s, u, age).buckets[k], s.count + 1)
  {
    UpdatedBucket(s, u, age, k);
    MovedOk(s, u, k);
  }

  /** A track in a bucket after an update is active; the updated track is there for its new value
      only, and every other track was there before. */
  lemma UpdatedMember(s: State, u: Update, age: int, k: Key, x: Alias)
    requires RankInv(s)
    requires k in Updated(s, u, age).buckets && x in Updated(s, u, age).buckets[k]
    ensures Active(u.tick, age)(PlaceOf(Updated(s, u, age).buckets[k], x))
    ensures if x == u.alias && k.0 == u.prop then k == KeyOf(u) else k in s.buckets && x in s.buckets[k]
  {
    UpdatedBucket(s, u, age, k);
  }

  lemma UpdatedSurvives(s: State, u: Update, age: int)
    requires RankInv(s) && age >= 0
    ensures KeyOf(u) in Updated(s, u, age).buckets && u.alias in Updated(s, u, age).buckets[KeyOf(u)]
  {
    UpdatedBucket(s, u, age, KeyOf(u));
    assert Active(u.tick, age)(Place(u.alias, u.tick));
    assert u.alias in At(Updated(s, u, age).buckets, KeyOf(u));
  }

  lemma UpdatedOneValue(s: State, u: Update, age: int)
    requires RankInv(s)
    ensures OneValue(Updated(s, u, age).buckets)
  {
    var bs := Updated(s, u, age).buckets;
    forall k, k' | k in bs && k' in bs && k.0 == k'.0 && k != k'
      ensures forall x | x in bs[k] :: x !in bs[k']
    {
      forall x | x in bs[k] ensures x !in bs[k'] {
        UpdatedApart(s, u, age, k, k', x);
      }
    }
  }

  lemma UpdatedApart(s: State, u: Update, age: int, k: Key, k': Key, x: Alias)
    requires RankInv(s) && k.0 == k'.0 && k != k'
    requires k in Updated(s, u, age).buckets && x in Updated(s, u, age).buckets[k] && k' in Updated(s, u, age).buckets
    ensures x !in Updated(s, u, age).buckets[k']
  {
    UpdatedMember(s, u, age, k, x);
    if x in Updated(s, u, age).buckets[k'] {
      UpdatedMember(s, u, age, k', x);
      assert false;
    }
  }

  /** Everything the ranking promises of its buckets survives an update; the updated track is in its
      bucket and nothing inactive is left. */
  lemma UpdateKeeps(s: State, u: Update, age: int)
    requires RankInv(s) && age >= 0
    ensures RankInv(Updated(s, u, age))
    ensures KeyOf(u) in Updated(s, u, age).buckets && u.alias in Updated(s, u, age).buckets[KeyOf(u)]
    ensures forall k, x | k in Updated(s, u, age).buckets && x in Updated(s, u, age).buckets[k] ::
              Active(u.tick, age)(PlaceOf(Updated(s, u, age).buckets[k], x))
  {
    var s' := Updated(s, u, age);
    forall k | k in s'.buckets ensures BucketOk(s'.buckets[k], s'.count) {
      UpdatedBucketOk(s, u, age, k);
    }
    forall k, x | k in s'.buckets && x in s'.buckets[k]
      ensures x in s'.conns && Active(u.tick, age)(PlaceOf(s'.buckets[k], x))
    {
      UpdatedMember(s, u, age, k, x);
    }
    UpdatedOneValue(s, u, age);
    UpdatedSurvives(s, u, age);
  }

  // ---------------------------------------------------------------- buckets are deques

  /** The lines of all buckets, without any sequence numbers. */
  type Deques = map<Key, seq<Place>>

  function LineAt(d: Deques, k: Key): seq<Place> {
    if k in d then d[k] else []
  }

  predicate InLine(l: seq<Place>, x: Alias) {
    exists i | 0 <= i < |l| :: l[i].alias == x
  }

  predicate FromAbove(d: Deques, u: Update) {
    exists k | k in d :: k.0 == u.prop && k.1 > u.value && InLine(d[k], u.alias)
  }

  function NotTrack(x: Alias): Place -> bool {
    (p: Place) => p.alias != x
  }

  /** A track that stays is refreshed where it stands; one that comes from a higher value goes to the
      front, any other to the back; elsewhere in the property it leaves the line. */
  function DequeMoved(d: Deques, u: Update, k: Key): seq<Place> {
    var l := LineAt(d, k);
    if k == KeyOf(u) then
      if InLine(l, u.alias) then Touched(l, u.alias, u.tick)
      else if FromAbove(d, u) then [Place(u.alias, u.tick)] + l
      else l + [Place(u.alias, u.tick)]
    else if OtherValue(u, k) then Kept(l, NotTrack(u.alias))
    else l
  }

  function DequeLine(d: Deques, u: Update, age: int, k: Key): seq<Place> {
    Kept(DequeMoved(d, u, k), Active(u.tick, age))
  }

  function DequeUpdated(d: Deques, u: Update, age: int): Deques {
    map k | k in d.Keys + {KeyOf(u)} && DequeLine(d, u, age, k) != [] :: DequeLine(d, u, age, k)
  }

  function Lines(buckets: Buckets): Deques {
    map k | k in buckets :: Line(buckets[k])
  }

  lemma LineHolds(b: Bucket, x: Alias)
    ensures InLine(Line(b), x) <==> x in b
    ensures Line(b) == [] <==> b == map[]
  {
    LineIs(b);
    if x in b {
      assert PlaceOf(b, x) in Line(b);
    }
  }

  lemma DecreasedFromAbove(buckets: Buckets, u: Update)
    ensures FromAbove(Lines(buckets), u) <==> Decreased(buckets, u)
  {
    forall k | k in buckets ensures InLine(Lines(buckets)[k], u.alias) <==> u.alias in buckets[k] {
      LineHolds(buckets[k], u.alias);
    }
  }

  lemma LinesAt(buckets: Buckets, k: Key)
    ensures LineAt(Lines(buckets), k) == Line(At(buckets, k))
  {
  }

  lemma MovedLine(s: State, u: Update, k: Key)
    requires RankInv(s)
    ensures Line(MovedBucket(s, u, k)) == DequeMoved(Lines(s.buckets), u, k)
  {
    var b := At(s.buckets, k);
    LinesAt(s.buckets, k);
    LineHolds(b, u.alias);
    DecreasedFromAbove(s.buckets, u);
    if k in s.buckets {
      assert BucketOk(b, s.count);
    }
    if k == KeyOf(u) {
      var num := SeqNum(s.count + 1, Decreased(s.buckets, u));
      if u.alias in b {
        LineTouch(b, u.alias, u.tick);
      } else if Decreased(s.buckets, u) {
        LinePrepend(b, u.alias, TickInfo(num, u.tick));
      } else {
        LineAppend(b, u.alias, TickInfo(num, u.tick));
      }
    } else if OtherValue(u, k) {
      assert b - {u.alias} == Restrict(b, NotTrack(u.alias));
      LineRestrict(b, NotTrack(u.alias));
    }
  }

  lemma UpdatedLine(s: State, u: Update, age: int, k: Key)
    requires RankInv(s)
    ensures LineAt(Lines(Updated(s, u, age).buckets), k) == DequeLine(Lines(s.buckets), u, age, k)
    ensures k in Updated(s, u, age).buckets <==> DequeLine(Lines(s.buckets), u, age, k) != []
  {
    UpdatedBucket(s, u, age, k);
    MovedLine(s, u, k);
    LineRestrict(MovedBucket(s, u, k), Active(u.tick, age));
    LinesAt(Updated(s, u, age).buckets, k);
    LineHolds(At(Updated(s, u, age).buckets, k), u.alias);
  }

  lemma DequeLineElsewhere(d: Deques, u: Update, age: int, k: Key)
    requires k !in d && k != KeyOf(u)
    ensures DequeLine(d, u, age, k) == []
  {
  }

  /** Sorting the buckets by sequence number refines the deques: one update of the one is one update
      of the other. */
  lemma DequesRefined(s: State, u: Update, age: int)
    requires RankInv(s)
    ensures Lines(Updated(s, u, age).buckets) == DequeUpdated(Lines(s.buckets), u, age)
  {
    var d, d' := Lines(s.buckets), Lines(Updated(s, u, age).buckets);
    forall k ensures (k in d' <==> k in DequeUpdated(d, u, age)) && (k in d' ==> d'[k] == DequeUpdated(d, u, age)[k]) {
      DequeRefined(s, u, age, k);
    }
    SameDeques(d', DequeUpdated(d, u, age));
  }

  lemma SameDeques(a: Deques, b: Deques)
    requires forall k :: (k in a <==> k in b) && (k in a ==> a[k] == b[k])
    ensures a == b
  {
  }

  lemma DequeRefined(s: State, u: Update, age: int, k: Key)
    requires RankInv(s)
    ensures var d, d' := Lines(s.buckets), Lines(Updated(s, u, age).buckets);
            (k in d' <==> k in DequeUpdated(d, u, age)) && (k in d' ==> d'[k] == DequeUpdated(d, u, age)[k])
  {
    UpdatedLine(s, u, age, k);
    if k !in Lines(s.buckets) && k != KeyOf(u) {
      DequeLineElsewhere(Lines(s.buckets), u, age, k);
    }
  }

  /** A track whose value fell ranks ahead of the tracks that were there; it is at the bottom of the
      bucket, as documented, exactly when nothing else is in it. */
  lemma FallenRanksFirst(s: State, u: Update, age: int)
    requires RankInv(s) && age >= 0
    requires Decreased(s.buckets, u) && u.alias !in At(s.buckets, KeyOf(u))
    ensures var l := LineAt(Lines(Updated(s, u, age).buckets), KeyOf(u));
            && l != [] && l[0].alias == u.alias
            && (l[|l| - 1].alias == u.alias <==> |l| == 1)
  {
    var k := KeyOf(u);
    UpdateKeeps(s, u, age);
    LinesAt(Updated(s, u, age).buckets, k);
    LineIs(At(Updated(s, u, age).buckets, k));
    UpdatedLine(s, u, age, k);
    LinesAt(s.buckets, k);
    LineHolds(At(s.buckets, k), u.alias);
    DecreasedFromAbove(s.buckets, u);
    KeptFirst([Place(u.alias, u.tick)], LineAt(Lines(s.buckets), k), Active(u.tick, age));
  }

  lemma {:induction false} KeptFirst(p: seq<Place>, l: seq<Place>, keep: Place -> bool)
    requires |p| == 1 && keep(p[0])
    ensures Kept(p + l, keep) != [] && Kept(p + l, keep)[0] == p[0]
  {
    if l == [] {
      assert p + l == p && Kept(p[..0], keep) == [];
    } else {
      KeptFirst(p, l[..|l| - 1], keep);
      assert (p + l)[..|p + l| - 1] == p + l[..|l| - 1];
    }
  }

  // ---------------------------------------------------------------- runs

  /** An update, and the inactive age in force when it comes: namespace subscribers may raise it. */
  datatype Aged = Aged(update: Update, age: nat)

  function UpdatedAll(s: State, us: seq<Aged>): State {
    if us == [] then s else Updated(UpdatedAll(s, us[..|us| - 1]), us[|us| - 1].update, us[|us| - 1].age)
  }

  function DequesAll(d: Deques, us: seq<Aged>): Deques {
    if us == [] then d else DequeUpdated(DequesAll(d, us[..|us| - 1]), us[|us| - 1].update, us[|us| - 1].age)
  }

  const EMPTY_RANKING := State(map[], [], map[], 0)

  /** Over any run of updates, the ranking orders its tracks as the deques do. Fewer than 2^63
      updates keep the sequence numbers of `Updated` within 64 bits. */
  lemma {:induction false} RunRefines(us: seq<Aged>)
    ensures var s := UpdatedAll(EMPTY_RANKING, us);
            RankInv(s) && s.count == |us| && Lines(s.buckets) == DequesAll(map[], us)
  {
    if us != [] {
      RunRefines(us[..|us| - 1]);
      var s, last := UpdatedAll(EMPTY_RANKING, us[..|us| - 1]), us[|us| - 1];
      UpdateKeeps(s, last.update, last.age);
      DequesRefined(s, last.update, last.age);
    }
  }
}
