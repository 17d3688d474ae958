/** The ranking object: `UpdateValue` with its loops over buckets, its sweep and its flat list. */
module TrackRankings {
  import opened Ordered
  import opened Ranking

  const DEFAULT_INACTIVE_AGE := 10000
  const WORD := 0x1_0000_0000_0000_0000

  /** The sequence number as 64-bit words give it: a wrapping difference, or the top bit set. */
  function SeqWord(count: int, decreased: bool): int {
    if decreased then (HALF - 1 - count) % WORD
    else if count % WORD >= HALF then count % WORD else count % WORD + HALF
  }

  /** Up to 2^63 updates the words are the numbers the order relies on. */
  lemma SeqWordExact(count: int, decreased: bool)
    requires 0 <= count < HALF
    ensures SeqWord(count, decreased) == SeqNum(count, decreased) && 0 <= SeqNum(count, decreased) < WORD
  {
  }

  // ---------------------------------------------------------------- the loops as functions

  predicate Empties(buckets: Buckets, u: Update, k: Key) {
    OtherValue(u, k) && k in buckets && u.alias in buckets[k] && buckets[k] - {u.alias} == map[]
  }

  /** After the values `vs` of the property have been visited. */
  function LeftOver(buckets: Buckets, u: Update, vs: set<Value>): Buckets {
    map k | k in buckets && !(k.1 in vs && Empties(buckets, u, k)) ::
      if k.1 in vs && OtherValue(u, k) then buckets[k] - {u.alias} else buckets[k]
  }

  ghost predicate DecreasedOver(buckets: Buckets, u: Update, vs: set<Value>) {
    exists v | v in vs :: v > u.value && u.alias in At(buckets, (u.prop, v))
  }

  ghost predicate LeftOthersOver(buckets: Buckets, u: Update, vs: set<Value>) {
    exists v | v in vs :: v != u.value && u.alias in At(buckets, (u.prop, v))
                          && At(buckets, (u.prop, v)) - {u.alias} != map[]
  }

  lemma LeftOverNone(buckets: Buckets, u: Update)
    ensures LeftOver(buckets, u, {}) == buckets
  {
  }

  lemma LeftOverOne(buckets: Buckets, u: Update, vs: set<Value>, v: Value)
    requires v !in vs && (u.prop, v) in buckets
    ensures var k := (u.prop, v);
            var now := LeftOver(buckets, u, vs);
            && k in now && now[k] == buckets[k]
            && LeftOver(buckets, u, vs + {v}) ==
               if v == u.value || u.alias !in buckets[k] then now
               else if buckets[k] - {u.alias} == map[] then now - {k} else now[k := buckets[k] - {u.alias}]
  {
    var k := (u.prop, v);
    if v != u.value && u.alias !in buckets[k] {
      assert buckets[k] - {u.alias} == buckets[k];
    }
  }

  lemma LeftOverAll(buckets: Buckets, u: Update, vs: set<Value>)
    requires vs == ValuesOf(buckets, u.prop)
    ensures LeftOver(buckets, u, vs) == Left(buckets, u)
    ensures DecreasedOver(buckets, u, vs) <==> Decreased(buckets, u)
    ensures LeftOthersOver(buckets, u, vs) <==> LeftOthers(buckets, u)
  {
    assert forall k | k in buckets && k.0 == u.prop :: k.1 in vs && k == (u.prop, k.1);
  }

  /** After the buckets `ks` have been swept. */
  function SweptOver(buckets: Buckets, now: int, age: int, ks: set<Key>): Buckets {
    map k | k in buckets && (k in ks ==> Restrict(buckets[k], Active(now, age)) != map[]) ::
      if k in ks then Restrict(buckets[k], Active(now, age)) else buckets[k]
  }

  ghost predicate InactiveOver(buckets: Buckets, now: int, age: int, ks: set<Key>) {
    exists k | k in ks :: InactiveIn(At(buckets, k), now, age, At(buckets, k).Keys)
  }

  ghost predicate InactiveIn(b: Bucket, now: int, age: int, xs: set<Alias>) {
    exists x | x in xs && x in b :: !Active(now, age)(PlaceOf(b, x))
  }

  lemma SweptOverOne(buckets: Buckets, now: int, age: int, ks: set<Key>, k: Key)
    requires k in buckets && k !in ks
    ensures var b := Restrict(buckets[k], Active(now, age));
            && k in SweptOver(buckets, now, age, ks) && SweptOver(buckets, now, age, ks)[k] == buckets[k]
            && SweptOver(buckets, now, age, ks + {k}) ==
               if b == map[] then SweptOver(buckets, now, age, ks) - {k} else SweptOver(buckets, now, age, ks)[k := b]
  {
  }

  lemma SweptOverAll(buckets: Buckets, now: int, age: int)
    ensures SweptOver(buckets, now, age, {}) == buckets
    ensures SweptOver(buckets, now, age, buckets.Keys) == Swept(buckets, now, age)
    ensures InactiveOver(buckets, now, age, buckets.Keys) <==> AnyInactive(buckets, now, age)
  {
    if AnyInactive(buckets, now, age) {
      var k :| k in buckets && exists x | x in buckets[k] :: !Active(now, age)(PlaceOf(buckets[k], x));
      assert InactiveIn(At(buckets, k), now, age, At(buckets, k).Keys);
    }
    if InactiveOver(buckets, now, age, buckets.Keys) {
      var k :| k in buckets.Keys && InactiveIn(At(buckets, k), now, age, At(buckets, k).Keys);
      assert k in buckets;
    }
  }

  lemma {:induction false} RefreshedAt(flat: seq<Flat>, u: Update, i: nat)
    requires i <= |flat| && forall j | 0 <= j < i :: flat[j].alias != u.alias
    ensures i == |flat| ==> Refreshed(flat, u) == flat
    ensures i < |flat| && flat[i].alias == u.alias ==>
              Refreshed(flat, u) == flat[i := flat[i].(tick := u.tick, conn := u.conn)]
  {
    if i > 0 {
      RefreshedAt(flat[1..], u, i - 1);
      assert flat == [flat[0]] + flat[1..];
    }
  }

  lemma ValuesNext(buckets: Buckets, conns: map<Alias, int>, prop: Prop, vs: seq<Value>, i: nat)
    requires i < |vs|
    ensures var b := At(buckets, (prop, vs[i]));
            FlatValues(buckets, conns, prop, vs[..i + 1]) ==
            FlatLine(b, Line(b), conns) + FlatValues(buckets, conns, prop, vs[..i])
  {
    assert vs[..i + 1][..i] == vs[..i];
  }

  /** The two halves of an update, put together. */
  lemma UpdateParts(s: State, s': State, u: Update, age: int, rebuild: bool)
    requires s'.buckets == Swept(Moved(s, u), u.tick, age)
    requires s'.conns == s.conns[u.alias := u.conn] && s'.count == s.count + 1
    requires rebuild <==> Rebuilds(s, u, age)
    requires s'.flat == if rebuild then Flatten(s'.buckets, s'.conns, u.prop) else Refreshed(s.flat, u)
    ensures s' == Updated(s, u, age)
  {
  }

  // ---------------------------------------------------------------- the ranking object

  class TrackRanking {
    var inactiveAge: nat
    var ordered: Buckets
    var flat: seq<Flat>
    var conns: map<Alias, int>
    var count: int

    constructor ()
      ensures View() == EMPTY_RANKING && inactiveAge == DEFAULT_INACTIVE_AGE
    {
      inactiveAge := DEFAULT_INACTIVE_AGE;
      ordered, flat, conns, count := map[], [], map[], 0;
    }

    method SetInactiveAge(age: nat)
      modifies this`inactiveAge
      ensures inactiveAge == age
    {
      inactiveAge := age;
    }

    function View(): State
      reads this
    {
      State(ordered, flat, conns, count)
    }

    /** One value of the first loop: whether the track left it with others, and from above. */
    method LeaveValue(u: Update, v: Value) returns (others: bool, above: bool)
      requires (u.prop, v) in ordered
      modifies this`ordered
      ensures above <==> v > u.value && u.alias in old(ordered)[(u.prop, v)]
      ensures others <==> v != u.value && u.alias in old(ordered)[(u.prop, v)]
                          && old(ordered)[(u.prop, v)] - {u.alias} != map[]
      ensures ordered ==
              if v == u.value || u.alias !in old(ordered)[(u.prop, v)] then old(ordered)
              else if old(ordered)[(u.prop, v)] - {u.alias} == map[] then old(ordered) - {(u.prop, v)}
              else old(ordered)[(u.prop, v) := old(ordered)[(u.prop, v)] - {u.alias}]
    {
      var k := (u.prop, v);
      others, above := false, false;
      if v != u.value && u.alias in ordered[k] {
        above := v > u.value;
        ordered := ordered[k := ordered[k] - {u.alias}];
        if ordered[k] == map[] {
          ordered := ordered - {k};
          assert ordered == old(ordered) - {k};
          return;
        }
        others := true;
      }
    }

    /** Takes the track out of the other values of the property. */
    method LeaveValues(u: Update) returns (rebuild: bool, decreased: bool)
      modifies this`ordered
      ensures ordered == Left(old(ordered), u)
      ensures rebuild <==> LeftOthers(old(ordered), u)
      ensures decreased <==> Decreased(old(ordered), u)
    {
      rebuild, decreased := false, false;
      ghost var was := ordered;
      var vs := ValuesOf(ordered, u.prop);
      var order := Sorted(vs);
      SeenNone(vs);
      LeftOverNone(was, u);
      for i := 0 to |order|
        invariant ordered == LeftOver(was, u, Seen(vs, i))
        invariant rebuild <==> LeftOthersOver(was, u, Seen(vs, i))
        invariant decreased <==> DecreasedOver(was, u, Seen(vs, i))
      {
        SeeOne(vs, i);
        LeftOverOne(was, u, Seen(vs, i), order[i]);
        var others, above := LeaveValue(u, order[i]);
        rebuild, decreased := rebuild || others, decreased || above;
      }
      LeftOverAll(was, u, vs);
    }

    /** Puts the track into the bucket of its value, or refreshes it there. */
    method Join(u: Update, decreased: bool) returns (inserted: bool)
      requires 0 <= count < HALF
      modifies this`ordered
      ensures inserted <==> KeyOf(u) !in old(ordered)
      ensures ordered == Joined(old(ordered), u, SeqNum(count, decreased))
    {
      var k := KeyOf(u);
      inserted := k !in ordered;
      if inserted {
        ordered := ordered[k := map[]];
      }
      if u.alias !in ordered[k] {
        SeqWordExact(count, decreased);
        ordered := ordered[k := ordered[k][u.alias := TickInfo(SeqWord(count, decreased), u.tick)]];
      } else {
        ordered := ordered[k := ordered[k][u.alias := ordered[k][u.alias].(tick := u.tick)]];
      }
    }

    /** Drops the inactive tracks of one bucket. */
    method SweepBucket(b: Bucket, now: int) returns (left: Bucket, any: bool)
      ensures left == Restrict(b, Active(now, inactiveAge))
      ensures any <==> InactiveIn(b, now, inactiveAge, b.Keys)
    {
      var order := Sorted(b.Keys);
      left, any := b, false;
      SeenNone(b.Keys);
      for i := 0 to |order|
        invariant left == map x | x in b && (x in Seen(b.Keys, i) ==> Active(now, inactiveAge)(PlaceOf(b, x))) :: b[x]
        invariant any <==> InactiveIn(b, now, inactiveAge, Seen(b.Keys, i))
      {
        SeeOne(b.Keys, i);
        var x := order[i];
        if now >= b[x].tick && now - b[x].tick > inactiveAge {
          left := left - {x};
          any := true;
        }
      }
    }

    /** Drops the inactive tracks of every bucket; the order in which buckets are visited is free. */
    method Sweep(now: int) returns (any: bool)
      modifies this`ordered
      ensures ordered == Swept(old(ordered), now, inactiveAge)
      ensures any <==> AnyInactive(old(ordered), now, inactiveAge)
    {
      any := false;
      ghost var was := ordered;
      var rest := ordered.Keys;
      SweptOverAll(was, now, inactiveAge);
      assert was.Keys - rest == {};
      while rest != {}
        invariant rest <= was.Keys
        invariant ordered == SweptOver(was, now, inactiveAge, was.Keys - rest)
        invariant any <==> InactiveOver(was, now, inactiveAge, was.Keys - rest)
      {
        var k :| k in rest;
        SweptOverOne(was, now, inactiveAge, was.Keys - rest, k);
        assert was.Keys - (rest - {k}) == was.Keys - rest + {k};
        rest := rest - {k};
        var left, some := SweepBucket(ordered[k], now);
        any := any || some;
        ordered := if left == map[] then ordered - {k} else ordered[k := left];
      }
      assert was.Keys - {} == was.Keys;
    }

    /** Rebuilds the list for a property, from its highest value down. */
    method Rebuild(prop: Prop)
      modifies this`flat
      ensures flat == Flatten(ordered, conns, prop)
    {
      flat := [];
      var order := Sorted(ValuesOf(ordered, prop));
      assert order[..|order|] == order;
      for i := |order| downto 0
        invariant flat + FlatValues(ordered, conns, prop, order[..i]) == Flatten(ordered, conns, prop)
      {
        var b := At(ordered, (prop, order[i]));
        ghost var rest := FlatValues(ordered, conns, prop, order[..i]);
        ValuesNext(ordered, conns, prop, order, i);
        assert flat + (FlatLine(b, Line(b), conns) + rest) == flat + FlatLine(b, Line(b), conns) + rest;
        flat := flat + FlatLine(b, Line(b), conns);
      }
    }

    /** Refreshes the first entry of the track. */
    method RefreshEntry(u: Update)
      modifies this`flat
      ensures flat == Refreshed(old(flat), u)
    {
      for i := 0 to |flat|
        invariant flat == old(flat)
        invariant forall j | 0 <= j < i :: flat[j].alias != u.alias
      {
        if flat[i].alias == u.alias {
          RefreshedAt(flat, u, i);
          flat := flat[i := flat[i].(tick := u.tick, conn := u.conn)];
          return;
        }
      }
      RefreshedAt(flat, u, |flat|);
    }

    /** Takes the track from the values it had to its new one. */
    method Move(u: Update) returns (rebuild: bool)
      requires 0 <= count < HALF
      modifies this`ordered
      ensures ordered == Joined(Left(old(ordered), u), u, SeqNum(count, Decreased(old(ordered), u)))
      ensures rebuild <==> LeftOthers(old(ordered), u) || KeyOf(u) !in Left(old(ordered), u)
    {
      var decreased;
      rebuild, decreased := LeaveValues(u);
      var inserted := Join(u, decreased);
      rebuild := rebuild || inserted;
    }

    method Relist(u: Update, rebuild: bool)
      modifies this`flat
      ensures flat == if rebuild then Flatten(ordered, conns, u.prop) else Refreshed(old(flat), u)
    {
      if rebuild {
        Rebuild(u.prop);
      } else {
        RefreshEntry(u);
      }
    }

    /** The list is what every namespace handler is then given. */
    method UpdateValue(u: Update)
      requires 0 <= count < HALF - 1
      modifies this`ordered, this`flat, this`conns, this`count
      ensures View() == Updated(old(View()), u, inactiveAge)
    {
      count := count + 1;
      var rebuild := Move(u);
      conns := conns[u.alias := u.conn];
      assert ordered == Moved(old(View()), u);
      var swept := Sweep(u.tick);
      Relist(u, rebuild || swept);
      UpdateParts(old(View()), View(), u, inactiveAge, rebuild || swept);
    }
  }
}
