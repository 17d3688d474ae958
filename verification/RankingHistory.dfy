/** The ranking in terms of the updates alone: which tracks are ranked after any run of them, and at which value. */
module RankingHistory {
  import opened Ranking

  predicate About(a: Aged, x: Alias, prop: Prop) {
    a.update.alias == x && a.update.prop == prop
  }

  /** The last update of the track for the property; one of no account when there is none. */
  function LastUpdate(us: seq<Aged>, x: Alias, prop: Prop): Update {
    if us == [] then Update(x, prop, 0, 0, 0)
    else if About(us[|us| - 1], x, prop) then us[|us| - 1].update
    else LastUpdate(us[..|us| - 1], x, prop)
  }

  /** By the updates alone: the track was updated for the property, and by no later update, of any track, was
      that too long ago. */
  predicate StillRanked(us: seq<Aged>, x: Alias, prop: Prop) {
    us != [] &&
    var init, last := us[..|us| - 1], us[|us| - 1];
    About(last, x, prop)
    || (StillRanked(init, x, prop)
        && (LastUpdate(init, x, prop).tick > last.update.tick
            || last.update.tick - LastUpdate(init, x, prop).tick <= last.age))
  }

  /** The track is ranked at the value exactly if the updates say so, with the tick they say. */
  ghost predicate RankedAs(buckets: Buckets, us: seq<Aged>, x: Alias, prop: Prop, v: Value) {
    && (Has(buckets, (prop, v), x) <==> StillRanked(us, x, prop) && v == LastUpdate(us, x, prop).value)
    && (Has(buckets, (prop, v), x) ==> buckets[(prop, v)][x].tick == LastUpdate(us, x, prop).tick)
  }

  lemma RankedStep(s: State, init: seq<Aged>, a: Aged, x: Alias, prop: Prop, v: Value)
    requires RankInv(s) && RankedAs(s.buckets, init, x, prop, v)
    ensures RankedAs(Updated(s, a.update, a.age).buckets, init + [a], x, prop, v)
  {
    assert (init + [a])[..|init|] == init;
    if About(a, x, prop) {
      EntryUpdated(s, a.update, a.age, v);
    } else {
      EntryStaysIff(s, a.update, a.age, (prop, v), x);
    }
  }

  lemma RunInv(us: seq<Aged>)
    ensures RankInv(UpdatedAll(EMPTY_RANKING, us))
  {
    RunRefines(us);
  }

  lemma RunNext(init: seq<Aged>, a: Aged)
    ensures UpdatedAll(EMPTY_RANKING, init + [a]) == Updated(UpdatedAll(EMPTY_RANKING, init), a.update, a.age)
  {
    assert (init + [a])[..|init|] == init;
  }

  lemma NoneRanked(x: Alias, prop: Prop, v: Value)
    ensures RankedAs(UpdatedAll(EMPTY_RANKING, []).buckets, [], x, prop, v)
  {
  }

  lemma NextRanked(init: seq<Aged>, a: Aged, us: seq<Aged>, x: Alias, prop: Prop, v: Value)
    requires RankedAs(UpdatedAll(EMPTY_RANKING, init).buckets, init, x, prop, v) && us == init + [a]
    ensures RankedAs(UpdatedAll(EMPTY_RANKING, us).buckets, us, x, prop, v)
  {
    RunInv(init);
    RunNext(init, a);
    RankedStep(UpdatedAll(EMPTY_RANKING, init), init, a, x, prop, v);
  }

  /** Over any run of updates a track is ranked for a property at exactly one value, that of its last update
      with the tick of that, until an update comes by which it is inactive. */
  lemma {:induction false} RankingIsHistory(us: seq<Aged>, x: Alias, prop: Prop, v: Value)
    ensures RankedAs(UpdatedAll(EMPTY_RANKING, us).buckets, us, x, prop, v)
  {
    if us == [] {
      NoneRanked(x, prop, v);
    } else {
      RankingIsHistory(us[..|us| - 1], x, prop, v);
      assert us == us[..|us| - 1] + [us[|us| - 1]];
      NextRanked(us[..|us| - 1], us[|us| - 1], us, x, prop, v);
    }
  }

  /** The connection of the last update of the track. */
  function LastConn(us: seq<Aged>, x: Alias): int {
    if us == [] then 0
    else if us[|us| - 1].update.alias == x then us[|us| - 1].update.conn
    else LastConn(us[..|us| - 1], x)
  }

  lemma {:induction false} ConnIsLast(us: seq<Aged>, x: Alias)
    ensures ConnOf(UpdatedAll(EMPTY_RANKING, us).conns, x) == LastConn(us, x)
  {
    if us != [] {
      ConnIsLast(us[..|us| - 1], x);
    }
  }
}
