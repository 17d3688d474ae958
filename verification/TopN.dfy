/**
 Top-N selection: a namespace handler keeps the best N of its published tracks going, leaves out its
 subscriber's own, and pauses the rest.
 */
module TopN {
  import opened Ordered
  import opened Ranking
  import opened FlatList

  datatype Status = Ok | Paused | Other

  datatype Track = Track(tick: int, status: Status)

  type Tracks = map<Alias, Track>

  /** The subscriber's connection and how many tracks it may have. */
  datatype Limits = Limits(conn: int, most: nat)

  /** `open` holds the tracks for which the publish flow has been started. */
  datatype Selection = Selection(tracks: Tracks, open: set<Alias>, active: set<Alias>)

  /** A track that may be selected: published here, and not the subscriber's own. */
  predicate Eligible(tracks: Tracks, l: Limits, f: Flat) {
    f.conn != l.conn && f.alias in tracks
  }

  function Ticked(tracks: Tracks, f: Flat): Tracks {
    if f.alias in tracks then tracks[f.alias := tracks[f.alias].(tick := f.tick)] else tracks
  }

  function TickedAll(tracks: Tracks, list: seq<Flat>): Tracks {
    if list == [] then tracks else Ticked(TickedAll(tracks, list[..|list| - 1]), list[|list| - 1])
  }

  /** One entry of the selection loop. A paused track resumes; one not open yet is opened. */
  function Select(s: Selection, l: Limits, f: Flat): Selection {
    if |s.active| >= l.most || !Eligible(s.tracks, l, f) then s
    else
      var t := s.tracks[f.alias];
      var active := s.active + {f.alias};
      if t.status != Paused then s.(active := active)
      else if f.alias in s.open then Selection(s.tracks[f.alias := Track(f.tick, Ok)], s.open, active)
      else Selection(s.tracks[f.alias := t.(status := Ok)], s.open + {f.alias}, active)
  }

  function SelectAll(s: Selection, l: Limits, list: seq<Flat>): Selection {
    if list == [] then s else Select(SelectAll(s, l, list[..|list| - 1]), l, list[|list| - 1])
  }

  function Pause(tracks: Tracks, active: set<Alias>, xs: set<Alias>): Tracks {
    map x | x in tracks ::
      if x in xs && x !in active && tracks[x].status == Ok then tracks[x].(status := Paused) else tracks[x]
  }

  /** What an update of the ranking does to the published tracks. */
  function Reselected(tracks: Tracks, open: set<Alias>, l: Limits, list: seq<Flat>): Selection {
    var s := SelectAll(Selection(TickedAll(tracks, list), open, {}), l, list);
    if |s.tracks| > l.most then s.(tracks := Pause(s.tracks, s.active, s.tracks.Keys)) else s
  }

  lemma PauseNone(tracks: Tracks, active: set<Alias>)
    ensures Pause(tracks, active, {}) == tracks
  {
  }

  lemma PauseOne(tracks: Tracks, active: set<Alias>, xs: set<Alias>, x: Alias)
    requires x in tracks && x !in xs
    ensures var now := Pause(tracks, active, xs);
            && x in now && now[x] == tracks[x]
            && Pause(tracks, active, xs + {x}) ==
               if x in active || tracks[x].status != Ok then now else now[x := tracks[x].(status := Paused)]
  {
  }

  // ---------------------------------------------------------------- the handler object

  class NamespaceHandler {
    const limits: Limits
    var ranked: bool
    var tracks: Tracks
    var open: set<Alias>

    constructor (limits: Limits)
      ensures this.limits == limits && !ranked && tracks == map[] && open == {}
    {
      this.limits := limits;
      ranked, tracks, open := false, map[], {};
    }

    method UpdateTicks(list: seq<Flat>)
      modifies this`tracks
      ensures tracks == TickedAll(old(tracks), list)
    {
      for i := 0 to |list|
        invariant tracks == TickedAll(old(tracks), list[..i])
      {
        assert list[..i + 1][..i] == list[..i];
        var f := list[i];
        if f.alias in tracks {
          tracks := tracks[f.alias := tracks[f.alias].(tick := f.tick)];
        }
      }
      assert list[..|list|] == list;
    }

    /** Takes the best entries that are eligible until enough are active. */
    method SelectTracks(list: seq<Flat>) returns (active: set<Alias>)
      modifies this`tracks, this`open
      ensures Selection(tracks, open, active) == SelectAll(Selection(old(tracks), old(open), {}), limits, list)
    {
      active := {};
      ghost var s0 := Selection(tracks, open, {});
      for i := 0 to |list|
        invariant Selection(tracks, open, active) == SelectAll(s0, limits, list[..i])
      {
        assert list[..i + 1][..i] == list[..i];
        if |active| >= limits.most {
          SelectFull(s0, limits, list, i);
          return;
        }
        var f := list[i];
        if f.conn == limits.conn || f.alias !in tracks {
          continue;
        }
        if tracks[f.alias].status == Paused {
          tracks := tracks[f.alias := tracks[f.alias].(status := Ok)];
          if f.alias !in open {
            open := open + {f.alias};
          } else {
            tracks := tracks[f.alias := tracks[f.alias].(tick := f.tick)];
          }
        }
        active := active + {f.alias};
      }
      assert list[..|list|] == list;
    }

    method PauseTracks(active: set<Alias>)
      modifies this`tracks
      ensures tracks == Pause(old(tracks), active, old(tracks).Keys)
    {
      ghost var was := tracks;
      var order := Sorted(tracks.Keys);
      SeenNone(was.Keys);
      PauseNone(was, active);
      for i := 0 to |order|
        invariant tracks == Pause(was, active, Seen(was.Keys, i))
      {
        SeeOne(was.Keys, i);
        PauseOne(was, active, Seen(was.Keys, i), order[i]);
        if order[i] in active {
          continue;
        }
        if tracks[order[i]].status == Ok {
          tracks := tracks[order[i] := tracks[order[i]].(status := Paused)];
        }
      }
    }

    /** Nothing happens until a property to rank by is set. */
    method UpdateTrackRanking(list: seq<Flat>) returns (active: set<Alias>)
      modifies this`tracks, this`open
      ensures Selection(tracks, open, active) ==
              if ranked then Reselected(old(tracks), old(open), limits, list) else Selection(old(tracks), old(open), {})
    {
      if !ranked {
        return {};
      }
      UpdateTicks(list);
      active := SelectTracks(list);
      if |tracks| > limits.most {
        PauseTracks(active);
      }
    }
  }

  lemma {:induction false} SelectFull(s: Selection, l: Limits, list: seq<Flat>, i: nat)
    requires i <= |list| && |SelectAll(s, l, list[..i]).active| >= l.most
    ensures SelectAll(s, l, list) == SelectAll(s, l, list[..i])
    decreases |list|
  {
    if i < |list| {
      var init := list[..|list| - 1];
      assert init[..i] == list[..i];
      SelectFull(s, l, init, i);
    } else {
      assert list[..i] == list;
    }
  }

  // ---------------------------------------------------------------- who is selected

  /** How many entries of the list may be selected. */
  function Count(tracks: Tracks, l: Limits, list: seq<Flat>): nat {
    if list == [] then 0
    else Count(tracks, l, list[..|list| - 1]) + if Eligible(tracks, l, list[|list| - 1]) then 1 else 0
  }

  lemma {:induction false} CountMore(tracks: Tracks, l: Limits, list: seq<Flat>, i: nat)
    requires i <= |list|
    ensures Count(tracks, l, list[..i]) <= Count(tracks, l, list)
    decreases |list|
  {
    if i < |list| {
      assert list[..|list| - 1][..i] == list[..i];
      CountMore(tracks, l, list[..|list| - 1], i);
    } else {
      assert list[..i] == list;
    }
  }

  function Aliases(list: seq<Flat>): set<Alias> {
    set i | 0 <= i < |list| :: list[i].alias
  }

  lemma LastIsNew(list: seq<Flat>)
    requires ListedOnce(list) && list != []
    ensures list[|list| - 1].alias !in Aliases(list[..|list| - 1])
  {
    var init := list[..|list| - 1];
    assert forall i | 0 <= i < |init| :: init[i] == list[i];
  }

  lemma {:induction false} SameTracks(s: Selection, l: Limits, list: seq<Flat>)
    ensures SelectAll(s, l, list).tracks.Keys == s.tracks.Keys
    ensures forall x | x in s.tracks && s.tracks[x].status != Paused ::
              SelectAll(s, l, list).tracks[x].status == s.tracks[x].status
  {
    if list != [] {
      SameTracks(s, l, list[..|list| - 1]);
    }
  }

  lemma {:induction false} TickedSame(tracks: Tracks, list: seq<Flat>)
    ensures TickedAll(tracks, list).Keys == tracks.Keys
    ensures forall x | x in tracks :: TickedAll(tracks, list)[x].status == tracks[x].status
  {
    if list != [] {
      TickedSame(tracks, list[..|list| - 1]);
    }
  }

  /** Eligibility depends on which tracks are published, not on their state. */
  lemma {:induction false} CountSame(a: Tracks, b: Tracks, l: Limits, list: seq<Flat>)
    requires a.Keys == b.Keys
    ensures Count(a, l, list) == Count(b, l, list)
  {
    if list != [] {
      CountSame(a, b, l, list[..|list| - 1]);
    }
  }

  /** The last entry of a list becomes active if it may and there is room. */
  lemma ActiveNext(s: Selection, l: Limits, list: seq<Flat>)
    requires list != []
    ensures var before, f := SelectAll(s, l, list[..|list| - 1]).active, list[|list| - 1];
            SelectAll(s, l, list).active == if Eligible(s.tracks, l, f) && |before| < l.most then before + {f.alias} else before
  {
    SameTracks(s, l, list[..|list| - 1]);
  }

  /** Of a list without repetitions, the active tracks are the first eligible ones, up to the most. */
  lemma {:induction false} ActiveSize(s: Selection, l: Limits, list: seq<Flat>)
    requires s.active == {} && ListedOnce(list)
    ensures var n := Count(s.tracks, l, list);
            |SelectAll(s, l, list).active| == if n < l.most then n else l.most
    ensures SelectAll(s, l, list).active <= Aliases(list)
  {
    if list != [] {
      var init, f := list[..|list| - 1], list[|list| - 1];
      ActiveSize(s, l, init);
      ActiveNext(s, l, list);
      LastIsNew(list);
      assert Aliases(list) == Aliases(init) + {f.alias};
    }
  }

  lemma {:induction false} ActiveIff(s: Selection, l: Limits, list: seq<Flat>, i: nat)
    requires s.active == {} && ListedOnce(list) && i < |list|
    ensures list[i].alias in SelectAll(s, l, list).active <==>
            Eligible(s.tracks, l, list[i]) && Count(s.tracks, l, list[..i]) < l.most
    decreases |list|
  {
    var init, f := list[..|list| - 1], list[|list| - 1];
    ActiveNext(s, l, list);
    if i < |init| {
      ActiveIff(s, l, init, i);
      assert init[..i] == list[..i];
      assert list[i].alias != f.alias;
    } else {
      assert init == list[..i];
      ActiveSize(s, l, init);
      LastIsNew(list);
    }
  }

  lemma SelectedOnce(tracks: Tracks, open: set<Alias>, l: Limits, list: seq<Flat>, i: nat)
    requires ListedOnce(list) && i < |list|
    ensures list[i].alias in Reselected(tracks, open, l, list).active <==>
            Eligible(tracks, l, list[i]) && Count(tracks, l, list[..i]) < l.most
  {
    var s0 := Selection(TickedAll(tracks, list), open, {});
    TickedSame(tracks, list);
    ActiveIff(s0, l, list, i);
    CountSame(s0.tracks, tracks, l, list[..i]);
  }

  /** After any run of ranking updates, whether the list is fresh or was refreshed in place, the
      selected tracks are exactly the first N ranked ones that are published and not the subscriber's own. */
  lemma SelectedIff(us: seq<Aged>, tracks: Tracks, open: set<Alias>, l: Limits, i: nat)
    requires i < |UpdatedAll(EMPTY_RANKING, us).flat|
    ensures var list := UpdatedAll(EMPTY_RANKING, us).flat;
            list[i].alias in Reselected(tracks, open, l, list).active <==>
            Eligible(tracks, l, list[i]) && Count(tracks, l, list[..i]) < l.most
  {
    RunListedOnce(us);
    SelectedOnce(tracks, open, l, UpdatedAll(EMPTY_RANKING, us).flat, i);
  }

  /** Nothing outside the list is selected, and as many are as may be. */
  lemma SelectedCount(us: seq<Aged>, tracks: Tracks, open: set<Alias>, l: Limits)
    ensures var list := UpdatedAll(EMPTY_RANKING, us).flat;
            var active, n := Reselected(tracks, open, l, list).active, Count(tracks, l, list);
            |active| == (if n < l.most then n else l.most) && active <= Aliases(list)
  {
    var list := UpdatedAll(EMPTY_RANKING, us).flat;
    RunListedOnce(us);
    TickedSame(tracks, list);
    ActiveSize(Selection(TickedAll(tracks, list), open, {}), l, list);
    CountSame(TickedAll(tracks, list), tracks, l, list);
  }

  lemma {:induction false} NonePaused(s: Selection, l: Limits, list: seq<Flat>)
    requires s.active == {}
    ensures var s' := SelectAll(s, l, list);
            forall x | x in s'.active :: x in s'.tracks && s'.tracks[x].status != Paused
    ensures |SelectAll(s, l, list).active| <= l.most
  {
    if list != [] {
      NonePaused(s, l, list[..|list| - 1]);
    }
  }

  /** The tracks that are going. */
  ghost function Going(tracks: Tracks): set<Alias> {
    set x | x in tracks && tracks[x].status == Ok
  }

  /** After an update at most N tracks are going, and no selected track is paused, whatever the
      tracks were before and whatever the list holds. */
  lemma AtMostN(tracks: Tracks, open: set<Alias>, l: Limits, list: seq<Flat>)
    ensures var s := Reselected(tracks, open, l, list);
            && |Going(s.tracks)| <= l.most && |s.active| <= l.most
            && forall x | x in s.active :: x in s.tracks && s.tracks[x].status != Paused
  {
    var s0 := Selection(TickedAll(tracks, list), open, {});
    var s1, s := SelectAll(s0, l, list), Reselected(tracks, open, l, list);
    NonePaused(s0, l, list);
    if |s1.tracks| > l.most {
      assert Going(s.tracks) <= s.active;
      SubsetSize(Going(s.tracks), s.active);
    } else {
      assert |s1.tracks| == |s1.tracks.Keys|;
      SubsetSize(Going(s.tracks), s1.tracks.Keys);
    }
  }

  /** After a rebuild no eligible track that is left out has a higher value than a selected one. */
  lemma LeftOutNoBetter(st: State, prop: Prop, tracks: Tracks, open: set<Alias>, l: Limits, i: nat, j: nat, v: Value, w: Value)
    requires RankInv(st) && Current(st, prop)
    requires i < |st.flat| && j < |st.flat|
    requires EntryAt(st.buckets, st.conns, prop, st.flat[i], v) && EntryAt(st.buckets, st.conns, prop, st.flat[j], w)
    requires st.flat[i].alias in Reselected(tracks, open, l, st.flat).active
    requires Eligible(tracks, l, st.flat[j]) && st.flat[j].alias !in Reselected(tracks, open, l, st.flat).active
    ensures w <= v
  {
    var list := st.flat;
    forall a, b | 0 <= a < b < |list| ensures list[a].alias != list[b].alias {
      FlattenOnce(st, st.conns, prop, a, b);
    }
    SelectedOnce(tracks, open, l, list, i);
    SelectedOnce(tracks, open, l, list, j);
    if j < i {
      assert list[..i][..j] == list[..j];
      CountMore(tracks, l, list[..i], j);
    } else if i < j {
      FlattenOrder(st, st.conns, prop, i, j);
      var v', w' :| EntryAt(st.buckets, st.conns, prop, list[i], v') && EntryAt(st.buckets, st.conns, prop, list[j], w')
                    && (v' > w' || (v' == w' && list[i].seqNum < list[j].seqNum));
      SameValue(st, st.conns, prop, list[i], list[i], v, v');
      SameValue(st, st.conns, prop, list[j], list[j], w, w');
    }
  }

  // ---------------------------------------------------------------- what becomes of each track

  /** The selected tracks that were paused are going, and open; the others are as before. */
  ghost predicate OpenedSince(s: Selection, s': Selection) {
    && s'.active <= s.tracks.Keys && s'.tracks.Keys == s.tracks.Keys
    && (forall x | x in s.tracks ::
          s'.tracks[x].status == if x in s'.active && s.tracks[x].status == Paused then Ok else s.tracks[x].status)
    && (forall x :: x in s'.open <==> x in s.open || (x in s'.active && s.tracks[x].status == Paused))
  }

  lemma OpenedNext(s: Selection, s1: Selection, l: Limits, f: Flat)
    requires OpenedSince(s, s1)
    ensures OpenedSince(s, Select(s1, l, f))
  {
  }

  lemma {:induction false} OpenedBy(s: Selection, l: Limits, list: seq<Flat>)
    requires s.active == {}
    ensures OpenedSince(s, SelectAll(s, l, list))
  {
    if list != [] {
      OpenedBy(s, l, list[..|list| - 1]);
      OpenedNext(s, SelectAll(s, l, list[..|list| - 1]), l, list[|list| - 1]);
    }
  }

  /** An update of the ranking, track by track. The publish flow is started for exactly the selected tracks that
      were paused and not open yet; a selected track that was paused is going, and one that is not selected is
      paused when it was going and there are more tracks than may be selected. Nothing else changes but ticks. */
  lemma ReselectedTrack(tracks: Tracks, open: set<Alias>, l: Limits, list: seq<Flat>, x: Alias)
    ensures var s := Reselected(tracks, open, l, list);
            && s.tracks.Keys == tracks.Keys && s.active <= tracks.Keys
            && (x in s.open <==> x in open || (x in s.active && tracks[x].status == Paused))
            && (x in tracks ==>
                  s.tracks[x].status ==
                  if x in s.active then (if tracks[x].status == Paused then Ok else tracks[x].status)
                  else if tracks[x].status == Ok && |tracks| > l.most then Paused
                  else tracks[x].status)
  {
    var s0 := Selection(TickedAll(tracks, list), open, {});
    TickedSame(tracks, list);
    OpenedBy(s0, l, list);
    assert |tracks| == |tracks.Keys| && |SelectAll(s0, l, list).tracks| == |SelectAll(s0, l, list).tracks.Keys|;
  }

  /** The tick of a published track after a list in which it comes once is the one listed. */
  lemma {:induction false} TickedOnce(tracks: Tracks, list: seq<Flat>, i: nat)
    requires ListedOnce(list) && i < |list| && list[i].alias in tracks
    ensures list[i].alias in TickedAll(tracks, list) && TickedAll(tracks, list)[list[i].alias].tick == list[i].tick
    decreases |list|
  {
    var init, f := list[..|list| - 1], list[|list| - 1];
    TickedSame(tracks, init);
    if i < |init| {
      TickedOnce(tracks, init, i);
      assert list[i].alias != f.alias;
    }
  }

  lemma {:induction false} TickedNot(tracks: Tracks, list: seq<Flat>, x: Alias)
    requires x in tracks && forall i | 0 <= i < |list| :: list[i].alias != x
    ensures x in TickedAll(tracks, list) && TickedAll(tracks, list)[x].tick == tracks[x].tick
  {
    if list != [] {
      TickedNot(tracks, list[..|list| - 1], x);
    }
  }
}
