/** Increasing iteration over a finite set of numbers, as a C++ `std::set` or `std::map` does it. */
module Ordered {

  lemma Element<T>(s: set<T>) returns (e: T)
    requires s != {}
    ensures e in s
  {
    e :| e in s;
  }

  /** The elements of a list, as a set. */
  function Elements<T>(ps: seq<T>): set<T> {
    set p | p in ps
  }

  lemma SubsetSize<T>(a: set<T>, b: set<T>)
    requires a <= b
    ensures |a| <= |b|
  {
    assert b == a + (b - a);
  }

  ghost predicate IsMax(s: set<int>, m: int) {
    m in s && forall x | x in s :: x <= m
  }

  lemma {:induction false} HasMax(s: set<int>)
    requires s != {}
    ensures exists m :: IsMax(s, m)
    decreases |s|
  {
    var e := Element(s);
    var rest := s - {e};
    if rest == {} {
      assert s == {e};
      assert IsMax(s, e);
    } else {
      HasMax(rest);
      var m :| IsMax(rest, m);
      assert s == rest + {e};
      assert IsMax(s, if m < e then e else m);
    }
  }

  /** The largest element. */
  function Max(s: set<int>): (m: int)
    requires s != {}
    ensures IsMax(s, m)
  {
    HasMax(s);
    var m :| m in s && forall x | x in s :: x <= m;
    m
  }

  /** The elements of `s` in increasing order, each once. */
  function Sorted(s: set<int>): (r: seq<int>)
    ensures |r| == |s|
  {
    if s == {} then [] else Sorted(s - {Max(s)}) + [Max(s)]
  }

  lemma {:induction false} SortedMembers(s: set<int>, x: int)
    ensures x in Sorted(s) <==> x in s
  {
    if s != {} {
      SortedMembers(s - {Max(s)}, x);
    }
  }

  lemma {:induction false} SortedAscending(s: set<int>, i: nat, j: nat)
    requires i < j < |s|
    ensures Sorted(s)[i] < Sorted(s)[j]
  {
    var m := Max(s);
    var init := Sorted(s - {m});
    if j < |s| - 1 {
      SortedAscending(s - {m}, i, j);
    } else {
      assert init[i] in init;
      SortedMembers(s - {m}, init[i]);
    }
  }

  /** The part of `s` that an increasing scan has seen after `k` steps. */
  ghost function Seen(s: set<int>, k: nat): (r: set<int>)
    requires k <= |s|
    ensures r <= s
  {
    if k == |s| then s else Seen(s - {Max(s)}, k)
  }

  lemma {:induction false} SeenNone(s: set<int>)
    ensures Seen(s, 0) == {}
  {
    if s != {} {
      SeenNone(s - {Max(s)});
    }
  }

  /** Step `k` of the scan visits an element not seen before. */
  lemma {:induction false} SeeOne(s: set<int>, k: nat)
    requires k < |s|
    ensures Sorted(s)[k] in s && Sorted(s)[k] !in Seen(s, k)
    ensures Seen(s, k + 1) == Seen(s, k) + {Sorted(s)[k]}
  {
    var m := Max(s);
    if k < |s| - 1 {
      SeeOne(s - {m}, k);
    }
  }
}
