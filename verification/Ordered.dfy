/** Ordered iteration over the keys of `BTreeMap` and `BTreeSet`. */
module Ordered {

  /** Descending from any member ends at a least one. */
  lemma {:induction false} HasLeast(s: set<nat>, y: nat)
    requires y in s
    ensures exists m :: m in s && forall x :: x in s ==> m <= x
  {
    if x :| x in s && x < y {
      HasLeast(s, x);
    } else {
      assert forall x :: x in s ==> y <= x;
    }
  }

  function Least(s: set<nat>): (m: nat)
    requires s != {}
    ensures m in s && forall x :: x in s ==> m <= x
  {
    assert exists m :: m in s && forall x :: x in s ==> m <= x by {
      var y :| y in s;
      HasLeast(s, y);
    }
    var m :| m in s && forall x :: x in s ==> m <= x;
    m
  }

  /** The elements of a set in increasing order. */
  function Ascending(s: set<nat>): (r: seq<nat>)
    ensures |r| == |s|
    ensures forall x :: x in r <==> x in s
  {
    if s == {} then [] else [Least(s)] + Ascending(s - {Least(s)})
  }

  lemma {:induction false} AscendingIsSorted(s: set<nat>)
    ensures forall i, j :: 0 <= i < j < |Ascending(s)| ==> Ascending(s)[i] < Ascending(s)[j]
  {
    if s != {} {
      var rest := Ascending(s - {Least(s)});
      AscendingIsSorted(s - {Least(s)});
      assert forall k :: 0 <= k < |rest| ==> rest[k] in s - {Least(s)};
    }
  }
}
