/** A user's rating profile and the orderings in which its items can be
    visited once the profile has been shuffled. */
module Ratings {

  type UserId = int
  type ItemId = int

  /** One user's ratings: the score the user gave each rated item. */
  datatype Profile = Profile(user: UserId, ratings: map<ItemId, real>)

  /** The set of elements of a sequence. */
  function Elems(s: seq<ItemId>): set<ItemId>
  {
    set x | x in s
  }

  /** No item occurs twice in `s`. */
  predicate Distinct(s: seq<ItemId>)
  {
    forall i, j :: 0 <= i < j < |s| ==> s[i] != s[j]
  }

  /** `order` visits every item of `items` exactly once: it is one of the
      permutations a shuffle of the items can produce. */
  predicate IsOrdering(order: seq<ItemId>, items: set<ItemId>)
  {
    Distinct(order) && Elems(order) == items
  }

  lemma ElemsSnoc(s: seq<ItemId>)
    requires |s| > 0
    ensures Elems(s) == Elems(s[..|s| - 1]) + {s[|s| - 1]}
  {
    assert s == s[..|s| - 1] + [s[|s| - 1]];
  }

  /** Extending a slice by one position appends that element. */
  lemma SliceSnoc(s: seq<ItemId>, lo: nat, hi: nat)
    requires lo <= hi < |s|
    ensures s[lo..hi + 1] == s[lo..hi] + [s[hi]]
    ensures Elems(s[lo..hi + 1]) <= Elems(s)
  {
  }

  /** A duplicate-free sequence has as many distinct elements as positions. */
  lemma {:induction false} DistinctCard(s: seq<ItemId>)
    requires Distinct(s)
    ensures |Elems(s)| == |s|
    decreases |s|
  {
    if s != [] {
      var init := s[..|s| - 1];
      assert Distinct(init);
      DistinctCard(init);
      ElemsSnoc(s);
      assert forall k :: 0 <= k < |init| ==> init[k] != s[|s| - 1];
      assert s[|s| - 1] !in Elems(init);
    }
  }

  /** An ordering of a user's rated items is exactly as long as the profile. */
  lemma OrderingLength(order: seq<ItemId>, ratings: map<ItemId, real>)
    requires IsOrdering(order, ratings.Keys)
    ensures |order| == |ratings|
  {
    DistinctCard(order);
  }

  /** Cutting a duplicate-free sequence at `m` splits its elements into two
      disjoint sets that together are all of them. */
  lemma {:induction false} CutPartitions(s: seq<ItemId>, m: nat)
    requires Distinct(s)
    requires m <= |s|
    ensures Elems(s[..m]) !! Elems(s[m..])
    ensures Elems(s[..m]) + Elems(s[m..]) == Elems(s)
    ensures Distinct(s[..m]) && Distinct(s[m..])
  {
    forall x | x in Elems(s[..m])
      ensures x !in Elems(s[m..])
    {
      var i :| 0 <= i < m && s[..m][i] == x;
      assert forall j :: 0 <= j < |s| - m ==> s[m..][j] == s[m + j] != s[i];
    }
    assert s == s[..m] + s[m..];
  }
}
