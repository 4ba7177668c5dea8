/** The holdout fraction and the per-user split of a test user's shuffled
    ratings into a query map and a sequence of held-out items. */
module Holdout {
  import opened Ratings

  /** The fraction a freshly constructed aggregator holds out. */
  const DefaultFraction: real := 0.33333333

  /** The setter accepts exactly the fractions of the open interval (0, 1). */
  predicate ValidFraction(f: real)
  {
    0.0 < f < 1.0
  }

  /** Java's `Math.round` on a double: the nearest integer, ties rounded up. */
  function RoundHalfUp(x: real): (m: int)
    ensures x - 0.5 < m as real <= x + 0.5
  {
    (x + 0.5).Floor
  }

  /** `n * c`, written as `n` additions of `c` so that the solver meets no
      product of two unknowns when it unfolds the query count. */
  function Times(n: nat, c: real): (r: real)
    ensures 0.0 <= c ==> 0.0 <= r
    ensures c <= 1.0 ==> r <= n as real
    ensures n > 0 && c < 1.0 ==> r < n as real
  {
    if n == 0 then 0.0 else Times(n - 1, c) + c
  }

  lemma {:induction false} TimesIsProduct(n: nat, c: real)
    ensures Times(n, c) == n as real * c
  {
    if n > 0 {
      TimesIsProduct(n - 1, c);
    }
  }

  /** The number `midpt` of a user's `n` ratings that go to the query map;
      for a valid fraction it never exceeds `n`, so both index loops stay
      inside the rating list. */
  function QueryCount(n: nat, holdout: real): (m: nat)
    requires ValidFraction(holdout)
    ensures m <= n
  {
    RoundHalfUp(Times(n, 1.0 - holdout))
  }

  /** The query count is the nearest integer to the share of `n` that is
      not held out, ties rounded up. */
  lemma QueryCountRounds(n: nat, holdout: real)
    requires ValidFraction(holdout)
    ensures var x := n as real * (1.0 - holdout);
      x - 0.5 < QueryCount(n, holdout) as real <= x + 0.5
  {
    TimesIsProduct(n, 1.0 - holdout);
  }

  /** The query map built by putting, one after the other, each item of
      `prefix` with the user's own score for it. */
  function QueryOf(ratings: map<ItemId, real>, prefix: seq<ItemId>): map<ItemId, real>
    requires Elems(prefix) <= ratings.Keys
    decreases |prefix|
  {
    if prefix == [] then map[]
    else
      var last := prefix[|prefix| - 1];
      ElemsSnoc(prefix);
      QueryOf(ratings, prefix[..|prefix| - 1])[last := ratings[last]]
  }

  /** The query map holds exactly the items of the prefix, each with the
      user's own score. */
  lemma {:induction false} QueryOfContents(ratings: map<ItemId, real>, prefix: seq<ItemId>)
    requires Elems(prefix) <= ratings.Keys
    ensures QueryOf(ratings, prefix).Keys == Elems(prefix)
    ensures forall x :: x in QueryOf(ratings, prefix) ==> QueryOf(ratings, prefix)[x] == ratings[x]
    decreases |prefix|
  {
    if prefix != [] {
      ElemsSnoc(prefix);
      QueryOfContents(ratings, prefix[..|prefix| - 1]);
    }
  }

  /** A test user together with the order a shuffle put their ratings in. */
  datatype TestUser = TestUser(profile: Profile, order: seq<ItemId>)

  /** The order is a permutation of the user's rated items. */
  predicate Shuffled(u: TestUser)
  {
    IsOrdering(u.order, u.profile.ratings.Keys)
  }

  /** What the predictor is told about a user, and what it is asked. */
  datatype Split = Split(query: map<ItemId, real>, heldOut: seq<ItemId>)

  /** The first `midpt` shuffled ratings form the query map; the remaining
      items, in shuffled order, are held out. */
  function SplitUser(u: TestUser, holdout: real): Split
    requires ValidFraction(holdout)
    requires Shuffled(u)
  {
    var midpt := QueryCount(|u.order|, holdout);
    CutPartitions(u.order, midpt);
    Split(QueryOf(u.profile.ratings, u.order[..midpt]), u.order[midpt..])
  }

  /** For any shuffle, the split partitions the user's ratings: `midpt`
      query entries and `n - midpt` distinct held-out items, disjoint, that
      together are exactly the rated items; every query entry keeps the
      user's own score. */
  lemma SplitPartition(u: TestUser, holdout: real)
    requires ValidFraction(holdout)
    requires Shuffled(u)
    ensures var s := SplitUser(u, holdout);
      && |s.query| == QueryCount(|u.profile.ratings|, holdout)
      && |s.heldOut| == |u.profile.ratings| - QueryCount(|u.profile.ratings|, holdout)
      && s.query.Keys !! Elems(s.heldOut)
      && s.query.Keys + Elems(s.heldOut) == u.profile.ratings.Keys
      && Distinct(s.heldOut)
      && (forall x :: x in s.query ==> s.query[x] == u.profile.ratings[x])
  {
    OrderingLength(u.order, u.profile.ratings);
    var midpt := QueryCount(|u.order|, holdout);
    CutPartitions(u.order, midpt);
    DistinctCard(u.order[..midpt]);
    QueryOfContents(u.profile.ratings, u.order[..midpt]);
  }

  /** A user with four ratings and a quarter held out: three ratings form
      the query and one item is held out. */
  lemma QuarterOfFour(u: TestUser)
    requires Shuffled(u)
    requires |u.profile.ratings| == 4
    ensures |SplitUser(u, 0.25).query| == 3
    ensures |SplitUser(u, 0.25).heldOut| == 1
  {
    SplitPartition(u, 0.25);
    assert Times(4, 0.75) == 3.0;
  }

  /** A user without ratings contributes nothing to either side. */
  lemma EmptyProfileSplit(u: TestUser, holdout: real)
    requires ValidFraction(holdout)
    requires Shuffled(u)
    requires u.profile.ratings == map[]
    ensures SplitUser(u, holdout) == Split(map[], [])
  {
    OrderingLength(u.order, u.profile.ratings);
  }
}
