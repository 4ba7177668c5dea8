/** One fold's accounting: every held-out item of every test user is put to
    the predictor once; each attempt is counted, and each answer adds its
    absolute and squared error to the fold's sums. */
module FoldTally {
  import opened Wrappers
  import opened Ratings
  import opened Holdout

  /** The trained model's rating predictor: given a user, the user's query
      ratings and an item, a predicted score, or None when it declines. */
  type Predictor = (UserId, map<ItemId, real>, ItemId) -> Option<real>

  /** The fold's running counters: summed absolute error, summed squared
      error, items attempted, items answered. */
  datatype Tally = Tally(accumErr: real, accumSqErr: real, nitems: nat, ngood: nat)

  const Zero := Tally(0.0, 0.0, 0, 0)

  function Abs(x: real): real
  {
    if x < 0.0 then -x else x
  }

  /** The invariant the counters keep: answers never outnumber attempts,
      error sums are non-negative, and they stay zero until something is
      answered. */
  predicate Sound(t: Tally)
  {
    && t.ngood <= t.nitems
    && t.accumErr >= 0.0
    && t.accumSqErr >= 0.0
    && (t.ngood == 0 ==> t.accumErr == 0.0 && t.accumSqErr == 0.0)
  }

  /** Counter-wise sum of two tallies. */
  function Plus(a: Tally, b: Tally): Tally
  {
    Tally(a.accumErr + b.accumErr, a.accumSqErr + b.accumSqErr, a.nitems + b.nitems, a.ngood + b.ngood)
  }

  /** Accounts for one held-out item whose true rating is `actual`. */
  function Score(t: Tally, prediction: Option<real>, actual: real): (r: Tally)
    ensures Sound(t) ==> Sound(r)
    ensures r.nitems == t.nitems + 1
    ensures prediction.None? ==> r == t.(nitems := t.nitems + 1)
    ensures prediction.Some? ==>
      && r.ngood == t.ngood + 1
      && r.accumErr == t.accumErr + Abs(prediction.value - actual)
      && r.accumSqErr == t.accumSqErr + (prediction.value - actual) * (prediction.value - actual)
  {
    match prediction
    case None => t.(nitems := t.nitems + 1)
    case Some(p) =>
      var err := p - actual;
      Tally(t.accumErr + Abs(err), t.accumSqErr + err * err, t.nitems + 1, t.ngood + 1)
  }

  /** Scores the held-out `items` of profile `p`, in order, against the
      predictor told `query`. */
  function ScoreItems(t: Tally, predict: Predictor, p: Profile, query: map<ItemId, real>, items: seq<ItemId>): (r: Tally)
    requires Elems(items) <= p.ratings.Keys
    ensures Sound(t) ==> Sound(r)
    ensures r.nitems == t.nitems + |items|
    ensures r.ngood <= t.ngood + |items|
    decreases |items|
  {
    if items == [] then t
    else
      var last := items[|items| - 1];
      ElemsSnoc(items);
      Score(ScoreItems(t, predict, p, query, items[..|items| - 1]), predict(p.user, query, last), p.ratings[last])
  }

  /** Every test user's order is a shuffle of that user's ratings. */
  predicate AllShuffled(users: seq<TestUser>)
  {
    forall i :: 0 <= i < |users| ==> Shuffled(users[i])
  }

  /** The number of items held out over all `users`, whatever the predictor. */
  function HeldOutTotal(users: seq<TestUser>, holdout: real): nat
    requires ValidFraction(holdout)
  {
    if users == [] then 0
    else
      var n := |users[|users| - 1].order|;
      HeldOutTotal(users[..|users| - 1], holdout) + (n - QueryCount(n, holdout))
  }

  /** The held-out items are items the user rated. */
  lemma HeldOutRated(u: TestUser, holdout: real)
    requires ValidFraction(holdout)
    requires Shuffled(u)
    ensures Elems(SplitUser(u, holdout).heldOut) <= u.profile.ratings.Keys
    ensures |SplitUser(u, holdout).heldOut| == |u.order| - QueryCount(|u.order|, holdout)
  {
    CutPartitions(u.order, QueryCount(|u.order|, holdout));
  }

  /** Tests one user: the held-out items of the user's split are scored
      against the predictor told the user's query map. */
  function ScoreUser(t: Tally, predict: Predictor, u: TestUser, holdout: real): (r: Tally)
    requires ValidFraction(holdout)
    requires Shuffled(u)
    ensures Sound(t) ==> Sound(r)
    ensures r.nitems == t.nitems + (|u.order| - QueryCount(|u.order|, holdout))
  {
    var s := SplitUser(u, holdout);
    HeldOutRated(u, holdout);
    ScoreItems(t, predict, u.profile, s.query, s.heldOut)
  }

  /** The test loop of one fold over `users`, in order, starting from `t`. */
  function ScoreUsers(t: Tally, predict: Predictor, users: seq<TestUser>, holdout: real): (r: Tally)
    requires ValidFraction(holdout)
    requires AllShuffled(users)
    ensures Sound(t) ==> Sound(r)
    ensures r.nitems == t.nitems + HeldOutTotal(users, holdout)
    decreases |users|
  {
    if users == [] then t
    else
      ScoreUser(ScoreUsers(t, predict, users[..|users| - 1], holdout), predict, users[|users| - 1], holdout)
  }

  /** Fills the query map from the first `midpt` shuffled ratings. */
  method FillQuery(u: TestUser, midpt: nat) returns (query: map<ItemId, real>)
    requires Shuffled(u)
    requires midpt <= |u.order|
    ensures query.Keys == Elems(u.order[..midpt])
    ensures forall x :: x in query ==> query[x] == u.profile.ratings[x]
    ensures query == QueryOf(u.profile.ratings, u.order[..midpt])
  {
    query := map[];
    var i := 0;
    while i < midpt
      invariant 0 <= i <= midpt
      invariant query == QueryOf(u.profile.ratings, u.order[..i])
    {
      var iid := u.order[i];
      SliceSnoc(u.order, 0, i);
      query := query[iid := u.profile.ratings[iid]];
      i := i + 1;
    }
    QueryOfContents(u.profile.ratings, u.order[..midpt]);
  }

  /** Puts each item of `order` from position `midpt` on to the predictor,
      counting every attempt. */
  method ScoreHeldOut(t: Tally, predict: Predictor, p: Profile, query: map<ItemId, real>, order: seq<ItemId>, midpt: nat)
    returns (r: Tally)
    requires midpt <= |order|
    requires Elems(order) <= p.ratings.Keys
    ensures r == ScoreItems(t, predict, p, query, order[midpt..])
  {
    r := t;
    var i := midpt;
    while i < |order|
      invariant midpt <= i <= |order|
      invariant r == ScoreItems(t, predict, p, query, order[midpt..i])
    {
      var iid := order[i];
      SliceSnoc(order, midpt, i);
      assert Elems(order[midpt..i + 1]) <= p.ratings.Keys;
      r := Score(r, predict(p.user, query, iid), p.ratings[iid]);
      i := i + 1;
    }
    assert order[midpt..i] == order[midpt..];
    assert Elems(order[midpt..]) <= p.ratings.Keys;
  }

  /** Tests one user: the first `midpt` shuffled ratings form the query map,
      and each remaining item is put to the predictor. */
  method TestUserRatings(t: Tally, predict: Predictor, u: TestUser, holdout: real) returns (r: Tally)
    requires ValidFraction(holdout)
    requires Shuffled(u)
    ensures r == ScoreUser(t, predict, u, holdout)
  {
    OrderingLength(u.order, u.profile.ratings);
    var midpt := QueryCount(|u.order|, holdout);
    var query := FillQuery(u, midpt);
    r := ScoreHeldOut(t, predict, u.profile, query, u.order, midpt);
  }

  /** Testing one more user continues the test loop from where it stood. */
  lemma ScoreUsersSnoc(predict: Predictor, users: seq<TestUser>, k: nat, holdout: real)
    requires ValidFraction(holdout)
    requires AllShuffled(users)
    requires k < |users|
    ensures AllShuffled(users[..k]) && AllShuffled(users[..k + 1]) && Shuffled(users[k])
    ensures ScoreUsers(Zero, predict, users[..k + 1], holdout)
      == ScoreUser(ScoreUsers(Zero, predict, users[..k], holdout), predict, users[k], holdout)
  {
    assert users[..k + 1][..k] == users[..k];
  }

  /** The test loop of one fold as the source writes it, over every test
      user in turn. */
  method RunFold(predict: Predictor, users: seq<TestUser>, holdout: real) returns (t: Tally)
    requires ValidFraction(holdout)
    requires AllShuffled(users)
    ensures t == ScoreUsers(Zero, predict, users, holdout)
  {
    t := Zero;
    var k := 0;
    while k < |users|
      invariant 0 <= k <= |users|
      invariant t == ScoreUsers(Zero, predict, users[..k], holdout)
    {
      ScoreUsersSnoc(predict, users, k, holdout);
      t := TestUserRatings(t, predict, users[k], holdout);
      k := k + 1;
    }
    assert users[..k] == users;
  }

  /** The predictor declines every request. */
  ghost predicate Declines(predict: Predictor)
  {
    forall user, query, item :: predict(user, query, item) == None
  }

  /** Every answer the predictor gives about profile `p` is the score the
      user actually gave. */
  ghost predicate ExactFor(predict: Predictor, p: Profile)
  {
    forall query, item ::
      item in p.ratings && predict(p.user, query, item).Some? ==> predict(p.user, query, item).value == p.ratings[item]
  }

  lemma {:induction false} DeclinedItems(t: Tally, predict: Predictor, p: Profile, query: map<ItemId, real>, items: seq<ItemId>)
    requires Elems(items) <= p.ratings.Keys
    requires Declines(predict)
    ensures ScoreItems(t, predict, p, query, items) == t.(nitems := t.nitems + |items|)
    decreases |items|
  {
    if items != [] {
      ElemsSnoc(items);
      DeclinedItems(t, predict, p, query, items[..|items| - 1]);
    }
  }

  /** A fold whose predictor declines everything only counts attempts: the
      answered count and both error sums are left as they were, and the
      attempt count grows by the number of held-out items. */
  lemma {:induction false} DeclinedFold(t: Tally, predict: Predictor, users: seq<TestUser>, holdout: real)
    requires ValidFraction(holdout)
    requires AllShuffled(users)
    requires Declines(predict)
    ensures ScoreUsers(t, predict, users, holdout) == t.(nitems := t.nitems + HeldOutTotal(users, holdout))
    decreases |users|
  {
    if users != [] {
      var u := users[|users| - 1];
      var s := SplitUser(u, holdout);
      DeclinedFold(t, predict, users[..|users| - 1], holdout);
      HeldOutRated(u, holdout);
      DeclinedItems(ScoreUsers(t, predict, users[..|users| - 1], holdout), predict, u.profile, s.query, s.heldOut);
    }
  }

  lemma {:induction false} ExactItems(t: Tally, predict: Predictor, p: Profile, query: map<ItemId, real>, items: seq<ItemId>)
    requires Elems(items) <= p.ratings.Keys
    requires ExactFor(predict, p)
    ensures ScoreItems(t, predict, p, query, items).accumErr == t.accumErr
    ensures ScoreItems(t, predict, p, query, items).accumSqErr == t.accumSqErr
    decreases |items|
  {
    if items != [] {
      ElemsSnoc(items);
      ExactItems(t, predict, p, query, items[..|items| - 1]);
      var last := items[|items| - 1];
      assert last in p.ratings;
      assert predict(p.user, query, last).Some? ==> predict(p.user, query, last).value == p.ratings[last];
    }
  }

  /** A fold whose every answer is the user's true score adds nothing to
      either error sum. */
  lemma {:induction false} ExactFold(t: Tally, predict: Predictor, users: seq<TestUser>, holdout: real)
    requires ValidFraction(holdout)
    requires AllShuffled(users)
    requires forall u :: u in users ==> ExactFor(predict, u.profile)
    ensures ScoreUsers(t, predict, users, holdout).accumErr == t.accumErr
    ensures ScoreUsers(t, predict, users, holdout).accumSqErr == t.accumSqErr
    decreases |users|
  {
    if users != [] {
      var u := users[|users| - 1];
      var s := SplitUser(u, holdout);
      ExactFold(t, predict, users[..|users| - 1], holdout);
      HeldOutRated(u, holdout);
      ExactItems(ScoreUsers(t, predict, users[..|users| - 1], holdout), predict, u.profile, s.query, s.heldOut);
    }
  }

  /** Testing `a` and then `b` is testing `a + b`. */
  lemma {:induction false} ScoreUsersAppend(t: Tally, predict: Predictor, a: seq<TestUser>, b: seq<TestUser>, holdout: real)
    requires ValidFraction(holdout)
    requires AllShuffled(a) && AllShuffled(b)
    ensures AllShuffled(a + b)
    ensures ScoreUsers(t, predict, a + b, holdout) == ScoreUsers(ScoreUsers(t, predict, a, holdout), predict, b, holdout)
    decreases |b|
  {
    if b == [] {
      assert a + b == a;
    } else {
      var init := b[..|b| - 1];
      assert (a + b)[..|a + b| - 1] == a + init;
      assert (a + b)[|a + b| - 1] == b[|b| - 1];
      ScoreUsersAppend(t, predict, a, init, holdout);
    }
  }

  /** Counters added up front pass through the scoring of held-out items. */
  lemma {:induction false} ItemsShift(a: Tally, b: Tally, predict: Predictor, p: Profile, query: map<ItemId, real>, items: seq<ItemId>)
    requires Elems(items) <= p.ratings.Keys
    ensures ScoreItems(Plus(a, b), predict, p, query, items) == Plus(a, ScoreItems(b, predict, p, query, items))
    decreases |items|
  {
    if items != [] {
      ElemsSnoc(items);
      ItemsShift(a, b, predict, p, query, items[..|items| - 1]);
    }
  }

  /** A fold's counters are what the test loop counted on top of wherever
      the counters started. */
  lemma {:induction false} UsersOffset(t: Tally, predict: Predictor, users: seq<TestUser>, holdout: real)
    requires ValidFraction(holdout)
    requires AllShuffled(users)
    ensures ScoreUsers(t, predict, users, holdout) == Plus(t, ScoreUsers(Zero, predict, users, holdout))
    decreases |users|
  {
    if users != [] {
      var init := users[..|users| - 1];
      var u := users[|users| - 1];
      var s := SplitUser(u, holdout);
      UsersOffset(t, predict, init, holdout);
      var mid := ScoreUsers(Zero, predict, init, holdout);
      HeldOutRated(u, holdout);
      ItemsShift(t, mid, predict, u.profile, s.query, s.heldOut);
    }
  }

  /** The four counters merge by addition: testing the users of `a` and of
      `b` separately and summing the counters equals testing `a + b`. */
  lemma SplitPopulation(predict: Predictor, a: seq<TestUser>, b: seq<TestUser>, holdout: real)
    requires ValidFraction(holdout)
    requires AllShuffled(a) && AllShuffled(b)
    ensures AllShuffled(a + b)
    ensures ScoreUsers(Zero, predict, a + b, holdout)
      == Plus(ScoreUsers(Zero, predict, a, holdout), ScoreUsers(Zero, predict, b, holdout))
  {
    ScoreUsersAppend(Zero, predict, a, b, holdout);
    UsersOffset(ScoreUsers(Zero, predict, a, holdout), predict, b, holdout);
  }

  /** What one held-out item contributes on its own: one attempt, and, when
      the predictor answers, one answer with its absolute and squared error. */
  function ItemTally(prediction: Option<real>, actual: real): Tally
  {
    match prediction
    case None => Tally(0.0, 0.0, 1, 0)
    case Some(p) => Tally(Abs(p - actual), (p - actual) * (p - actual), 1, 1)
  }

  lemma PlusAssoc(a: Tally, b: Tally, c: Tally)
    ensures Plus(a, Plus(b, c)) == Plus(Plus(a, b), c)
  {
  }

  /** Scoring one item adds that item's own contribution to the counters. */
  lemma ScoreAddsItem(t: Tally, prediction: Option<real>, actual: real)
    ensures Score(t, prediction, actual) == Plus(t, ItemTally(prediction, actual))
  {
  }

  /** The contributions of the held-out `items`, summed first item first. */
  function ItemsTotal(predict: Predictor, p: Profile, query: map<ItemId, real>, items: seq<ItemId>): Tally
    requires Elems(items) <= p.ratings.Keys
    decreases |items|
  {
    if items == [] then Zero
    else
      assert items[0] in Elems(items);
      Plus(ItemTally(predict(p.user, query, items[0]), p.ratings[items[0]]), ItemsTotal(predict, p, query, items[1..]))
  }

  /** The contributions of every held-out item of every user, summed first
      user first. */
  function FoldTotal(predict: Predictor, users: seq<TestUser>, holdout: real): Tally
    requires ValidFraction(holdout)
    requires AllShuffled(users)
    decreases |users|
  {
    if users == [] then Zero
    else
      var u := users[0];
      var s := SplitUser(u, holdout);
      HeldOutRated(u, holdout);
      Plus(ItemsTotal(predict, u.profile, s.query, s.heldOut), FoldTotal(predict, users[1..], holdout))
  }

  lemma {:induction false} ItemsTotalSnoc(predict: Predictor, p: Profile, query: map<ItemId, real>, items: seq<ItemId>)
    requires Elems(items) <= p.ratings.Keys
    requires items != []
    ensures Elems(items[..|items| - 1]) <= p.ratings.Keys
    ensures ItemsTotal(predict, p, query, items)
      == Plus(ItemsTotal(predict, p, query, items[..|items| - 1]),
              ItemTally(predict(p.user, query, items[|items| - 1]), p.ratings[items[|items| - 1]]))
    decreases |items|
  {
    ElemsSnoc(items);
    var init := items[..|items| - 1];
    var last := items[|items| - 1];
    var head := ItemTally(predict(p.user, query, items[0]), p.ratings[items[0]]);
    var tail := ItemTally(predict(p.user, query, last), p.ratings[last]);
    assert items[0] in Elems(items);
    if |items| == 1 {
      assert ItemsTotal(predict, p, query, items) == Plus(head, Zero);
    } else {
      var rest := items[1..];
      assert Elems(rest) <= Elems(items);
      assert rest[..|rest| - 1] == init[1..];
      assert rest[|rest| - 1] == last;
      assert init[0] == items[0];
      ItemsTotalSnoc(predict, p, query, rest);
      assert Elems(init[1..]) <= Elems(init);
      assert ItemsTotal(predict, p, query, init) == Plus(head, ItemsTotal(predict, p, query, init[1..]));
      PlusAssoc(head, ItemsTotal(predict, p, query, init[1..]), tail);
    }
  }

  /** Scoring the held-out items one by one adds to the counters exactly the
      items' own contributions: an attempt per item, an answer per non-null
      prediction, and each answer's absolute and squared error. */
  lemma {:induction false} ScoreItemsTotal(t: Tally, predict: Predictor, p: Profile, query: map<ItemId, real>, items: seq<ItemId>)
    requires Elems(items) <= p.ratings.Keys
    ensures ScoreItems(t, predict, p, query, items) == Plus(t, ItemsTotal(predict, p, query, items))
    decreases |items|
  {
    if items != [] {
      var init := items[..|items| - 1];
      var last := items[|items| - 1];
      ItemsTotalSnoc(predict, p, query, items);
      ScoreItemsTotal(t, predict, p, query, init);
      var before := ScoreItems(t, predict, p, query, init);
      var item := ItemTally(predict(p.user, query, last), p.ratings[last]);
      ScoreAddsItem(before, predict(p.user, query, last), p.ratings[last]);
      PlusAssoc(t, ItemsTotal(predict, p, query, init), item);
    }
  }

  lemma {:induction false} FoldTotalSnoc(predict: Predictor, users: seq<TestUser>, holdout: real)
    requires ValidFraction(holdout)
    requires AllShuffled(users)
    requires users != []
    ensures AllShuffled(users[..|users| - 1])
    ensures var u := users[|users| - 1];
      && Elems(SplitUser(u, holdout).heldOut) <= u.profile.ratings.Keys
      && FoldTotal(predict, users, holdout)
        == Plus(FoldTotal(predict, users[..|users| - 1], holdout),
                ItemsTotal(predict, u.profile, SplitUser(u, holdout).query, SplitUser(u, holdout).heldOut))
    decreases |users|
  {
    var last := users[|users| - 1];
    HeldOutRated(last, holdout);
    var tail := ItemsTotal(predict, last.profile, SplitUser(last, holdout).query, SplitUser(last, holdout).heldOut);
    var u := users[0];
    HeldOutRated(u, holdout);
    var head := ItemsTotal(predict, u.profile, SplitUser(u, holdout).query, SplitUser(u, holdout).heldOut);
    if |users| == 1 {
      assert FoldTotal(predict, users, holdout) == Plus(head, Zero);
    } else {
      var init := users[..|users| - 1];
      var rest := users[1..];
      assert rest[..|rest| - 1] == init[1..];
      assert rest[|rest| - 1] == last;
      assert init[0] == u;
      FoldTotalSnoc(predict, rest, holdout);
      assert FoldTotal(predict, init, holdout) == Plus(head, FoldTotal(predict, init[1..], holdout));
      PlusAssoc(head, FoldTotal(predict, init[1..], holdout), tail);
    }
  }

  /** The fold's four counters are the sum over every held-out item of every
      user of that item's own contribution: `nitems` counts the attempts,
      `ngood` the non-null answers, and the two sums add up the answers'
      absolute and squared errors. */
  lemma {:induction false} FoldCounters(predict: Predictor, users: seq<TestUser>, holdout: real)
    requires ValidFraction(holdout)
    requires AllShuffled(users)
    ensures ScoreUsers(Zero, predict, users, holdout) == FoldTotal(predict, users, holdout)
    decreases |users|
  {
    if users != [] {
      var u := users[|users| - 1];
      var s := SplitUser(u, holdout);
      FoldTotalSnoc(predict, users, holdout);
      FoldCounters(predict, users[..|users| - 1], holdout);
      HeldOutRated(u, holdout);
      ScoreItemsTotal(ScoreUsers(Zero, predict, users[..|users| - 1], holdout), predict, u.profile, s.query, s.heldOut);
    }
  }
}
