/** The benchmark aggregator: a validated holdout fraction, the fold
    counter, and running totals of the per-fold MAE, RMSE and coverage. */
module Benchmark {
  import opened Wrappers
  import opened Ratings
  import opened Holdout
  import opened FoldTally

  /** A Java float as the aggregator computes it: finite, or NaN. */
  datatype Value = Num(v: real) | NaN

  /** Float addition: NaN absorbs everything it is added to. */
  function Add(a: Value, b: Value): (r: Value)
    ensures r.NaN? <==> a.NaN? || b.NaN?
    ensures r.Num? ==> r.v == a.v + b.v
  {
    if a.Num? && b.Num? then Num(a.v + b.v) else NaN
  }

  /** Float division `num / den` where the numerator is zero whenever the
      denominator is, so the only undefined case is 0/0, which is NaN. */
  function Ratio(num: real, den: nat): (r: Value)
    requires den == 0 ==> num == 0.0
    ensures r.NaN? <==> den == 0
    ensures r.Num? ==> r.v * den as real == num
    ensures r.Num? && num >= 0.0 ==> r.v >= 0.0
    ensures r.Num? && num <= den as real ==> r.v <= 1.0
  {
    if den == 0 then NaN else Num(num / den as real)
  }

  /** `Math.sqrt` is supplied by the caller; the square root of NaN is NaN. */
  function SqrtOf(sqrt: real -> real, x: Value): (r: Value)
    ensures r.NaN? <==> x.NaN?
  {
    match x
    case NaN => NaN
    case Num(v) => Num(sqrt(v))
  }

  /** Mean absolute error of a fold: undefined (NaN) when nothing was answered. */
  function FoldMae(t: Tally): (r: Value)
    requires Sound(t)
    ensures r.NaN? <==> t.ngood == 0
    ensures r.Num? ==> r.v >= 0.0 && r.v * t.ngood as real == t.accumErr
  {
    Ratio(t.accumErr, t.ngood)
  }

  /** Mean squared error of a fold, whose square root is the fold's RMSE. */
  function FoldMse(t: Tally): (r: Value)
    requires Sound(t)
    ensures r.NaN? <==> t.ngood == 0
    ensures r.Num? ==> r.v >= 0.0 && r.v * t.ngood as real == t.accumSqErr
  {
    Ratio(t.accumSqErr, t.ngood)
  }

  /** Fraction of attempted predictions that were answered. */
  function FoldCoverage(t: Tally): (r: Value)
    requires Sound(t)
    ensures r.NaN? <==> t.nitems == 0
    ensures r.Num? ==> 0.0 <= r.v <= 1.0 && r.v * t.nitems as real == t.ngood as real
  {
    Ratio(t.ngood as real, t.nitems)
  }

  /** The aggregator's fields. */
  datatype Aggregator = Aggregator(numRuns: nat, tMAE: Value, tRMSE: Value, tCov: Value, holdout: real)

  /** The stored fraction lies in (0, 1), which the setter guarantees for
      every finite fraction, and the totals are still zero while no fold has
      been recorded. */
  predicate Valid(a: Aggregator)
  {
    && ValidFraction(a.holdout)
    && (a.numRuns == 0 ==> a.tMAE == Num(0.0) && a.tRMSE == Num(0.0) && a.tCov == Num(0.0))
  }

  /** A freshly constructed aggregator. */
  function New(): (a: Aggregator)
    ensures Valid(a)
    ensures a.numRuns == 0
    ensures HoldoutFraction(a) == DefaultFraction
  {
    Aggregator(0, Num(0.0), Num(0.0), Num(0.0), DefaultFraction)
  }

  function HoldoutFraction(a: Aggregator): real
  {
    a.holdout
  }

  datatype ConfigError = InvalidHoldoutFraction

  /** Rejects any fraction outside the open interval (0, 1); otherwise the
      new fraction is stored and nothing else changes. A rejected call
      produces no new state, so the aggregator keeps its old fraction. */
  function SetHoldoutFraction(a: Aggregator, fraction: real): (r: Result<Aggregator, ConfigError>)
    ensures r.Failure? <==> fraction <= 0.0 || fraction >= 1.0
    ensures r.Success? ==> HoldoutFraction(r.value) == fraction
    ensures r.Success? ==> r.value == a.(holdout := fraction)
    ensures r.Success? && Valid(a) ==> Valid(r.value)
  {
    if fraction <= 0.0 || fraction >= 1.0 then Failure(InvalidHoldoutFraction)
    else Success(a.(holdout := fraction))
  }

  /** Adds one fold's MAE, RMSE and coverage to the running totals and
      counts the fold. A fold with no answered prediction still counts and
      turns the MAE and RMSE totals into NaN for good. */
  function RecordFold(a: Aggregator, t: Tally, sqrt: real -> real): (r: Aggregator)
    requires Valid(a)
    requires Sound(t)
    ensures Valid(r)
    ensures r.numRuns == a.numRuns + 1
    ensures r.holdout == a.holdout
    ensures r.tMAE.NaN? <==> a.tMAE.NaN? || t.ngood == 0
    ensures r.tRMSE.NaN? <==> a.tRMSE.NaN? || t.ngood == 0
    ensures r.tCov.NaN? <==> a.tCov.NaN? || t.nitems == 0
    ensures r.tMAE.Num? ==> r.tMAE.v == a.tMAE.v + FoldMae(t).v
    ensures r.tRMSE.Num? ==> r.tRMSE.v == a.tRMSE.v + sqrt(FoldMse(t).v)
    ensures r.tCov.Num? ==> r.tCov.v == a.tCov.v + FoldCoverage(t).v
  {
    a.(numRuns := a.numRuns + 1,
       tMAE := Add(a.tMAE, FoldMae(t)),
       tRMSE := Add(a.tRMSE, SqrtOf(sqrt, FoldMse(t))),
       tCov := Add(a.tCov, FoldCoverage(t)))
  }

  /** The real part of a statistic; an undefined one counts as 0, since the
      total it goes into is NaN from then on anyway. */
  function Part(x: Value): real
  {
    if x.Num? then x.v else 0.0
  }

  /** The sums of the folds' own MAE, RMSE and coverage. */
  datatype Sums = Sums(mae: real, rmse: real, cov: real)

  /** The folds' statistics summed first fold first, independently of the
      aggregator. */
  function FoldSums(folds: seq<Tally>, sqrt: real -> real): Sums
    requires forall t :: t in folds ==> Sound(t)
    decreases |folds|
  {
    if folds == [] then Sums(0.0, 0.0, 0.0)
    else
      var t := folds[0];
      var rest := FoldSums(folds[1..], sqrt);
      Sums(Part(FoldMae(t)) + rest.mae, Part(SqrtOf(sqrt, FoldMse(t))) + rest.rmse, Part(FoldCoverage(t)) + rest.cov)
  }

  lemma {:induction false} FoldSumsSnoc(folds: seq<Tally>, sqrt: real -> real)
    requires forall t :: t in folds ==> Sound(t)
    requires folds != []
    ensures var init := folds[..|folds| - 1];
      var last := folds[|folds| - 1];
      && (forall t :: t in init ==> Sound(t))
      && FoldSums(folds, sqrt).mae == FoldSums(init, sqrt).mae + Part(FoldMae(last))
      && FoldSums(folds, sqrt).rmse == FoldSums(init, sqrt).rmse + Part(SqrtOf(sqrt, FoldMse(last)))
      && FoldSums(folds, sqrt).cov == FoldSums(init, sqrt).cov + Part(FoldCoverage(last))
    decreases |folds|
  {
    var init := folds[..|folds| - 1];
    assert forall t :: t in init ==> t in folds;
    if |folds| > 1 {
      var rest := folds[1..];
      assert rest[..|rest| - 1] == init[1..];
      assert rest[|rest| - 1] == folds[|folds| - 1];
      assert init[0] == folds[0];
      assert forall t :: t in rest ==> t in folds;
      assert forall t :: t in init[1..] ==> t in init;
      FoldSumsSnoc(rest, sqrt);
    }
  }

  /** Records `folds` one after the other. */
  function RecordFolds(a: Aggregator, folds: seq<Tally>, sqrt: real -> real): (r: Aggregator)
    requires Valid(a)
    requires forall t :: t in folds ==> Sound(t)
    ensures Valid(r)
    ensures r.numRuns == a.numRuns + |folds|
    ensures r.holdout == a.holdout
    ensures r.tMAE.NaN? <==> a.tMAE.NaN? || exists t :: t in folds && t.ngood == 0
    ensures r.tRMSE.NaN? <==> a.tRMSE.NaN? || exists t :: t in folds && t.ngood == 0
    ensures r.tCov.NaN? <==> a.tCov.NaN? || exists t :: t in folds && t.nitems == 0
    ensures r.tMAE.Num? ==> r.tMAE.v == a.tMAE.v + FoldSums(folds, sqrt).mae
    ensures r.tRMSE.Num? ==> r.tRMSE.v == a.tRMSE.v + FoldSums(folds, sqrt).rmse
    ensures r.tCov.Num? ==> r.tCov.v == a.tCov.v + FoldSums(folds, sqrt).cov
    decreases |folds|
  {
    if folds == [] then a
    else
      var init := folds[..|folds| - 1];
      var last := folds[|folds| - 1];
      assert folds == init + [last];
      FoldSumsSnoc(folds, sqrt);
      RecordFold(RecordFolds(a, init, sqrt), last, sqrt)
  }

  /** Recording two folds in either order gives the same aggregator. */
  lemma RecordFoldCommutes(a: Aggregator, t1: Tally, t2: Tally, sqrt: real -> real)
    requires Valid(a)
    requires Sound(t1) && Sound(t2)
    ensures RecordFold(RecordFold(a, t1, sqrt), t2, sqrt) == RecordFold(RecordFold(a, t2, sqrt), t1, sqrt)
  {
  }

  /** The averages over the recorded folds. */
  datatype Report = Report(folds: nat, mae: Value, rmse: Value, coverage: Value)

  /** A running total divided by the number of folds; with no folds the
      total is still zero and 0/0 is NaN. */
  function Mean(total: Value, folds: nat): (r: Value)
    requires folds == 0 ==> total == Num(0.0)
    ensures r.NaN? <==> total.NaN? || folds == 0
    ensures r.Num? ==> r.v * folds as real == total.v
  {
    match total
    case NaN => NaN
    case Num(v) => Ratio(v, folds)
  }

  /** The averages the aggregator reports: each total over the fold count. */
  function Averages(a: Aggregator): (r: Report)
    requires Valid(a)
    ensures r.folds == a.numRuns
    ensures a.numRuns == 0 ==> r.mae.NaN? && r.rmse.NaN? && r.coverage.NaN?
    ensures r.mae.NaN? <==> a.tMAE.NaN? || a.numRuns == 0
    ensures r.rmse.NaN? <==> a.tRMSE.NaN? || a.numRuns == 0
    ensures r.coverage.NaN? <==> a.tCov.NaN? || a.numRuns == 0
    ensures r.mae.Num? ==> a.tMAE.Num? && r.mae.v * a.numRuns as real == a.tMAE.v
    ensures r.rmse.Num? ==> a.tRMSE.Num? && r.rmse.v * a.numRuns as real == a.tRMSE.v
    ensures r.coverage.Num? ==> a.tCov.Num? && r.coverage.v * a.numRuns as real == a.tCov.v
  {
    Report(a.numRuns, Mean(a.tMAE, a.numRuns), Mean(a.tRMSE, a.numRuns), Mean(a.tCov, a.numRuns))
  }

  /** After a single fold on a fresh aggregator the report is that fold's
      own MAE and coverage. */
  lemma SingleFoldReport(t: Tally, sqrt: real -> real)
    requires Sound(t)
    ensures Averages(RecordFold(New(), t, sqrt)).mae == FoldMae(t)
    ensures Averages(RecordFold(New(), t, sqrt)).rmse == SqrtOf(sqrt, FoldMse(t))
    ensures Averages(RecordFold(New(), t, sqrt)).coverage == FoldCoverage(t)
  {
  }

  /** A fold in which the predictor declines everything: no MAE, and a
      coverage of zero unless nothing was held out at all. */
  lemma DeclinedFoldStatistics(predict: Predictor, users: seq<TestUser>, holdout: real)
    requires ValidFraction(holdout)
    requires AllShuffled(users)
    requires Declines(predict)
    ensures var t := ScoreUsers(Zero, predict, users, holdout);
      && t.ngood == 0
      && t.nitems == HeldOutTotal(users, holdout)
      && FoldMae(t).NaN?
      && FoldCoverage(t) == (if HeldOutTotal(users, holdout) == 0 then NaN else Num(0.0))
  {
    var t := ScoreUsers(Zero, predict, users, holdout);
    var n := HeldOutTotal(users, holdout);
    DeclinedFold(Zero, predict, users, holdout);
    assert t == Tally(0.0, 0.0, n, 0);
    if n > 0 {
      assert FoldCoverage(t) == Num(0.0 / n as real);
    }
  }

  /** A fold in which every answer is the true score: the MAE and the mean
      squared error are zero as soon as anything was answered. */
  lemma ExactFoldStatistics(predict: Predictor, users: seq<TestUser>, holdout: real)
    requires ValidFraction(holdout)
    requires AllShuffled(users)
    requires forall u :: u in users ==> ExactFor(predict, u.profile)
    ensures var t := ScoreUsers(Zero, predict, users, holdout);
      && (t.ngood > 0 ==> FoldMae(t) == Num(0.0) && FoldMse(t) == Num(0.0))
  {
    ExactFold(Zero, predict, users, holdout);
  }

  datatype BuildError = BuildError(reason: string)

  /** The recommender builder, with the engine's rating predictor: either a
      trained predictor or the error the build raised. */
  type Builder = seq<Profile> -> Result<Predictor, BuildError>

  /** The training data handed to the builder, and whether it is still open. */
  datatype DataSource = DataSource(users: seq<Profile>, open: bool)

  /** One benchmark run: build a model from `trainUsers` (closing the
      training source whatever happens), test it on `testUsers`, and record
      the fold. A failed build propagates and records nothing. */
  method AddBenchmark(a: Aggregator, build: Builder, sqrt: real -> real, trainUsers: seq<Profile>, testUsers: seq<TestUser>)
    returns (r: Result<Aggregator, BuildError>, source: DataSource)
    requires Valid(a)
    requires AllShuffled(testUsers)
    ensures source == DataSource(trainUsers, false)
    ensures build(trainUsers).Failure? ==> r == Failure(build(trainUsers).error)
    ensures build(trainUsers).Success? ==>
      r == Success(RecordFold(a, ScoreUsers(Zero, build(trainUsers).value, testUsers, a.holdout), sqrt))
    ensures r.Success? ==> Valid(r.value) && r.value.numRuns == a.numRuns + 1 && r.value.holdout == a.holdout
  {
    source := DataSource(trainUsers, true);
    var built := build(source.users);
    source := source.(open := false);
    if built.Failure? {
      r := Failure(built.error);
      return;
    }
    var t := RunFold(built.value, testUsers, a.holdout);
    r := Success(RecordFold(a, t, sqrt));
  }
}
