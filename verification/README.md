# Benchmark aggregator model

A Dafny model of `BenchmarkAggregator`, the cross-validation engine of the
RefLens recommender toolkit. For each fold the aggregator builds a rating
predictor from the training users. It then tests the predictor on every test
user. A test user's ratings are shuffled and cut at
`midpt = round(n * (1 - holdout))`. The first `midpt` ratings become the
*query* map, which the predictor is told. Every remaining item is *held out*
and put to the predictor once. Each attempt is counted (`nitems`). Each
answered attempt is also counted (`ngood`) and adds its absolute and squared
error to two sums. After the fold, the fold's MAE, RMSE and coverage are added
to running totals, and the run counter `numRuns` goes up by one.

Modules:

- `Wrappers` (`wrappers.dfy`): `Option` (a Java reference that may be null) and `Result` (a value or a thrown error).
- `Ratings` (`ratings.dfy`): a user's profile as a `map<ItemId, real>`, and orderings of its items. An ordering is a duplicate-free sequence of exactly the rated items. The result of `Collections.shuffle` is one such ordering.
- `Holdout` (`holdout.dfy`): the valid range of the holdout fraction, Java's round-half-up, the query count, and the split of one shuffled user into query map and held-out items. The query count multiplies `n` by `1 - holdout` through repeated addition (`Times`), which `TimesIsProduct` shows equal to the product; this keeps non-linear real arithmetic out of the definitions the other modules unfold.
- `FoldTally` (`tally.dfy`): the four per-fold counters. `Score`, `ScoreItems` and `ScoreUsers` are the functional reference of the test loop. `RunFold` and its helper methods are the loops as the source writes them. The lemmas cover a predictor that declines everything, a predictor that is always exact, and merging counters over a split population.
- `Benchmark` (`benchmark.dfy`): the aggregator state, the holdout setter, `AddBenchmark`, recording of folds into the running totals, and the averaged report.

Floats are modelled as `real`. NaN is modelled explicitly: `Value` is
`Num(v)` or `NaN`, and NaN absorbs every addition. A fold with no answered
prediction computes `0/0` for its MAE and RMSE. This is NaN and not an
infinity, because the model proves that the error sums are still zero while
`ngood` is zero. The aggregator is an immutable value. A rejected
`SetHoldoutFraction` returns `Failure` and yields no new state, so the caller
keeps the aggregator with its old fraction.

Three behaviours of the code worth knowing:

- With zero recorded folds, `printResults` divides `0/0` and prints NaN (`Averages`). No error is raised.
- An exception from the predictor is not caught: it leaves `addBenchmark`. The model's predictor is a total function, so it never throws.
- A fold without answers still counts as a run, and it turns the MAE and RMSE totals into NaN for good (`RecordFold`, `RecordFolds`).

## Model

| member | source | states |
|---|---|---|
| Holdout.RoundHalfUp | src/main/java/org/grouplens/reflens/bench/BenchmarkAggregator.java:95 | `Math.round` yields the unique integer in `(x - 1/2, x + 1/2]`: the nearest integer, with ties going up |
| Holdout.QueryCount | src/main/java/org/grouplens/reflens/bench/BenchmarkAggregator.java:95 | for a holdout in (0,1), `midpt` lies in `0..n`, so both index loops stay inside the rating list |
| Holdout.Times | src/main/java/org/grouplens/reflens/bench/BenchmarkAggregator.java:95 | the repeated addition computing `n * c` (line 95 uses `c = 1 - holdout`) is non-negative for `c >= 0`, at most `n` for `c <= 1`, and below `n` when `n > 0` and `c < 1` |
| Holdout.TimesIsProduct | src/main/java/org/grouplens/reflens/bench/BenchmarkAggregator.java:95 | the repeated addition used for `n * (1 - holdout)` equals the real product, for every `n` |
| Holdout.QueryCountRounds | src/main/java/org/grouplens/reflens/bench/BenchmarkAggregator.java:95 | `midpt` is `n * (1 - holdout)` rounded half up |
| Holdout.QueryOfContents | src/main/java/org/grouplens/reflens/bench/BenchmarkAggregator.java:98-102 | the query map filled from a prefix has exactly the prefix's items as keys, each with the user's own score |
| Holdout.SplitPartition | src/main/java/org/grouplens/reflens/bench/BenchmarkAggregator.java:93-104 | for any shuffle, the query has `midpt` entries and the held-out part has `n - midpt` distinct items; the two are disjoint, their union is exactly the rated items, and every query entry keeps the user's score |
| Holdout.QuarterOfFour | src/main/java/org/grouplens/reflens/bench/BenchmarkAggregator.java:95-104 | a user with four ratings and a quarter held out has three query ratings and one held-out item |
| Holdout.EmptyProfileSplit | src/main/java/org/grouplens/reflens/bench/BenchmarkAggregator.java:95-104 | a user without ratings has an empty query and nothing held out |
| FoldTally.HeldOutRated | src/main/java/org/grouplens/reflens/bench/BenchmarkAggregator.java:103-105 | every held-out item is an item the user rated, so looking up its true rating never fails, and there are `n - midpt` of them |
| FoldTally.Score | src/main/java/org/grouplens/reflens/bench/BenchmarkAggregator.java:104-112 | one held-out item adds exactly one attempt; a null prediction changes nothing else; a non-null one adds one answer, `abs(p - actual)` to the absolute sum and `(p - actual)^2` to the squared sum; the counter invariant (answers at most attempts, sums non-negative, sums zero while nothing is answered) is kept |
| FoldTally.ScoreAddsItem | src/main/java/org/grouplens/reflens/bench/BenchmarkAggregator.java:104-112 | scoring one item adds exactly that item's own contribution (one attempt, and for a non-null prediction one answer with its two errors) to the counters |
| FoldTally.ScoreItems | src/main/java/org/grouplens/reflens/bench/BenchmarkAggregator.java:103-113 | scoring a user's held-out items adds one attempt per item and keeps the counter invariant |
| FoldTally.ScoreItemsTotal | src/main/java/org/grouplens/reflens/bench/BenchmarkAggregator.java:103-113 | scoring a user's held-out items one by one adds exactly the sum of the items' own contributions, summed independently first item first |
| FoldTally.ScoreUser | src/main/java/org/grouplens/reflens/bench/BenchmarkAggregator.java:93-113 | testing one user adds exactly `n - midpt` attempts, one per held-out item, and keeps the counter invariant |
| FoldTally.ScoreUsers | src/main/java/org/grouplens/reflens/bench/BenchmarkAggregator.java:92-114 | the test loop over all users adds exactly the total held-out count to `nitems`, whatever the predictor answers, and keeps the counter invariant |
| FoldTally.FoldCounters | src/main/java/org/grouplens/reflens/bench/BenchmarkAggregator.java:88-113 | a fold's four counters equal an independent sum over every held-out item of every user: `nitems` is the number of attempts, `ngood` the number of non-null predictions, `accumErr` and `accumSqErr` the sums of those answers' absolute and squared errors |
| FoldTally.FillQuery | src/main/java/org/grouplens/reflens/bench/BenchmarkAggregator.java:98-102 | the put loop builds the query map whose keys are the first `midpt` shuffled items, with the user's scores |
| FoldTally.ScoreHeldOut | src/main/java/org/grouplens/reflens/bench/BenchmarkAggregator.java:103-113 | the loop from `midpt` to the end of the list computes the reference scoring of the held-out items |
| FoldTally.TestUserRatings | src/main/java/org/grouplens/reflens/bench/BenchmarkAggregator.java:93-113 | testing one user computes the reference scoring of that user's held-out items against the user's query map |
| FoldTally.RunFold | src/main/java/org/grouplens/reflens/bench/BenchmarkAggregator.java:88-114 | the fold's nested loops compute exactly the reference counters of `ScoreUsers`, so they inherit its bounds: `0 <= ngood <= nitems`, non-negative sums, `nitems` equal to the total held-out count |
| FoldTally.DeclinedFold | src/main/java/org/grouplens/reflens/bench/BenchmarkAggregator.java:105-112 | when the predictor always returns null, only `nitems` changes, and it grows by the held-out count; `ngood` and both error sums stay as they were |
| FoldTally.ExactFold | src/main/java/org/grouplens/reflens/bench/BenchmarkAggregator.java:107-111 | when every answer equals the user's true rating, both error sums stay as they were |
| FoldTally.ScoreUsersAppend | src/main/java/org/grouplens/reflens/bench/BenchmarkAggregator.java:92-114 | testing users `a` and then users `b` gives the same counters as testing `a + b` |
| FoldTally.UsersOffset | src/main/java/org/grouplens/reflens/bench/BenchmarkAggregator.java:88-113 | the counters after the test loop are the starting counters plus what the loop counts from zero |
| FoldTally.SplitPopulation | src/main/java/org/grouplens/reflens/bench/BenchmarkAggregator.java:88-113 | the four counters of a fold over `a + b` are the counter-wise sums of the folds over `a` and over `b` |
| Benchmark.Add | src/main/java/org/grouplens/reflens/bench/BenchmarkAggregator.java:119-121 | a float sum is NaN exactly when an operand is NaN, and is the real sum otherwise |
| Benchmark.Ratio | src/main/java/org/grouplens/reflens/bench/BenchmarkAggregator.java:119-121 | a division whose numerator is zero when the denominator is zero is NaN exactly for a zero denominator; otherwise it is the quotient, non-negative for a non-negative numerator and at most 1 when the numerator is at most the denominator |
| Benchmark.SqrtOf | src/main/java/org/grouplens/reflens/bench/BenchmarkAggregator.java:120 | `Math.sqrt` of a NaN mean is NaN, and of a defined mean is defined |
| Benchmark.FoldMae | src/main/java/org/grouplens/reflens/bench/BenchmarkAggregator.java:119 | a fold's MAE is NaN exactly when nothing was answered; otherwise it is non-negative and times `ngood` gives the absolute error sum |
| Benchmark.FoldMse | src/main/java/org/grouplens/reflens/bench/BenchmarkAggregator.java:120 | the mean squared error under the square root is NaN exactly when nothing was answered; otherwise it is non-negative and times `ngood` gives the squared error sum |
| Benchmark.FoldCoverage | src/main/java/org/grouplens/reflens/bench/BenchmarkAggregator.java:121 | coverage is NaN exactly when nothing was attempted; otherwise it lies in [0,1] and times `nitems` gives `ngood` |
| Benchmark.New | src/main/java/org/grouplens/reflens/bench/BenchmarkAggregator.java:47-55 | a fresh aggregator has no runs, zero totals, and the default fraction 0.33333333, which lies in (0,1) |
| Benchmark.SetHoldoutFraction | src/main/java/org/grouplens/reflens/bench/BenchmarkAggregator.java:57-65 | the setter fails exactly when `fraction <= 0` or `fraction >= 1`; otherwise `holdoutFraction()` returns exactly the value set and no other field changes, so `numRuns` is untouched |
| Benchmark.RecordFold | src/main/java/org/grouplens/reflens/bench/BenchmarkAggregator.java:118-121 | recording a fold increases `numRuns` by exactly one and keeps the fraction; a total becomes NaN exactly when it already was or the fold's own statistic is undefined; otherwise `tMAE` grows by the fold's MAE, `tRMSE` by the square root of its mean squared error, and `tCov` by its coverage |
| Benchmark.RecordFolds | src/main/java/org/grouplens/reflens/bench/BenchmarkAggregator.java:118-121 | after any number of folds, `numRuns` has grown by that number; the MAE and RMSE totals are NaN exactly when some recorded fold had no answers, the coverage total exactly when some fold had no attempts; a defined total has grown by the independently summed MAE, RMSE or coverage of the folds |
| Benchmark.RecordFoldCommutes | src/main/java/org/grouplens/reflens/bench/BenchmarkAggregator.java:118-121 | the running totals do not depend on the order in which two folds are recorded |
| Benchmark.Mean | src/main/java/org/grouplens/reflens/bench/BenchmarkAggregator.java:126-128 | a total over the fold count is NaN exactly when the total is NaN or there are no folds; otherwise times the fold count it gives the total |
| Benchmark.Averages | src/main/java/org/grouplens/reflens/bench/BenchmarkAggregator.java:124-129 | the report counts the runs; each average is NaN exactly when its total is NaN or there are no runs; a defined average times the run count gives the running total |
| Benchmark.SingleFoldReport | src/main/java/org/grouplens/reflens/bench/BenchmarkAggregator.java:118-128 | after one fold on a fresh aggregator, the reported MAE, RMSE and coverage are that fold's own |
| Benchmark.DeclinedFoldStatistics | src/main/java/org/grouplens/reflens/bench/BenchmarkAggregator.java:105-121 | if every prediction is null, `ngood` is 0, `nitems` is the held-out count, the MAE is NaN, and the coverage is 0 (NaN if nothing was held out) |
| Benchmark.ExactFoldStatistics | src/main/java/org/grouplens/reflens/bench/BenchmarkAggregator.java:107-120 | if every answer is the true rating and something was answered, the fold's MAE and mean squared error are 0 |
| Benchmark.AddBenchmark | src/main/java/org/grouplens/reflens/bench/BenchmarkAggregator.java:73-122 | the training source is closed whether the build succeeds or fails; a build failure propagates and records nothing; otherwise the fold's counters are recorded and `numRuns` grows by exactly one |

## Left out

- Logging (`logger.debug`) and the console output of `addBenchmark` and `printResults`. These are I/O only. The divisions `printResults` prints are modelled by `Averages`.
- The recommender builder, the engine and its rating predictor are external collaborators. They are parameters: the builder is a function from training users to a predictor or a build error, and the predictor is a function to an optional score. A predictor with side effects, or one that mutates the query map, is not modelled.
- A predictor exception propagates out of `addBenchmark` in the source. The model's predictor is total, so this path is absent.
- `CollectionDataSource` is reduced to a record of the training users and an open flag. `AddBenchmark` closes it on both paths.
- The randomness of `Collections.shuffle`. Each test user comes with the order the shuffle produced, which may be any permutation of the user's rated items.
- Float and double rounding. Scores, errors, sums and the holdout fraction are exact reals. Infinity is not modelled, whether it comes from an overflowing sum or from the predictor.
- `Math.sqrt` is a caller-supplied function on reals. The model maps NaN to NaN and makes no other claim about it.
- Java `int` overflow of `nitems`, `ngood` and `numRuns`, and the `long` to `int` cast of `Math.round`. Counters are unbounded naturals.
- The constructor's `factory` field. The builder is passed to each `AddBenchmark` call instead of being stored.
- The fastutil `Int2FloatOpenHashMap` representation of the query map. The model uses a Dafny `map<ItemId, real>`.
- Benchmark.SetHoldoutFraction: the thrown `RuntimeException` is modelled as a `Failure` result with no new state. The model does not represent the unchanged object itself; the caller keeps the aggregator it had.
- Benchmark.SetHoldoutFraction: a NaN fraction passes the Java guard at line 61, because both comparisons with NaN are false, and line 64 stores it; `Math.round(NaN)` is 0, so every rating would then be held out. Fractions are finite reals in the model, so this path is absent and `Valid` only holds for finite fractions.
- Benchmark.FoldMae: a NaN or infinite predicted score makes the source's error sums NaN or infinite while `ngood > 0`, so "NaN exactly when nothing was answered" holds only for the finite predictions the model's `real` scores can express.
