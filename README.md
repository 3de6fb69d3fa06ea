# skrusty-learn training core in Dafny

This project models the two training routines of skrusty-learn, a small Rust machine-learning library:

- **`LinearRegression`** (`supervised.rs`) keeps a weight vector of length `input_dimensions + 1`. Index 0 is the intercept. `fit` works in four steps:
  1. It keeps the labelled samples whose label has the model's output dimension.
  2. It builds a design matrix (column 0 is 1.0) and a target vector (the first label element).
  3. It runs 100000 simultaneous batch gradient-descent updates at learning rate 0.001.
  4. If no sample is kept, it returns without touching the weights.
- **`KMeansClustering`** (`models.rs`) is Lloyd-style k-means. `fit` seeds the centroids with the first `clusters` points. It then repeats one pass until the running minimum `min_ds` of centroid shifts is at most 0.001. Each pass does the following:
  1. Clear the scratch sums and counters.
  2. Assign every point to its nearest centroid. The comparison is strict, so the lowest index wins ties.
  3. Accumulate per-cluster sums and counts.
  4. Divide to get the means.
  5. Copy the means back while lowering `min_ds`.

Every `f64` is a Dafny `real`. Vectors are `seq<real>`, matrices `seq<seq<real>>`. A `DataPoint` is an input vector with an optional label vector.

Each loop of the source is a `method` with its loop invariants. Each method is proved against a specification function:

| loop in the source | method | specification function |
|---|---|---|
| filter | `FilterValid` | `ValidSamples` |
| design matrix | `BuildDesign` | `Design`, `Targets` |
| gradient | `BatchGradient` | `Gradient` |
| 100000 iterations | `LinearRegression.Fit` | `Descend` |
| point assignment | `AssignClusters` | `Assign` / `Nearest` |
| accumulation | `Accumulate` | `CountUpTo` / `SumUpTo` |
| division | `Average` | `NewCentroid` |
| copy-back | `CopyBack` | `MinShiftUpTo` |
| whole k-means loop | `Lloyd` | `Run` |

Lemmas then state what the source promises about those functions.

Distances are compared through their squares (`SqDist`). `vector_distance` is the square root of `SqDist`, and the square root is monotone on non-negative reals. So the nearest centroid, the running minimum and the test `min_ds <= 0.001` all come out the same when `SqDist` is compared with the squared constants (0.000001 and 1000000). The `f64::MAX` start value of `best_dist` means the first centroid is always taken. The model writes this as `j == 0 || dist < bestDist`.

The source's `min_ds` is never reset between passes, and the loop stops on the smallest shift of any single centroid. For a cluster with no points, models.rs:59 divides 0 by 0, and in the source that centroid becomes NaN. The model guards this case instead: such a cluster keeps its old centroid, so its shift is zero. Under that guard the model proves `EmptyClusterStopsRun`: a pass that leaves a cluster without points ends the loop at once. This stop comes from the guard, not from the source.

The code in `models.rs` does not compile as written. The model follows its evident reading on these points:
- `fit` is a method of `KMeansClustering`.
- `Vector.new_from_vec(data[i])` at line 15 is a copy of point `i`.
- The integer literal `1000` given to the `f64` `min_ds` at line 18 is 1000.0.
- `cloest` at line 45 is `closest`.
- `cluster_datasum[i][j] /= cluster_counter[i]` at line 59 divides the `f64` coordinate by the `usize` counter converted to `f64` (`count as real`).
- `cmp::min` on `f64` at line 66 is the smaller of the two values.
- `cluster_centroids = cluster_datasum[i]` at line 67 assigns centroid `i`.

## Model

| member | source | states |
|---|---|---|
| Util.Zeros | supervised.rs:18 | the zero vector has the requested length and every entry 0.0 |
| Util.SqDist | models.rs:39 | the squared distance between two vectors of equal dimension is never negative |
| Util.OutputDimension | supervised.rs:27 | a point has a positive output dimension only when it is labelled; an unlabelled point counts as output dimension 0 |
| Util.Add | models.rs:52 | elementwise addition keeps the dimension, and adding to the zero vector gives the other vector back |
| Util.DotUpTo | supervised.rs:69-72 | the dot product of the first `m` entries is zero when either vector is zero on those entries |
| Util.Min | models.rs:66 | the smaller of two values is below both and equal to one of them |
| Util.SqDistSelf | models.rs:65 | a vector is at distance zero from itself, so a centroid that does not move has shift 0 |
| Supervised.Keeps | supervised.rs:41-42 | for a positive output dimension, a sample is kept exactly when it is labelled and its label has that dimension |
| Supervised.ValidSamples | supervised.rs:38-46 | the kept samples are no more than the input, each is a training sample, and each is labelled with a label of the model's output dimension |
| Supervised.ValidSamplesComplete | supervised.rs:38-46 | every labelled training sample whose label has the output dimension is kept: no valid sample is lost |
| Supervised.ValidSamplesAppend | supervised.rs:38-46 | the filter keeps the original order: filtering a concatenation gives the concatenation of the filtered parts |
| Supervised.FilterValid | supervised.rs:39-46 | the push loop builds exactly the kept samples, in input order |
| Supervised.BuildDesign | supervised.rs:53-63 | the design matrix is `n × (input_dimensions + 1)`, column 0 is 1.0, column `j + 1` is feature `j` of sample `i`, and target `i` is the first label element of sample `i`; both equal `Design`/`Targets` |
| Supervised.Design | supervised.rs:53-61 | the design matrix has one row per kept sample and `input_dimensions + 1` columns, column 0 is 1.0 and column `j + 1` is feature `j` |
| Supervised.Targets | supervised.rs:62 | there is one target per kept sample, and target `i` is the first element of sample `i`'s label |
| Supervised.Residuals | supervised.rs:67-79 | there is one error per sample |
| Supervised.Gradient | supervised.rs:80-88 | the gradient has one component per weight, and all are zero when the weights reproduce every target |
| Supervised.ZeroResidualSums | supervised.rs:83-86 | with all errors zero, the error-weighted sum of every design column is zero |
| Supervised.Step | supervised.rs:89-92 | one update keeps the number of weights, and leaves weights that reproduce every target unchanged |
| Supervised.Descend | supervised.rs:66-93 | repeated batch updates keep the weight vector's length |
| Supervised.Dot | supervised.rs:69-72 | the accumulating prediction loop computes the dot product of the first `m` entries |
| Supervised.Predictions | supervised.rs:67-74 | prediction `i` is row `i` of the design matrix dotted with the current weights |
| Supervised.Errors | supervised.rs:76-79 | error `i` is prediction `i` minus target `i` |
| Supervised.GradientOf | supervised.rs:81-88 | gradient component `k` is `1/n` times the sum over samples of error times design entry `k` |
| Supervised.BatchGradient | supervised.rs:67-88 | one iteration's three loops compute exactly `Gradient`, the mean-squared-error gradient taken entirely at the weights before the update |
| Supervised.WeightedSum | supervised.rs:83-86 | a design column that is zero on every row contributes a zero sum, so that component of the gradient vanishes |
| Supervised.WeightedSumOfZeroResiduals | supervised.rs:84-86 | with all errors zero, every gradient sum is zero |
| Supervised.ExactFitIsFixedPoint | supervised.rs:66-93 | weights that reproduce every target are a fixed point: one update, and any number of updates, leave them unchanged |
| Supervised.Predict | supervised.rs:103-107 | the corrected prediction is the intercept `weights[0]` when every feature is zero |
| Supervised.DotWithLeadingOne | supervised.rs:56-72 | a design row `[1.0] + features` dotted with the weights is the intercept plus the features dotted with the coefficients |
| Supervised.DotUpToAgree | supervised.rs:70-71 | two vectors that agree on their first `m` entries have the same dot product with the weights over those entries |
| Supervised.DesignRowPredicts | supervised.rs:69-72 | row `i` of the design matrix dotted with the weights, as `fit` predicts, is the prediction `Predict` makes for sample `i` |
| Supervised.ExactFitIffZeroError | supervised.rs:66-113 | the weights reproduce every target of the design matrix exactly when the corrected squared error over the same samples is zero |
| Supervised.SquaredErrorSum | supervised.rs:98-113 | the sum of squared prediction errors is never negative |
| Supervised.SquaredErrorSumZeroIff | supervised.rs:98-113 | the squared error sum is zero if and only if the model predicts every label exactly |
| Supervised.SquaredErrorSumAsWritten | supervised.rs:102-110 | the error `eval` computes as written, over the first `input_dimensions` points with `weights[input_dimensions - 1]` as the constant term, is never negative |
| Supervised.EvalConstantTermCounterexample | supervised.rs:107 | with two features, a model that predicts both labels exactly is charged error 2 by `eval` as written, while the intended error is 0 |
| Supervised.EvalPointRangeCounterexample | supervised.rs:102 | with one feature, `eval` as written reports 0 on two points while the intended error over both points is 1 |
| Supervised.LinearRegression.FromDims | supervised.rs:14-20 | `new_from_dims` records both dimensions and starts from `input_dimensions + 1` zero weights |
| Supervised.LinearRegression.FromPoint | supervised.rs:24-30 | `new_from_points` takes the input and output dimensions of the sample and starts from `input + 1` zero weights |
| Supervised.LinearRegression.Fit | supervised.rs:34-94 | with no kept sample the weights are unchanged; otherwise they are exactly 100000 batch updates at rate 0.001 from the old weights on the kept samples' design matrix and targets, and their length stays `input_dimensions + 1` |
| Supervised.LinearRegression.ApplyGradient | supervised.rs:89-92 | every weight moves by `LearningRate` times its gradient component, in place; the number of weights stays the same and nothing else changes |
| Supervised.LinearRegression.EvalAsWritten | supervised.rs:98-113 | `eval` as written returns `SquaredErrorSumAsWritten`, a non-negative value |
| Supervised.LinearRegression.Eval | supervised.rs:98-113 | corrected `eval`: the squared error sum over every point with the intercept as constant term (non-negative), or an error for an empty input or an unlabelled point |
| Supervised.LinearRegression.Coefficients | supervised.rs:116-118 | `get_coefficients` has one entry per input feature, and entry `j` is weight `j + 1` |
| Supervised.LinearRegression.Intercept | supervised.rs:121-123 | `get_intercept` followed by `get_coefficients` is the whole weight vector |
| Supervised.LinearRegression.Dimensions | supervised.rs:126-128 | `get_dimensions` is the stored pair, and its input part is one less than the number of weights |
| Models.IsNearest | models.rs:38-44 | the chosen centroid exists and has the lowest index among the centroids at its distance; with a single centroid, that centroid is always chosen (the `f64::MAX` start) |
| Models.Nearest | models.rs:35-46 | the chosen centroid exists, none is strictly nearer, and every earlier one is strictly farther (lowest index wins ties) |
| Models.NearestIsUnique | models.rs:38-44 | at most one centroid is nearest in this sense, so the argmin is determined |
| Models.Assign | models.rs:35-46 | there is one assignment per point and every assigned cluster index is below `clusters` |
| Models.AssignClusters | models.rs:35-46 | the argmin loop puts every point in its nearest centroid's cluster and agrees with `Assign` |
| Models.CountUpTo | models.rs:49-51 | a cluster never has more points than were counted |
| Models.SumUpTo | models.rs:49-53 | a cluster's coordinate sum has the data dimension |
| Models.TotalCountStep | models.rs:49-51 | one more point raises the count of clusters `0..k` by one exactly when its cluster is among them |
| Models.CountsAddUpToPoints | models.rs:49-51 | when every point is in one of the `k` clusters, the cluster counts add up to the number of points |
| Models.SumPrefixOfCounts | models.rs:49-51 | a counter array holding the per-cluster counts adds up to the total count |
| Models.EmptyClusterSum | models.rs:49-53 | a cluster with no points has the zero vector as its sum |
| Models.ResetScratch | models.rs:29-32 | after the wipe every scratch sum is the zero vector of the data dimension and every counter is 0 |
| Models.Accumulate | models.rs:49-53 | each counter is the number of points assigned to its cluster, each sum is the elementwise sum of exactly those points, and the counters add up to the number of points |
| Models.NewCentroid | models.rs:56-61 | the new centroid of an empty cluster is the old one; for a non-empty cluster, each coordinate times the count is the coordinate sum |
| Models.Average | models.rs:56-61 | each non-empty cluster's new centroid is its sum divided coordinate by coordinate by its count; an empty cluster keeps its centroid |
| Models.MinShiftUpTo | models.rs:64-66 | the running minimum never rises above its starting value |
| Models.MinShiftIsSmallest | models.rs:64-66 | the running minimum is at most every centroid shift, and it is the starting value or one of the shifts |
| Models.CopyBack | models.rs:64-68 | the copy-back moves every centroid to its new position and leaves `min_ds` as the minimum of its old value and all shifts |
| Models.Means | models.rs:56-61 | the new centroids have the right number and the data dimension |
| Models.MeansAt | models.rs:56-61 | new centroid `c` is the mean of the points assigned to `c`, or the old centroid when there are none |
| Models.Step | models.rs:29-61 | one pass keeps the number of centroids and their dimension |
| Models.Pass | models.rs:28-68 | the wipe, assignment, accumulation, division and copy-back loops of one pass together give `Step`, with `min_ds` folded over that pass's shifts |
| Models.Run | models.rs:25-73 | the loop keeps the centroid count and dimension, `min_ds` never rises, and (starting above the threshold) the loop reports convergence exactly when `min_ds` is at most the threshold |
| Models.EmptyClusterStopsRun | models.rs:56-72 | a pass that leaves some cluster without points ends the loop at once with `min_ds` zero |
| Models.Lloyd | models.rs:18-73 | the imperative loop, with its scratch buffers allocated once and reused, ends with exactly the centroids and the convergence verdict of `Run` from the seeds and `min_ds` 1000 |
| Models.KMeansClustering.constructor | models.rs:1-4 | a model has its dimension and cluster count and no centroids |
| Models.KMeansClustering.Fit | models.rs:7-74 | fewer points than clusters fails the assertion and leaves the centroids alone; otherwise the centroids are seeded with the first `clusters` points and end as `Run` leaves them, `clusters` of them, each of the data dimension; with no clusters it fails on the first point |

## Left out

- Floating point: IEEE-754 rounding, NaN and infinities are not modelled. Every `f64` is an exact `real`.
- `vector_distance`: its square root is not modelled. Distances are compared through their squares, which gives the same comparisons because the square root is monotone.
- `util.rs` is not part of this model. `Vector`, `Matrix` and `DataPoint` are plain sequences and a datatype. `DataPoint::get_dimension` is taken to give output dimension 0 for an unlabelled point.
- `main3.rs`, the demo driver that prints results, is not part of this model.
- Analytic convergence claims are not modelled. Examples: gradient descent reaching the least-squares solution, or k-means reaching the cluster means.
- Rust `usize` is modelled as unbounded `nat`. `input_dimensions + 1` cannot overflow in the model.
- Models.KMeansClustering.Fit: the source's `loop` has no bound. The model runs at most `fuel` passes and reports `FuelExhausted` if the threshold is not reached by then.
- Models.KMeansClustering.Fit: the source divides an empty cluster's zero sum by a zero counter, which gives NaN. The model keeps that cluster's old centroid instead.
- Models.KMeansClustering.Fit: with no clusters, the source panics at the first point's counter update, or loops forever when there are no points. The model reports `NoClusters`, or `FuelExhausted` for empty data.
- Models.KMeansClustering.Fit: when the loop runs (`1 <= clusters <= |data|`), it requires every point to have the model's dimension. The distances, sums and divisions of models.rs:39-61 assume that dimension. The `InsufficientData` and `NoClusters` paths demand nothing of the points.
- Supervised.LinearRegression.Fit: when some sample is kept, requires that every kept sample has at least `input_dimensions` features, and that the output dimension is at least 1. With no kept sample the source returns at supervised.rs:49-51 and demands nothing. Without these the source's indexing at supervised.rs:60 and supervised.rs:62 panics.
- Supervised.LinearRegression.EvalAsWritten: requires at least `input_dimensions` points, each labelled with a non-empty label and with enough features. The source panics otherwise, at the indexing of supervised.rs:105 or the `unwrap()[0]` of supervised.rs:108.
- Supervised.LinearRegression.Eval: requires every point to have at least `input_dimensions` features and a non-empty label when labelled. The source's indexing panics otherwise. An empty point list and an unlabelled point are reported as errors.
- `diff.abs() * diff.abs()` is written `diff * diff`. They are equal on reals.
- The commented-out matrix product in `main3.rs` is not modelled.

## Findings

| source | as written | input that shows it | evidently intended | confidence | as-written member | corrected member |
|---|---|---|---|---|---|---|
| supervised.rs:107 | the constant term of each prediction is `weights[input_dimensions - 1]` | weights `[1, 0, 0]` (intercept 1) and two points with input `[0, 0]` and label `1`: every prediction is exact, but `eval` adds `weights[1] = 0` and returns 2 | the constant term is the intercept `weights[0]`, so the error is 0 | not executed | Supervised.EvalConstantTermCounterexample | Supervised.LinearRegression.Eval |
| supervised.rs:102 | the outer loop runs over `0..input_dimensions`, the number of features, not over the points | one feature, weights `[0, 0]`, points `([0], 0)` and `([0], 1)`: `eval` looks at the first point only and returns 0 | the loop runs over every point, so the error is 1 | not executed | Supervised.EvalPointRangeCounterexample | Supervised.LinearRegression.Eval |
