# goml core, modelled in Dafny

This project models the core of goml, a small machine-learning library in Go. The core covers:

- the two gradient-descent optimizers (full batch and stochastic);
- multinomial logistic regression;
- k-nearest-neighbour classification;
- equal-width discretisation;
- the counting tables of the mRMR feature reducer;
- the dynamic-value helpers these rest on: feature wrappers, type inference, numeric conversion, shuffling, selection, temporary file names.

It then proves what these promise. Every Go file of the core has one Dafny module, named after the package and the file:

| module | Go file |
|---|---|
| `OptimizeGD` | `optimize/gradientDescent.go` |
| `OptimizeSGD` | `optimize/stochasticGradientDescent.go` |
| `UtilOptimizer` | `util/optimizer.go` |
| `ClassificationLR` | `classification/logisticRegression.go` |
| `ClassificationKNN` | `classification/knn.go` (with `base/distance.go`) |
| `BaseDiscretize` | `base/discretize.go` |
| `UtilDiscretize` | `util/discretize.go` |
| `FeaturesMRMR` | `features/mrmr.go` |
| `FeaturesReducer` | the `NoReducer` and mRMR reducers as the classifiers call them |
| `BaseFeatures` | `base/features.go` |
| `BaseTuple` | `base/tuple.go` |
| `FeaturesUtil` | `features/util.go` |
| `UtilMath` | `util/math.go` |
| `BaseUtil` | `base/util.go` |
| `UtilSlice` | `util/slice.go` |
| `UtilFile` | `util/file.go` |

Four modules are shared:

- `Wrappers` has `Option` and `Result`. A Go `panic` is the result `Panic(reason)`, and the reason is the panic message as a module constant.
- `GoValues` models a Go `interface{}` value. It has every integer kind, float kinds, bool, string and nil, plus the feature wrappers and "any other type". It writes out the wrap-around of a conversion to Go's 64-bit `int`.
- `UtilHelpers` holds `util.MinInt`, `MaxInt`, `RangeSlice`, `SelectIndexes` and `Max`, plus a few arithmetic facts.
- `DescentSpec` is the reference definition of one gradient step and of the stopping rule. Both gradient-descent copies and SGD are proved against it.

Modelling conventions:

- A `float64` is a `real`. Go's `int` is an unbounded `int`, except where a conversion can wrap.
- Slices passed by value are Dafny sequences. So "the caller's slice is unchanged" holds by construction. The optimizers work on private copies, as the Go code does.
- Loops in the source are `while` loops with invariants. Each is proved against a specification function, and lemmas prove that function's properties.
- A buffer that is updated in place is an `array`. Examples are the tuples shuffled by `ShuffleTuples`, the distance records sorted by `sort.Sort` and the packed gradient vector.
- A class whose fields change is a Dafny `class`: the process settings of `base/util.go`, `LogisticRegression` and `Knn`.
- Randomness becomes a choice that the contract records in a ghost output: the swap partners of a shuffle, the point orders of SGD, the random bytes of a file name. Each contract holds for every choice.
- These are parameters ("oracles"), because the model does not compute them: `math.Sqrt` inside the Euclidean distance, the softmax built from `math.Exp` and `util.LogSumExp`, `math.Log`, and kNN's `calculateScore`.
- The optimizers' objective and gradient callbacks are Dafny function values.

## Model

| member | source | states |
|---|---|---|
| DescentSpec.Step | optimize/gradientDescent.go:50-52 | one descent step updates every parameter in order to `params[i] - alpha * gradients[i]`, keeping the length |
| DescentSpec.FirstStopIsFirst | optimize/gradientDescent.go:47-57 | the step the loop stops at converges or is the last one allowed, and no earlier step from t on converged |
| DescentSpec.StepsTakenStopsAt | optimize/gradientDescent.go:47-60 | the loop's step count meets the stopping rule: the first step whose objective change is below the tolerance, or the iteration limit |
| DescentSpec.StopsAtUnique | optimize/gradientDescent.go:47-60 | at most one step count meets the stopping rule |
| DescentSpec.StopsAtIffStepsTaken | optimize/gradientDescent.go:47-60 | a step count meets the stopping rule exactly when it is the loop's step count |
| DescentSpec.StepsTakenEarly | optimize/gradientDescent.go:55-57 | a run whose k-th step is the first to converge takes exactly k steps |
| DescentSpec.StepsTakenLimit | optimize/gradientDescent.go:47 | a run where no step converges takes maxIterations steps, or none when that is not positive |
| DescentSpec.FirstStepConvergedTakesOne | optimize/gradientDescent.go:46-57 | when the first step already changes the objective by less than the tolerance, the run takes one step |
| DescentSpec.NoneConvergedExtend | optimize/gradientDescent.go:55-59 | a step that does not converge extends the run of non-converged steps |
| DescentSpec.StepOutcome | optimize/gradientDescent.go:54-59 | after k non-converged steps, the tolerance test on step k+1 decides between stopping after k+1 steps and continuing |
| DescentSpec.DescentPass | optimize/gradientDescent.go:48-59 | one loop iteration yields the next iterate, its objective value and whether the loop breaks, and what that means for the step count |
| OptimizeGD.GradientDescent.Optimize | optimize/gradientDescent.go:41-63 | returns the parameters after exactly the number of steps the stopping rule gives, starting from a copy of the initial parameters |
| OptimizeGD.GradientDescent.OptimizeBatch | optimize/gradientDescent.go:65-67 | always panics |
| OptimizeGD.GradientDescent.SupportsBatch | optimize/gradientDescent.go:69-71 | full-batch gradient descent reports no batch support |
| OptimizeGD.NewGradientDescent | optimize/gradientDescent.go:19-39 | each non-positive setting becomes its default (1000, 1e-4, 1e-4); positive ones are kept; the result is valid |
| OptimizeGD.StepBounds | optimize/gradientDescent.go:19-60 | a constructed optimizer takes at least one and at most maxIterations steps |
| UtilOptimizer.GradientDescent.Optimize | util/optimizer.go:48-70 | the same result as the `optimize` package: the iterate after the number of steps the stopping rule gives |
| UtilOptimizer.NewGradientDescent | util/optimizer.go:26-46 | each non-positive setting becomes its default; positive ones are kept |
| UtilOptimizer.SameConfigurationAsOptimizePackage | util/optimizer.go:26-46 | gives the same settings as `optimize.NewGradientDescent` |
| OptimizeSGD.NumBatchesIsCeiling | optimize/stochasticGradientDescent.go:66 | the batch count is the integer ceiling of `len(points) / batchSize`: the batches cover every point, and one batch fewer would not |
| OptimizeSGD.BatchShape | optimize/stochasticGradientDescent.go:67-69 | every batch is non-empty, holds at most batchSize points, and is the slice starting at `batch * batchSize` |
| OptimizeSGD.BatchesFromAreSuffix | optimize/stochasticGradientDescent.go:66-69 | the batches from k on, concatenated, are the points from `k * batchSize` on |
| OptimizeSGD.BatchesPartitionPoints | optimize/stochasticGradientDescent.go:66-69 | the batches of one iteration, concatenated, are the whole (shuffled) point list |
| OptimizeSGD.NeverStopsAfterFirstIteration | optimize/stochasticGradientDescent.go:79-83 | the tolerance test is skipped on the first iteration, so with a limit of two or more at least two iterations run |
| OptimizeSGD.EmptyPointsEpochIsIdentity | optimize/stochasticGradientDescent.go:66 | without points an iteration has no batch and changes nothing |
| OptimizeSGD.EmptyPointsKeepParams | optimize/stochasticGradientDescent.go:63-85 | without points any number of iterations returns the initial parameters |
| OptimizeSGD.RunSnoc | optimize/stochasticGradientDescent.go:63-76 | one more iteration is one more pass over its batches on top of the earlier parameters |
| OptimizeSGD.IterationOutcome | optimize/stochasticGradientDescent.go:78-84 | the tolerance test after an iteration decides between the stopping rule being met and continuing |
| OptimizeSGD.StopsAfterLimit | optimize/stochasticGradientDescent.go:63 | running out of iterations without the test firing meets the stopping rule |
| OptimizeSGD.RunEpoch | optimize/stochasticGradientDescent.go:66-76 | the descent steps of one iteration, one per batch in order, give the specified epoch result |
| OptimizeSGD.IterationPass | optimize/stochasticGradientDescent.go:64-84 | one iteration shuffles the points (a permutation), records the order, runs the epoch, and applies the tolerance test with its meaning for the stopping rule |
| OptimizeSGD.SGD.Optimize | optimize/stochasticGradientDescent.go:50-52 | always panics |
| OptimizeSGD.SGD.OptimizeBatch | optimize/stochasticGradientDescent.go:54-88 | every recorded point order is a permutation of the initial points; the iterations meet the stopping rule; the result is the parameters after those iterations |
| OptimizeSGD.SGD.SupportsBatch | optimize/stochasticGradientDescent.go:90-92 | SGD reports batch support |
| OptimizeSGD.NewSGD | optimize/stochasticGradientDescent.go:23-48 | each non-positive setting becomes its default (2000, 1e-4, 1e-4, 128); positive ones are kept; the result is valid |
| UtilSlice.Swap | util/slice.go:27 | exchanges the two entries and leaves every other entry alone |
| UtilSlice.SwapIsPermutation | util/slice.go:27 | a swap keeps the multiset of entries |
| UtilSlice.ShuffledIsPermutation | util/slice.go:24-29 | whatever the random choices, the shuffled sequence is a permutation of the input |
| UtilSlice.ShuffledSnoc | util/slice.go:25-28 | one more pass of the loop swaps entry i with the chosen `j <= i` |
| UtilSlice.ShuffleSlice | util/slice.go:24-29 | the array is shuffled in place with one choice `j <= i` per position: it ends as the shuffle of its old contents for those choices, the same multiset |
| UtilSlice.ShuffleIntSlice | optimize/stochasticGradientDescent.go:64 | the same pass over a list of point ids: the result is the shuffle for the recorded choices and a permutation of the ids |
| UtilSlice.InterfaceSlice | util/slice.go:9-21 | a non-slice value panics; a slice gives its elements in order |
| UtilFile.CharOf | util/file.go:35 | a random byte selects `RANDOM_CHARS[byte % 62]`, always one of the allowed characters |
| UtilFile.Encode | util/file.go:34-38 | one character per byte, each the character its byte selects |
| UtilFile.RandomString | util/file.go:25-39 | panics when reading random bytes fails (or for a negative length); otherwise `length` characters from `RANDOM_CHARS`, the encoding of the bytes read |
| UtilFile.Extension | util/file.go:17-19 | an empty extension becomes `temp`; any other is kept |
| UtilFile.TempFileName | util/file.go:16-23 | the file name is prefix, 64 random characters, suffix, `.` and the extension; panics only when the random read fails |
| UtilFile.TempFileNameParts | util/file.go:21 | the name starts with the prefix and ends with `.` and the extension |
| UtilMath.FloatEqualsReflexiveSymmetric | util/math.go:9-11 | every value equals itself, and the comparison is symmetric |
| UtilMath.FloatEqualsNotTransitive | util/math.go:9-11 | two values each within EPSILON of a third need not be within EPSILON of each other |
| UtilMath.IsNumericAgreesWithTyping | util/math.go:13-24 | a value is numeric exactly when feature inference types it numeric, and every numeric value converts to a number; bool converts but is not numeric |
| UtilDiscretize.DiscretizeNumeric | util/discretize.go:12-30 | fewer than one bucket or `min > max` returns the tuple; otherwise the same class and length, numeric values replaced by their bucket, the rest copied |
| UtilDiscretize.NumericBucketBounds | util/discretize.go:17-26 | every bucket lies in `[0, numBuckets-1]`; values at or below min get bucket 0, at or above max the last bucket; larger values never get smaller buckets |
| UtilDiscretize.AtOrAboveMaxIsLast | util/discretize.go:26 | a value at or above max reaches the clamp `numBuckets - 1` |
| UtilDiscretize.OneToTenInTenBuckets | util/discretize.go:17-26 | between 1 and 10 with ten buckets, the integer k lands in bucket k-1 |
| GoValues.ToGoInt | base/features.go:168-177 | Go's `int(x)` conversion: the result is in the signed 64-bit range and congruent to x modulo 2^64 |
| GoValues.ToGoIntKeepsValue | base/features.go:168-177 | signed kinds, and unsigned values below 2^63, convert without change |
| GoValues.ToGoIntWrapsLargeUnsigned | base/features.go:176-177 | a `uint64` of 2^63 or more becomes a negative `int` |
| BaseTuple.NumericValue | base/tuple.go:27-63 | nil gives 0; integers and floats give their value; bools give 1 or 0; strings, feature wrappers and any other type panic |
| BaseTuple.NumericValueIgnoresKind | base/tuple.go:35-56 | every integer and float width gives the same number, and an integer gives the same number as the equal float |
| BaseTuple.TupleNumericValue | base/tuple.go:17-25 | one number per data value, each that value's conversion; panics exactly when one of them does |
| FeaturesUtil.InferFeatureType | features/util.go:9-26 | nil, wrappers and unknown types panic; integer and float kinds are numeric, bool is boolean, string is string |
| FeaturesUtil.ClassLabelType | features/util.go:31-39 | a nil class is typed string; otherwise the class value's inferred type |
| FeaturesUtil.InferFeatures | features/util.go:29-42 | one type per data value and the class type; panics exactly when some data value or the class cannot be typed |
| FeaturesUtil.TypedValuesConvert | features/util.go:9-26 | a value typed numeric or boolean converts to a number; one typed string panics on conversion |
| BaseFeatures.IsNumericIffHasNumericValue | base/features.go:33-130 | a wrapper reports `IsNumeric()` exactly when it implements `NumericValue()`; only the nil and string wrappers are not numeric |
| BaseFeatures.NumericValue | base/features.go:49-102 | an int or float wrapper gives its value; a bool wrapper gives 1 for true and 0 for false |
| BaseFeatures.Value | base/features.go:29-122 | `Value()` returns a plain Go value, never a wrapper |
| BaseFeatures.InferFeature | base/features.go:145-189 | nil becomes the nil wrapper; a wrapper is returned as it is; integers are wrapped after `int(x)`, floats, bools and strings are wrapped; any other type panics |
| BaseFeatures.InferFeatureIdempotent | base/features.go:153-164 | inferring again from an inferred feature gives the same feature |
| BaseFeatures.InferFeatureWellFormed | base/features.go:166-177 | an inferred int wrapper's value lies in the 64-bit range |
| BaseFeatures.InferFeatureOfValue | base/features.go:29-189 | inferring from the plain value a wrapper holds gives the wrapper back |
| BaseFeatures.InferFeatureKeepsIntegers | base/features.go:166-177 | a signed integer, or an unsigned one below 2^63, keeps its value in the wrapper |
| BaseFeatures.InferNumericFeature | base/features.go:199-207 | the inferred feature when it implements `NumericValue()`, otherwise a panic |
| BaseFeatures.InferNumericFeaturePanics | base/features.go:199-207 | nil and strings, raw or wrapped, panic, as do unknown types; every other scalar gives a numeric feature |
| BaseFeatures.InferIntFeature | base/features.go:217-225 | the inferred feature when it is an int wrapper, otherwise a panic |
| BaseFeatures.InferIntFeatureAccepts | base/features.go:217-225 | exactly the integer kinds and int wrappers give an int feature |
| BaseFeatures.InferFeatures | base/features.go:137-143 | one feature per value, each that value's inference; panics exactly when one value does |
| BaseFeatures.InferNumericFeatures | base/features.go:191-197 | one numeric feature per value; panics exactly when one value has none |
| BaseFeatures.InferIntFeatures | base/features.go:209-215 | one int feature per value; panics exactly when one value has none |
| BaseUtil.ProcSettings.constructor | base/util.go:13-14 | both the current and the machine limit start at the machine's GOMAXPROCS |
| BaseUtil.ProcSettings.GetMaxProcs | base/util.go:20-22 | the current limit, between 0 and the machine limit |
| BaseUtil.ProcSettings.SetMaxProcs | base/util.go:26-29 | stores and returns `max` clamped to `[0, machine limit]`: kept when in range, 0 when negative, the machine limit when above it |
| BaseUtil.ClampBoundsAndIdempotent | base/util.go:27 | the clamp lands in range and clamping again changes nothing |
| BaseUtil.ShuffleTuples | base/util.go:51-56 | the array is shuffled in place with one choice `j <= i` per position, ending as a permutation of its old contents |
| BaseUtil.SelectTuples | base/util.go:59-65 | the tuples at the given indexes, in the order of the indexes; an index out of range panics |
| BaseUtil.SelectNumericTuples | base/util.go:68-74 | the same selection on numeric tuples |
| BaseUtil.StripClasses | base/util.go:103-115 | copies of the tuples without their class, and the classes in order |
| BaseUtil.StripClassesRoundTrip | base/util.go:103-115 | putting each stripped class back gives the original tuple |
| BaseDiscretize.GetNumericData | base/discretize.go:37-41 | reading a number succeeds exactly for a numeric row and an index in range, and gives the value there |
| BaseDiscretize.Column | base/discretize.go:40-41 | one number per row, each the row's value at the column |
| BaseDiscretize.SeqMin | base/discretize.go:37-47 | the running minimum is a value of the column and no greater than any of them |
| BaseDiscretize.SeqMax | base/discretize.go:37-47 | the running maximum is a value of the column and no smaller than any of them |
| BaseDiscretize.Bucket | base/discretize.go:71 | `int(min(max(val - min, 0) / bucketSize, numBuckets - 1))` lies in `[0, numBuckets-1]`, and is 0 at or below min |
| BaseDiscretize.Discretize | base/discretize.go:66-72 | a degenerate range puts every value in bucket 0; otherwise the bucket, always in `[0, numBuckets-1]` |
| BaseDiscretize.BucketMonotone | base/discretize.go:71 | a larger value never gets a smaller bucket |
| BaseDiscretize.DiscretizeEndpoints | base/discretize.go:58-71 | with the width `(max - min) / numBuckets`, min gets bucket 0 and max the last bucket |
| BaseDiscretize.DiscretizeOrder | base/discretize.go:58-71 | the buckets keep the order of values, min goes to bucket 0 and, for a non-degenerate range, max to the last bucket |
| BaseDiscretize.BucketedRow | base/discretize.go:61 | `SetData(featureIndex, ...)`: the row keeps its length, class and other cells, and the column holds the value's bucket |
| BaseDiscretize.UpdateRow | base/discretize.go:61 | updating one row succeeds exactly when the input row is numeric at the column and the output row has that column |
| BaseDiscretize.UpdatableIffReadableAndFit | base/discretize.go:60-62 | every row can be updated exactly when the column is readable in every row and every output row has room for it |
| BaseDiscretize.DiscretizeNumericFeatureWithBounds | base/discretize.go:53-63 | does nothing for fewer than one bucket or `min > max`; otherwise panics exactly when some row cannot be updated, and else writes each row's bucket into its output row and changes nothing else |
| BaseDiscretize.AsWrittenGuardAdmitsIndexPastEnd | base/discretize.go:33 | as written, the guard lets the index equal to the row's size through to `GetData` |
| BaseDiscretize.AsWrittenGuardReachesReadPastEnd | base/discretize.go:32-35 | for any non-empty data, the `<` guard lets the index one past the first row through, and reading the row there panics |
| BaseDiscretize.GuardKeepsIndexInRange | base/discretize.go:33 | with `<=` in the guard, every index that passes it is a position of the first row |
| BaseDiscretize.DiscretizeNumericFeature | base/discretize.go:32-50 | with the corrected guard of the first finding below (`DataSize() <= featureIndex`): skips no rows, an index at or past the end of the first row, or a non-numeric first value; otherwise panics exactly when the column cannot be read or the output rows lack it, and else buckets every row between the column's minimum and maximum |
| BaseDiscretize.DiscretizeColumn | base/discretize.go:37-49 | after the guard: the column's bounds from the scan, then the bucketing between them |
| BaseDiscretize.Widen | base/discretize.go:42-46 | one step of the scan moves min down to the value or max up to it |
| BaseDiscretize.SeqMinMaxSnoc | base/discretize.go:40-47 | one more value moves the extremes to that value or leaves them |
| BaseDiscretize.ColumnBounds | base/discretize.go:37-47 | the scan panics exactly when the column cannot be read, and else returns its minimum and maximum |
| BaseDiscretize.ZeroRows | base/discretize.go:14-18 | one zeroed int tuple per input tuple, of that tuple's size and with its class |
| BaseDiscretize.NewZeroRows | base/discretize.go:14-18 | the first loop builds exactly the zeroed rows |
| BaseDiscretize.DiscretizeNumericFeatures | base/discretize.go:13-29 | zeros without rows or buckets; otherwise panics exactly when a numeric column of the first row cannot be read in every row, and else every cell of such a column holds its bucket on the column's own scale and every other cell is 0; shapes and classes are kept |
| BaseDiscretize.FeaturePass | base/discretize.go:24-26 | one column of the feature loop extends the finished columns by that column |
| BaseDiscretize.FeatureStepDone | base/discretize.go:24-26 | the result of one column keeps the shape and finishes that column |
| BaseDiscretize.CellAfterStep | base/discretize.go:24-26 | finishing column fi changes the expected cells of column fi only |
| BaseDiscretize.DoneUpToAll | base/discretize.go:24-28 | once every column of the first row is done, each row's cells are final |
| BaseDiscretize.DiscretizedCellInRange | base/discretize.go:13-29 | every discretised cell is a bucket in `[0, numBuckets-1]` |
| BaseDiscretize.DiscretizedCellOrder | base/discretize.go:37-71 | within a column the buckets keep the order of the values, the column's minimum is in bucket 0 and, unless the column is constant, its maximum in the last bucket |
| FeaturesMRMR.Reduce | features/mrmr.go:54-57 | the tuple is returned unchanged |
| FeaturesMRMR.Histogram | features/mrmr.go:74-76 | the counting loop yields one count per bucket, NUM_BUCKETS of them |
| FeaturesMRMR.HistogramCounts | features/mrmr.go:74-76 | the count of a bucket is the number of rows whose feature falls in it |
| FeaturesMRMR.HistogramTotal | features/mrmr.go:74-76 | the counts of a feature add up to the number of rows |
| FeaturesMRMR.Histogram2 | features/mrmr.go:114-116 | the joint counting loop yields a NUM_BUCKETS by NUM_BUCKETS table |
| FeaturesMRMR.Histogram2RowSums | features/mrmr.go:114-116 | summing the joint counts over the second feature's buckets gives the counts of the first feature |
| FeaturesMRMR.MarginalSumsToOne | features/mrmr.go:70-83 | a marginal table is a probability distribution: its entries add up to 1 |
| FeaturesMRMR.JointAgreesWithMarginal | features/mrmr.go:108-125 | summing a joint table over its second feature gives the first feature's marginal table, and the whole table adds up to 1 |
| FeaturesMRMR.CalcFeatureMarginalProbabilities | features/mrmr.go:70-83 | panics exactly when some row has no bucket index at the feature; otherwise each bucket's entry is its count over the number of rows |
| FeaturesMRMR.DivideAll | features/mrmr.go:78-80 | every count is divided by the number of rows, in place |
| FeaturesMRMR.CalcAllMarginalProbabilities | features/mrmr.go:60-68 | empty data panics (`discreteData[0]`); otherwise panics exactly when some feature of the first row is not countable in every row, and else gives one marginal table per feature |
| FeaturesMRMR.CalcFeatureJointProbabilities | features/mrmr.go:108-125 | panics exactly when either feature is not countable in every row; otherwise each pair of buckets holds its pair count over the number of rows |
| FeaturesMRMR.CountPairs | features/mrmr.go:109-116 | the pair counting succeeds exactly when both features are countable and yields a NUM_BUCKETS-row table of counts |
| FeaturesMRMR.DivideTable | features/mrmr.go:118-122 | every entry of the table is its count over the number of rows |
| FeaturesMRMR.JointRow | features/mrmr.go:95-102 | row f1 has f1 + 1 entries, nil at f1 and the joint table with every f2 < f1; it panics exactly when a feature it reads is not countable |
| FeaturesMRMR.CalcAllJointProbabilities | features/mrmr.go:89-106 | empty data panics; otherwise panics exactly when there are two or more features and one is not countable in every row, and else gives the triangular table of joint tables |
| FeaturesMRMR.DiscreteCountable | features/mrmr.go:31-38 | a discretised column is countable in every row exactly when every row has that column |
| FeaturesMRMR.DiscreteAllCountable | features/mrmr.go:31-44 | every feature of the first row is countable exactly when no row is shorter than the first |
| FeaturesMRMR.Init | features/mrmr.go:21-52 | empty data panics; otherwise panics exactly when a numeric column of the first row cannot be read in every row or a row is shorter than the first; the discretised data, one marginal table per feature that sums to 1, and joint tables that sum to 1 and agree with the marginals |
| FeaturesReducer.Init | features/mrmr.go:21-24 | the no-op reducer accepts everything; the mRMR reducer panics exactly when mRMR's Init does |
| FeaturesReducer.Reduce | features/mrmr.go:54-57 | both reducers return the tuples unchanged |
| FeaturesReducer.ConsistentTuplesPassMRMR | features/mrmr.go:21-31 | non-empty numeric tuples of one size are always accepted by the mRMR reducer |
| FeaturesReducer.DefaultReducer | classification/logisticRegression.go:32-34 | a nil reducer selects the no-op reducer; a given one is kept |
| ClassificationLR.Classes | classification/logisticRegression.go:75-83 | one class label per tuple, in order |
| ClassificationLR.FirstSeenIsVocabulary | classification/logisticRegression.go:65-79 | the label list has no repeats, holds exactly the classes of the data, and follows the order in which they first appear |
| ClassificationLR.FirstSeenStep | classification/logisticRegression.go:75-79 | one more tuple appends its class to the labels exactly when it is unseen |
| ClassificationLR.LabelIds | classification/logisticRegression.go:82-83 | every tuple's label id is a position in the label list that holds its class |
| ClassificationLR.RecordLabel | classification/logisticRegression.go:75-83 | an unseen class gets the next id and is appended; the map and the earlier ids stay consistent with the labels |
| ClassificationLR.NumericRowsStep | classification/logisticRegression.go:81-91 | a numeric tuple of the first tuple's size extends the collected rows by its numbers |
| ClassificationLR.NumericRowsAll | classification/logisticRegression.go:69-92 | once every tuple passed, all tuples are numeric, share one size, and the rows are their numbers |
| ClassificationLR.CollectedAll | classification/logisticRegression.go:69-92 | once every class is recorded, the labels are the first-seen list and the ids index it |
| ClassificationLR.CollectTrainingData | classification/logisticRegression.go:61-92 | panics exactly when some tuple is not numeric or differs in size from the first; otherwise the first-seen labels, every tuple's numbers, and every tuple's label id |
| ClassificationLR.CollectedIsTrainingData | classification/logisticRegression.go:61-94 | what the loop collects from a non-empty consistent set is valid input for `train`: at least one label, rows of one width, ids in range |
| ClassificationLR.NumericData | classification/logisticRegression.go:81 | one row of numbers per tuple, the tuple's own values |
| ClassificationLR.Dot | classification/logisticRegression.go:343-352 | panics exactly when the lengths differ; otherwise the sum of the products |
| ClassificationLR.DotSymmetric | classification/logisticRegression.go:343-352 | the dot product is symmetric and zero against a zero vector |
| ClassificationLR.RealZeros | classification/logisticRegression.go:127 | `make([]float64, n)`: n zeros |
| ClassificationLR.FlattenRows | classification/logisticRegression.go:271-276 | k rows of width n flatten to `k*n` values, row i at offsets `[i*n, (i+1)*n)` |
| ClassificationLR.FlattenChunks | classification/logisticRegression.go:286-289 | flattening the first k cut rows gives back the first `k*n` values |
| ClassificationLR.Unpack | classification/logisticRegression.go:279-292 | K intercepts from the front, then K weight rows of width `(len - K) / K` cut in order |
| ClassificationLR.UnpackPacked | classification/logisticRegression.go:270-292 | unpacking a packed K x N model gives its weights and intercepts back |
| ClassificationLR.PackedUnpack | classification/logisticRegression.go:279-292 | packing an unpacked vector gives it back except for trailing entries that fill no whole row; a vector of length `K*(1+N)` has none |
| ClassificationLR.PackedUnpackExact | classification/logisticRegression.go:127-149 | a vector of the initial length `K*(1+N)` unpacks into K rows of width N and packs back to itself |
| ClassificationLR.UnpackFits | classification/logisticRegression.go:296-315 | every vector of the initial length unpacks into a model whose rows fit the training points |
| ClassificationLR.Activations | classification/logisticRegression.go:182-184 | the activation of every class is its intercept plus its weights dotted with the point |
| ClassificationLR.ClassProbabilities | classification/logisticRegression.go:186-189 | the probability of every class is the softmax of the activations at that class |
| ClassificationLR.ProbabilityMatrix | classification/logisticRegression.go:172-193 | one row of class probabilities per point |
| ClassificationLR.PointActivations | classification/logisticRegression.go:182-184 | panics exactly when an intercept is missing or a weight row differs in length from the point; otherwise the activations |
| ClassificationLR.Normalize | classification/logisticRegression.go:186-189 | the softmax of every activation |
| ClassificationLR.Probabilities | classification/logisticRegression.go:172-193 | no points give no rows; otherwise panics exactly when the shapes do not fit, and else the probability matrix |
| ClassificationLR.SquareSumSign | classification/logisticRegression.go:210-217 | a sum of squares is never negative, and zero when every entry is |
| ClassificationLR.RegularizerSumPrefix | classification/logisticRegression.go:210-217 | the regulariser over the first k classes is the squares of their intercepts plus the squares of their weight rows |
| ClassificationLR.RegularizerIsSquaredNorm | classification/logisticRegression.go:210-217 | the regulariser is the squared norm of the packed parameter vector: never negative, and zero at the all-zero start |
| ClassificationLR.Regularizer | classification/logisticRegression.go:210-217 | the loop sums every intercept squared and every weight squared, class by class |
| ClassificationLR.SumLogProbabilities | classification/logisticRegression.go:203-207 | the loop sums the log-probability of every point's own label |
| ClassificationLR.NegativeLogLikelihood | classification/logisticRegression.go:198-221 | minus the summed log-probabilities of the points' own labels plus `l2/2` times the regulariser |
| ClassificationLR.InterceptGradientClosedForm | classification/logisticRegression.go:242-251 | the intercept gradient's data term is the expected count of the class minus its observed count |
| ClassificationLR.WeightGradientClosedForm | classification/logisticRegression.go:242-256 | the weight gradient's data term is the probability-weighted sum of the feature minus its sum over the points of that class |
| ClassificationLR.AddScaled | classification/logisticRegression.go:253-255 | every entry of the row grows by the residual times the point's feature |
| ClassificationLR.AccumulatePoint | classification/logisticRegression.go:243-256 | one point adds its one-hot residual to every intercept gradient and its residual-weighted features to every weight gradient |
| ClassificationLR.AccumulateResiduals | classification/logisticRegression.go:235-257 | from zeros, the data loop yields the summed residuals per class and per class and feature |
| ClassificationLR.AddRegularizerGradient | classification/logisticRegression.go:259-265 | `l2` times every intercept and every weight is added to its gradient |
| ClassificationLR.GradientEntries | classification/logisticRegression.go:235-265 | the accumulated and regularised entries are those of the gradient specification |
| ClassificationLR.NegativeLogLikelihoodGradient | classification/logisticRegression.go:225-268 | the result is the gradient of the objective: summed residuals plus `l2` times the parameter, for every intercept and weight |
| ClassificationLR.WriteRow | classification/logisticRegression.go:324-326 | the row is written at its offset and the entries before it are kept |
| ClassificationLR.WriteRows | classification/logisticRegression.go:323-327 | the rows are written one after another from the offset, and the entries before it are kept |
| ClassificationLR.PackGradients | classification/logisticRegression.go:317-329 | the gradient vector is the intercept gradients followed by the weight gradient rows, the layout the unpacking reads |
| ClassificationLR.GradientAt | classification/logisticRegression.go:307-330 | one gradient entry per parameter |
| ClassificationLR.BatchGradientAt | classification/logisticRegression.go:334-341 | one gradient entry per parameter, computed from the selected points and labels |
| ClassificationLR.BatchGradientReadsSelectedPoints | classification/logisticRegression.go:334-341 | the batch gradient reads only the selected points: data that agree there give the same gradient |
| ClassificationLR.FullBatchIsFullGradient | classification/logisticRegression.go:334-341 | a batch of every point in order gives the full gradient |
| ClassificationLR.CallbacksDefined | classification/logisticRegression.go:133-148 | both gradient callbacks return one entry per parameter, as the optimizers need |
| ClassificationLR.Optimizer.SupportsBatch | optimize/stochasticGradientDescent.go:90-92 | only SGD supports batches |
| ClassificationLR.Optimizer.Optimize | classification/logisticRegression.go:140-149 | gradient descent runs as specified; SGD panics |
| ClassificationLR.Optimizer.OptimizeBatch | classification/logisticRegression.go:129-139 | SGD runs over shuffles of the points as specified; gradient descent panics |
| ClassificationLR.Fit | classification/logisticRegression.go:124-151 | from `K*(1+N)` zeros, the batch path exactly when the optimizer supports it, over the points `0..len(data)-1`; the result unpacks into K rows of N weights and K intercepts that are the optimizer's result |
| ClassificationLR.DefaultL2Penalty | classification/logisticRegression.go:40-42 | a negative penalty becomes 1.0; 0 and positive penalties are kept |
| ClassificationLR.DefaultOptimizer | classification/logisticRegression.go:36-38 | a nil optimizer becomes `NewSGD(0, 0, 0, 0)`, SGD with its defaults, which can run |
| ClassificationLR.ClassifyData | classification/logisticRegression.go:153-166 | panics exactly when a point does not fit the weights; otherwise per point the first most probable class and its probability, which no class exceeds |
| ClassificationLR.LogisticRegression.constructor | classification/logisticRegression.go:31-51 | nil settings take their defaults, the penalty is defaulted, nothing is trained yet |
| ClassificationLR.LogisticRegression.Train | classification/logisticRegression.go:53-95 | panics exactly when there are no tuples, one is not numeric, or one differs in size from the first; otherwise the labels are the first-seen classes, there is one weight row of the data's width and one intercept per label, and the packed model is the optimizer's result on the collected data |
| ClassificationLR.LogisticRegression.Classify | classification/logisticRegression.go:97-118 | panics exactly when a tuple is not numeric or does not fit the weights; otherwise per tuple the label of its first most probable class and that probability |
| ClassificationKNN.DefaultDistancer | classification/knn.go:33-35 | a nil distancer becomes `Euclidean`; a given one is kept |
| ClassificationKNN.SquaredDistanceIsMetricLike | base/distance.go:14-18 | the summed squared differences are symmetric, never negative, and zero from a point to itself |
| ClassificationKNN.Measure | base/distance.go:13-21 | Euclidean measures exactly when the second point has every position of the first; a custom distancer always measures, giving its own value |
| ClassificationKNN.EuclideanDistance | base/distance.go:13-21 | the loop over the first point's positions panics exactly when the second point is shorter, and otherwise yields the square root of the summed squared differences |
| ClassificationKNN.Distance | classification/knn.go:129 | the distancer's distance, panicking exactly when it cannot measure |
| ClassificationKNN.Distances | classification/knn.go:104-122 | one record per training tuple, at its own position, holding its distance from the point |
| ClassificationKNN.NoWorkerWhenMaxProcsIsZero | classification/knn.go:107 | with `GetMaxProcs() == 0` the worker count as written is 0, so no worker sends any of the awaited records |
| ClassificationKNN.AsWrittenNoRecordSent | classification/knn.go:107-118 | with `GetMaxProcs() == 0` no started worker covers any training position, so none of the awaited records is sent |
| ClassificationKNN.NumWorkers | classification/knn.go:107 | at least one worker and at most `max(1, GetMaxProcs())`; equal to the code's count whenever `GetMaxProcs() >= 1` |
| ClassificationKNN.TuplesPerWorker | classification/knn.go:108 | `ceil(n / workers)`: the workers' shares reach n and exceed it by less than one share per worker |
| ClassificationKNN.WorkerRangesCover | classification/knn.go:112-131 | every training position lies in the range of one of the started workers |
| ClassificationKNN.WorkerRangesDisjoint | classification/knn.go:124-131 | no position lies in the ranges of two different workers |
| ClassificationKNN.RunWorker | classification/knn.go:125-131 | a worker measures the positions of its range that exist, in order, and stops at the end of the data |
| ClassificationKNN.CalculateDistances | classification/knn.go:104-122 | with the corrected worker count of the second finding below (at least one worker): after every worker has run, panics exactly when some training tuple cannot be measured; otherwise exactly one record per training tuple, each at its own position |
| ClassificationKNN.Less | classification/knn.go:181-183 | one record comes before another exactly when its distance is smaller |
| ClassificationKNN.Swap | classification/knn.go:177-179 | the two entries trade places, the others stay, and the records are the same multiset |
| ClassificationKNN.InsertLast | classification/knn.go:87 | one insertion step extends the sorted prefix by one and keeps the records and the rest of the array |
| ClassificationKNN.SortByDistance | classification/knn.go:87 | the records end in ascending distance and are a permutation of the records before |
| ClassificationKNN.SortedPrefixIsNearest | classification/knn.go:87-97 | no record left out of the first k sorted records is nearer than any of them |
| ClassificationKNN.Ballots | classification/knn.go:92-97 | each record votes for the class of the training tuple it names |
| ClassificationKNN.VotesCountBallots | classification/knn.go:89-97 | the classes grouped are exactly the classes voted for, and each holds as many distances as it has votes |
| ClassificationKNN.GroupedVotesTotal | classification/knn.go:89-97 | the k nearest cast exactly k votes, and no class holds more distances than there are records |
| ClassificationKNN.MultiplicityBelowSize | classification/knn.go:89-97 | no class occurs in the ballots more often than there are ballots |
| ClassificationKNN.GroupNearest | classification/knn.go:89-97 | the map built from the k nearest records groups their distances by the class of the tuple each names, in record order |
| ClassificationKNN.FindBestClass | classification/knn.go:152-164 | an empty map gives nil; otherwise a class with at least as many distances as every other class |
| ClassificationKNN.PermutedIndicesIn | classification/knn.go:87-93 | after sorting, every record still names a training position |
| ClassificationKNN.ClassifyPoint | classification/knn.go:84-102 | through `CalculateDistances`, with at least one worker: panics exactly when a distance cannot be measured or there are fewer than k training tuples; otherwise the most voted class among the k nearest records, sorted by distance, and its score |
| ClassificationKNN.Knn.constructor | classification/knn.go:37-42 | the classifier holds k, its reducer and distancer, and no training data |
| ClassificationKNN.Knn.Train | classification/knn.go:49-62 | panics exactly when the reducer's `Init` does or a tuple is not numeric; otherwise the training data are the tuples |
| ClassificationKNN.Knn.Classify | classification/knn.go:66-82 | through `ClassifyPoint`, with at least one worker: panics exactly when a tuple is not numeric or cannot be measured, or when there are tuples and fewer than k training tuples; otherwise per tuple, in order, the most voted class of its k nearest training tuples and its score |
| ClassificationKNN.NewKnn | classification/knn.go:24-45 | panics exactly when k < 1; a nil reducer becomes `NoReducer`, a nil distancer `Euclidean`, and nothing is trained |

## Left out

- Printing: the debug output of `features/mrmr.go` (lines 26-48 and 127-158) and the panic messages' `%T` formatting. A panic keeps only its fixed text.
- `os.TempDir` and `filepath.Join` in `util/file.go`: the model builds the file name, not the path it is joined into. Whether `rand.Read` fails is an input; the bytes it reads are a recorded choice.
- Concurrency in `classification/knn.go`: the goroutines and the channel. `CalculateDistances` runs the workers one after another. It stores each record at its training position, so the sort sees the records in index order rather than in arrival order. The sort's result is sorted and a permutation either way.
- `calculateScore` (`classification/knn.go:133-150`): a parameter `score` of `ClassifyPoint` and `Knn.Classify`, because it iterates a Go map in unspecified order over floating-point sums.
- `math.Sqrt`, `math.Exp`, `math.Log`, `util.LogSumExp` and BLAS-style arithmetic: modelled as parameters, because reals have no transcendental functions. The proofs hold for every such function.
- NaN and infinities: reals have neither. So the model requires `min != max` where `util.DiscretizeNumeric` would divide by a zero bucket size.
- BaseDiscretize.Bucket: requires a positive bucket size. Go's exported `Discretize` (base/discretize.go:66-72) also accepts a negative size and then gives a truncated negative bucket. The model leaves that case out because every caller passes `(max - min) / numBuckets` with `min < max` and `numBuckets >= 1`.
- The optimizers' private parameter copies are local sequences updated entry by entry, not arrays updated in place. The callbacks are assumed pure.
- `GradientDescent.Optimize` and `SGD.OptimizeBatch` require that the gradient callback gives at least one entry per parameter (`GradientDefined`, `BatchGradientDefined`). Go would panic on a shorter gradient.
- `OptimizeSGD.SGD.OptimizeBatch` requires `batchSize > 0`. `NewSGD` guarantees this; a struct literal in Go could break it.
- The callbacks that `train` builds index the data without checking. The model's callbacks are total: they give 0 or zeros for a parameter vector of another length and for an empty or out-of-range batch. The optimizers pass neither.
- `ClassificationLR.NegativeLogLikelihood`, `NegativeLogLikelihoodGradient`, `PackGradients` and `Probabilities` (the inner loops) require the shapes that `train` establishes. Go would panic on a mismatch.
- `ClassificationLR.LogisticRegression.Classify` requires a trained model when tuples are given. An untrained Go model has no labels to pick from.
- `util.Max`, `util.RangeSlice`, `util.SelectIndexes`, `util.MinInt`, `util.MaxInt` and `util.ShuffleIntSlice` are not part of this model. `UtilHelpers` and `UtilSlice` give them the contracts their callers rely on, with `util.Max` taking the first largest entry.
- The reducer interface: `features/fsr.go` and `features/nofsr.go` declare `Init` and `Reduce` over feature lists, but the classifiers call them on tuples. `FeaturesReducer` models the calls the classifiers make. Both reducers return the tuples unchanged, and only the mRMR `Init` can panic.
- `FeaturesMRMR.Init` returns its tables instead of storing them in the reducer, because the reducer does nothing further with them. `CalcAllMarginalProbabilities` and `CalcAllJointProbabilities` require at least one row, which `Init` checks first.
- BaseUtil.StripClasses: copies the interface values and then calls `SetClass(nil)` on each copy (base/util.go:106-111). The `Tuple` implementations are not part of this model. The model assumes `SetClass` on a copy leaves the caller's tuple intact; a pointer-receiver implementation would also clear the caller's class. `BaseUtil.StripClassesRoundTrip` depends on this assumption, and the sharing of data slices between input and output is not modelled.
- The state that a panic part-way through a write leaves behind, for example `DiscretizeNumericFeature` failing on a later row: a panicking method's contract says only that it panicked.
- ClassificationLR.RegularizerIsSquaredNorm: proves the regulariser is never negative and is zero at the all-zero start, not that zero is reached only there.
- ClassificationKNN.Measure: a custom distancer is assumed to be a total function and never to panic.
- `base.Euclidean` measures only the first tuple's positions, so a longer second tuple is accepted, as in Go. `GetNumericData` panicking on a non-numeric feature does not arise, since a `NumericTuple` holds only numbers.
- DiscretizeNumericFeature: uses the corrected guard `DataSize() <= featureIndex` of the first finding. At `featureIndex == data[0].DataSize()` the model skips the feature and returns without a panic. Go's guard at base/discretize.go:33 lets that index through to `GetData`, which reads past the end of the row.
- CalculateDistances: uses the corrected worker count `NumWorkers` of the second finding, which is always at least 1. When `GetMaxProcs() == 0` and there is training data, the model returns every distance. Go starts no goroutine and blocks forever on the receive at classification/knn.go:116-118.
- ClassifyPoint: inherits the corrected worker count from `CalculateDistances`. When `GetMaxProcs() == 0` and there is training data, it returns a class where Go blocks.
- Classify (`ClassificationKNN.Knn.Classify`): inherits the same difference through `ClassifyPoint`. When `GetMaxProcs() == 0`, a non-empty input is classified where Go blocks.
- The random generators and seeding (`rand.Perm`, `rand.Intn`, `rand.Seed`); each choice is recorded instead.
- Reflection: `conversions.go`, `NewTypedTuple`, `TupleEquals` and `reflect.DeepEqual`. `UtilSlice.InterfaceSlice` takes a value that is a slice or not, rather than inspecting a `reflect.Value`.
- `FakeData`, the SVM wrapper, the profiling command line and the files that only declare interfaces: outside the core.

## Findings

| source | as written | input that shows it | evidently intended | confidence | as-written member | corrected member |
|---|---|---|---|---|---|---|
| base/discretize.go:33 | the guard skips the feature when `data[0].DataSize() < featureIndex` | one row of one value and `featureIndex == 1`: the guard passes and `GetData(1)` indexes past the end | skip when `DataSize() <= featureIndex`, so every index that passes is a position of the row | high; not executed | BaseDiscretize.AsWrittenGuardReachesReadPastEnd | BaseDiscretize.GuardKeepsIndexInRange |
| classification/knn.go:107 | `numWorkers = MinInt(MaxInt(1, n / 1000), GetMaxProcs())` | `SetMaxProcs(0)` (allowed by `base/util.go:26-29`) and one training tuple: no worker starts, and the loop waits for one record that never comes | at least one worker, so every training position is measured once | medium; not executed | ClassificationKNN.AsWrittenNoRecordSent | ClassificationKNN.NumWorkers |
