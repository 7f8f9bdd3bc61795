# Martinez sensitivity estimator

A Dafny model of OpenTURNS' `MartinezSensitivityAlgorithm`. This estimator
computes first- and total-order Sobol' indices from a pick-freeze design by
reading them as Pearson correlations. It has three parts:

- **Index computation** (`computeIndices`). The flat output design of
  `(2 + d) * size` points is cut into block A, block B and one block E_p per
  input. A is centred, and B and each E_p are centred and reduced. Column p of
  the first-order variance matrix and of the VTi matrix is filled from
  per-component dot products. The model proves that every entry equals a
  closed formula over the columns of the design:
  - V_p is the correlation of B with E_p times the variance of A;
  - VTi is the reference variance minus the covariance of A with E_p over the
    spread of E_p, times the spread of A. This equals the reference variance
    minus rho(A, E_p) times the variance of A.
- **Asymptotic intervals** (`computeAsymptoticInterval`). Each first-order
  index, and one minus each total-order index, is read as a correlation. It
  is mapped to z-space by the Fisher transform, widened by `t / sqrt(size - 3)`
  and mapped back with `tanh`. The total-order bounds come back reflected.
- **Interval cache** (`getFirstOrderIndicesInterval`,
  `getTotalOrderIndicesInterval`). The estimator keeps the interval method
  flag it last used and the two intervals last computed. Both accessors run
  the same transition:
  - a flag different from the stored one discards both intervals;
  - then the asymptotic intervals are computed, unless already present, or
    the resampled ones are stored.

Modules:

- `Numerics`: `log`, `tanh`, `sqrt` and `qNormal` as uninterpreted
  functions, plus the facts assumed about them (`Sound`).
- `Stats`: sums, means, centring, dot products, covariance, variance,
  standard deviation and correlation over `seq<real>`.
- `Samples`: samples as sequences of points, and the per-component
  operations `computeIndices` applies to blocks.
- `PickFreeze`: the block layout and the partition of the design into
  blocks.
- `Estimator`: the two entry formulas, and their link to the correlation
  formulas.
- `Fisher`: intervals, the Fisher transform and the asymptotic intervals.
- `ResultCache`: the cache transition as a function on values.
- `Martinez`: the class `MartinezSensitivityAlgorithm`, with its mutable
  cache fields and the methods of the source. Their loops carry invariants,
  and each method is proved against the functions above.
- `Errors`: the error and result types.

Where the source would produce NaN or an infinity in its results, or
fail, the model returns an error instead:
- `DegenerateBlock`: a zero standard deviation in B or E_p, when there is at
  least one input. What the source does then depends on the `Sample`
  operator `/=` of lines 100 and 109. That class is not part of this model,
  so both readings are named under "## Left out": it throws, or it divides
  by zero componentwise.
- `SampleTooSmall`: fewer than two points per block, when there is at least
  one input.
- `CorrelationOutOfDomain(p)`: a first-order index, or one minus a
  total-order index, outside [-1, 1]. The source takes the logarithm of a
  negative number and stores NaN bounds.

At exactly 1 or -1, IEEE arithmetic makes the transform infinite and `tanh`
maps it back to the index itself. The model computes the same single-point
range at that index. With no input (`inputDimension == 0`), the model's
`computeIndices` returns two empty matrices, since the loop of lines
102-122 never runs. This assumes the statistics and `/=` on blocks A and B
before that loop do not throw (see "## Left out"). The source's
exception for `size <= 3` becomes `AsymptoticSampleTooSmall`.

## Model

| member | source | states |
|---|---|---|
| Martinez.MartinezSensitivityAlgorithm.constructor | lib/src/Uncertainty/Algorithm/Sensitivity/MartinezSensitivityAlgorithm.cxx:33-49 | A new estimator stores the configured flag and holds no interval (both are the empty interval); the cache starts consistent |
| Martinez.MartinezSensitivityAlgorithm.ComputeIndices | lib/src/Uncertainty/Algorithm/Sensitivity/MartinezSensitivityAlgorithm.cxx:78-124 | Fails exactly when there is at least one input and the design is degenerate (fewer than two points, or a constant output component in B or in some E_p), and then with `SampleTooSmall` when `size < 2`; with no input it returns two empty matrices; otherwise both results are `outputDimension x inputDimension` and entry [q][p] is V_p and VTi for output q read off the columns of A, B and E_p |
| Martinez.CenterReduce | lib/src/Uncertainty/Algorithm/Sensitivity/MartinezSensitivityAlgorithm.cxx:95-100 | Centring and reducing a block fails exactly when one of its component standard deviations is zero; otherwise the result is the standardized block |
| Martinez.EstimateInput | lib/src/Uncertainty/Algorithm/Sensitivity/MartinezSensitivityAlgorithm.cxx:102-122 | One pass of the outer loop succeeds exactly when E_p has no constant component, and then extends the finished columns from 0..p-1 to 0..p |
| Martinez.WriteColumn | lib/src/Uncertainty/Algorithm/Sensitivity/MartinezSensitivityAlgorithm.cxx:114-121 | The inner loop keeps both matrices `outputDimension x inputDimension`, writes the two entry formulas into column p for every output, and leaves every other column unchanged |
| Martinez.ColumnDone | lib/src/Uncertainty/Algorithm/Sensitivity/MartinezSensitivityAlgorithm.cxx:111-120 | Entries written from the dot products of the standardized and centred blocks are V_p and VTi of the design, so column p joins the finished columns |
| Martinez.DesignEntries | lib/src/Uncertainty/Algorithm/Sensitivity/MartinezSensitivityAlgorithm.cxx:111-120 | For every input p and output q, `yEDotyB[q]/(size-1)*sigmaA[q]^2` is V_p and `referenceVariance[q] - yEDotyA[q]/(size-1)*sigmaA[q]` is VTi, both as functions of the design's columns |
| Martinez.AllStandardizable | lib/src/Uncertainty/Algorithm/Sensitivity/MartinezSensitivityAlgorithm.cxx:102-109 | Once every column is finished, no block of the design is degenerate |
| Martinez.BlockSigma | lib/src/Uncertainty/Algorithm/Sensitivity/MartinezSensitivityAlgorithm.cxx:97 | The standard deviation point of a block holds, per output, the standard deviation of that block's column |
| Martinez.FisherBounds | lib/src/Uncertainty/Algorithm/Sensitivity/MartinezSensitivityAlgorithm.cxx:154-187 | The bounds loop returns exactly the reference intervals for half-width `w`, or fails at the first input whose first-order index or one minus total-order index lies outside [-1, 1]; at exactly 1 or -1 it stores the single-point range |
| Martinez.MartinezSensitivityAlgorithm.ComputeAsymptoticInterval | lib/src/Uncertainty/Algorithm/Sensitivity/MartinezSensitivityAlgorithm.cxx:137-191 | Makes the cache step of the source: nothing changes and nothing is computed if a first-order interval is present; otherwise it counts one computation and stores both asymptotic intervals, or reports their error and stores nothing; the cache stays consistent |
| Martinez.MartinezSensitivityAlgorithm.ComputeIndicesInterval | lib/src/Uncertainty/Algorithm/Sensitivity/MartinezSensitivityAlgorithm.cxx:207-211 | The resampling path stores the resampled first- and total-order intervals |
| Martinez.MartinezSensitivityAlgorithm.Update | lib/src/Uncertainty/Algorithm/Sensitivity/MartinezSensitivityAlgorithm.cxx:197-211 | The shared body of both accessors makes exactly the `Refresh` transition of the cache, including its error and whether a computation ran |
| Martinez.MartinezSensitivityAlgorithm.GetFirstOrderIndicesInterval | lib/src/Uncertainty/Algorithm/Sensitivity/MartinezSensitivityAlgorithm.cxx:195-213 | The answer never depends on the cache: under the asymptotic flag it is the asymptotic first-order interval or its error, otherwise the resampled one |
| Martinez.MartinezSensitivityAlgorithm.GetTotalOrderIndicesInterval | lib/src/Uncertainty/Algorithm/Sensitivity/MartinezSensitivityAlgorithm.cxx:216-234 | The same for the total-order interval |
| Martinez.FirstThenTotal | lib/src/Uncertainty/Algorithm/Sensitivity/MartinezSensitivityAlgorithm.cxx:203-233 | Asking for the first- then the total-order interval under the asymptotic flag returns both asymptotic intervals and computes them at most once when there is at least one input |
| Estimator.FirstOrderEntry | lib/src/Uncertainty/Algorithm/Sensitivity/MartinezSensitivityAlgorithm.cxx:104-118 | With B and E_p standardizable, the first-order entry computed from the dot product of the standardized blocks is V_p = rho(B, E_p) * Var(A) |
| Estimator.TotalOrderEntry | lib/src/Uncertainty/Algorithm/Sensitivity/MartinezSensitivityAlgorithm.cxx:89-120 | With E_p standardizable, the VTi entry computed from standardized E_p and centred A is the reference variance minus Cov(A, E_p) / sd(E_p) * sd(A) |
| Estimator.EntryFirstOrder | lib/src/Uncertainty/Algorithm/Sensitivity/MartinezSensitivityAlgorithm.cxx:118 | The expression `yEDotyB[q] / (size - 1.0) * sigmaA[q] * sigmaA[q]` (no contract of its own; `FirstOrderEntry` proves it is V_p = rho(B, E_p) * Var(A)) |
| Estimator.EntryTotalOrder | lib/src/Uncertainty/Algorithm/Sensitivity/MartinezSensitivityAlgorithm.cxx:120 | The expression `referenceVariance[q] - yEDotyA[q] / (size - 1.0) * sigmaA[q]` (no contract of its own; `TotalOrderEntry` and `TotalOrderComplementAsCorrelation` prove it is the reference variance minus rho(A, E_p) * Var(A)) |
| Estimator.FirstOrderFromParts | lib/src/Uncertainty/Algorithm/Sensitivity/MartinezSensitivityAlgorithm.cxx:118 | A dot product over `size - 1` that equals the correlation, times sd(A) squared, is V_p |
| Estimator.TotalOrderFromParts | lib/src/Uncertainty/Algorithm/Sensitivity/MartinezSensitivityAlgorithm.cxx:120 | The reference variance minus such a dot product times sd(A) is VTi |
| Estimator.TotalOrderComplementAsCorrelation | lib/src/Uncertainty/Algorithm/Sensitivity/MartinezSensitivityAlgorithm.cxx:119-120 | VTi equals the reference variance minus rho(A, E_p) times Var(A). The code's `VTi` (line 120) is the quantity the comment on line 119 names `Vti`, not its `VTi = rho(yA, yE) * var(yA)`, which is the complement |
| Estimator.FirstOrderOfFrozenCopy | lib/src/Uncertainty/Algorithm/Sensitivity/MartinezSensitivityAlgorithm.cxx:116-118 | If E_p repeats B, S_p = 1 and V_p is the whole variance of A |
| Estimator.TotalOrderOfFrozenCopy | lib/src/Uncertainty/Algorithm/Sensitivity/MartinezSensitivityAlgorithm.cxx:119-120 | If E_p repeats A, VTi is the reference variance minus the variance of A |
| PickFreeze.BlockRows | lib/src/Uncertainty/Algorithm/Sensitivity/MartinezSensitivityAlgorithm.cxx:104 | Block A reads points [0, size), B reads [size, 2 size) and E_p reads [(2+p) size, (3+p) size), in order; the block fits in the design and keeps its dimension |
| PickFreeze.PointOwner | lib/src/Uncertainty/Algorithm/Sensitivity/MartinezSensitivityAlgorithm.cxx:89-104 | The blocks partition the design: every point lies in exactly one block, the one at ordinal `i / size`, and that block exists |
| PickFreeze.BlockFits | lib/src/Uncertainty/Algorithm/Sensitivity/MartinezSensitivityAlgorithm.cxx:104 | Every block of the design ends within the `(2 + d) * size` points |
| PickFreeze.OffsetIsProduct | lib/src/Uncertainty/Algorithm/Sensitivity/MartinezSensitivityAlgorithm.cxx:104 | The offset of k blocks is `k * size` |
| Samples.Slice | lib/src/Uncertainty/Algorithm/Sensitivity/MartinezSensitivityAlgorithm.cxx:89 | `Sample(sample, first, last)` holds the `last - first` points from `first` on, in order |
| Samples.ComputeMean | lib/src/Uncertainty/Algorithm/Sensitivity/MartinezSensitivityAlgorithm.cxx:90 | The mean point has one component per output, the mean of that column; `CenteredColumnsSumToZero` proves that subtracting it centres every column |
| Samples.ComputeStandardDeviationPerComponent | lib/src/Uncertainty/Algorithm/Sensitivity/MartinezSensitivityAlgorithm.cxx:91 | The standard deviation point has one component per output, the column's spread; `SpreadOfComponent` and `StdDevSquared` state what it is |
| Samples.Subtract | lib/src/Uncertainty/Algorithm/Sensitivity/MartinezSensitivityAlgorithm.cxx:93 | `yA -= muA` keeps the number of points and the dimension; `ColumnOfSubtract` proves it shifts every column by its component |
| Samples.Divide | lib/src/Uncertainty/Algorithm/Sensitivity/MartinezSensitivityAlgorithm.cxx:100 | `yB /= sigmaB`, for a point with no zero component, keeps the number of points and the dimension; `ColumnOfDivide` proves it scales every column |
| Samples.ComputeSumDotSamples | lib/src/Uncertainty/Algorithm/Sensitivity/MartinezSensitivityAlgorithm.cxx:111-113 | One sum of products per output; `SumDotOfStandardized` and `SumDotOfStandardizedCentered` prove what it gives on standardized and centred blocks |
| Samples.ColumnOfSubtract | lib/src/Uncertainty/Algorithm/Sensitivity/MartinezSensitivityAlgorithm.cxx:93 | Column j of `s -= mu` is column j shifted by `mu[j]` |
| Samples.ColumnOfDivide | lib/src/Uncertainty/Algorithm/Sensitivity/MartinezSensitivityAlgorithm.cxx:100 | Column j of `s /= sigma` is column j scaled by `sigma[j]` |
| Samples.CenteredColumnsSumToZero | lib/src/Uncertainty/Algorithm/Sensitivity/MartinezSensitivityAlgorithm.cxx:90-93 | After `y -= mean(y)` every component sums to zero over the block |
| Samples.StandardizedColumnsSumToZero | lib/src/Uncertainty/Algorithm/Sensitivity/MartinezSensitivityAlgorithm.cxx:96-100 | After `y -= mean(y); y /= sigma(y)` every component still sums to zero |
| Samples.ColumnOfCentered | lib/src/Uncertainty/Algorithm/Sensitivity/MartinezSensitivityAlgorithm.cxx:93 | Column j of a centred block is the centred column j |
| Samples.ColumnOfStandardized | lib/src/Uncertainty/Algorithm/Sensitivity/MartinezSensitivityAlgorithm.cxx:99-100 | Column j of a centred-reduced block is column j centred and divided by its standard deviation |
| Samples.SumDotOfStandardized | lib/src/Uncertainty/Algorithm/Sensitivity/MartinezSensitivityAlgorithm.cxx:111-117 | Per component, the dot product of two standardized blocks over `n - 1` is the Pearson correlation of the two columns |
| Samples.SumDotOfStandardizedCentered | lib/src/Uncertainty/Algorithm/Sensitivity/MartinezSensitivityAlgorithm.cxx:113-120 | Per component, the dot product of a standardized and a centred block over `n - 1` is their covariance over the first spread |
| Stats.StandardizedDotIsCorrelation | lib/src/Uncertainty/Algorithm/Sensitivity/MartinezSensitivityAlgorithm.cxx:116-117 | The dot product of two standardized columns over `n - 1` is their correlation |
| Stats.StandardizedDotCentered | lib/src/Uncertainty/Algorithm/Sensitivity/MartinezSensitivityAlgorithm.cxx:119-120 | The dot product of a standardized and a centred column over `n - 1` is the covariance over the first spread |
| Stats.SelfCorrelation | lib/src/Uncertainty/Algorithm/Sensitivity/MartinezSensitivityAlgorithm.cxx:116-117 | A column with non-zero spread has correlation 1 with itself |
| Stats.CorrelationSymmetric | lib/src/Uncertainty/Algorithm/Sensitivity/MartinezSensitivityAlgorithm.cxx:111 | rho(x, y) = rho(y, x), so `yE * yB` and `yB * yE` give the same index |
| Stats.CovarianceSymmetric | lib/src/Uncertainty/Algorithm/Sensitivity/MartinezSensitivityAlgorithm.cxx:113 | Cov(x, y) = Cov(y, x) |
| Stats.CenteredSumsToZero | lib/src/Uncertainty/Algorithm/Sensitivity/MartinezSensitivityAlgorithm.cxx:93 | A centred column sums to zero |
| Stats.StdDevSquared | lib/src/Uncertainty/Algorithm/Sensitivity/MartinezSensitivityAlgorithm.cxx:118 | sigma^2 is the variance, which is non-negative |
| Stats.CovarianceOverSpread | lib/src/Uncertainty/Algorithm/Sensitivity/MartinezSensitivityAlgorithm.cxx:119-120 | Cov(x, y) / sd(y) * sd(x) = rho(x, y) * Var(x) |
| Fisher.FirstOutOfDomain | lib/src/Uncertainty/Algorithm/Sensitivity/MartinezSensitivityAlgorithm.cxx:161-187 | The index where the bounds loop stops: both indices of every earlier input can be read as correlations, and those of the one found cannot (or it is the dimension) |
| Fisher.FirstOutOfDomainAt | lib/src/Uncertainty/Algorithm/Sensitivity/MartinezSensitivityAlgorithm.cxx:161-187 | Scanning in input order, the first input found outside the domain is the one `FirstOutOfDomain` names |
| Fisher.FirstOrderBox | lib/src/Uncertainty/Algorithm/Sensitivity/MartinezSensitivityAlgorithm.cxx:167-175 | The first-order interval has bounds [tanh(z - w), tanh(z + w)] with z the Fisher transform of S_p, one range per input; at S_p = 1 or -1 (where z is infinite) the range is the single point S_p |
| Fisher.TotalOrderBox | lib/src/Uncertainty/Algorithm/Sensitivity/MartinezSensitivityAlgorithm.cxx:179-186 | The total-order interval has bounds [1 - tanh(z' + w), 1 - tanh(z' - w)] with z' the transform of 1 - ST_p; at ST_p = 0 or 2 the range is the single point ST_p |
| Fisher.ExactCorrelationGivesPoint | lib/src/Uncertainty/Algorithm/Sensitivity/MartinezSensitivityAlgorithm.cxx:167-186 | A first-order index of exactly 1 or -1, or a total-order index of exactly 0 or 2, gets the single-point range at that index |
| Fisher.ExactCorrelationsAccepted | lib/src/Uncertainty/Algorithm/Sensitivity/MartinezSensitivityAlgorithm.cxx:149-187 | With `size > 3`, indices at those boundary values never make the intervals fail |
| Fisher.FisherZ | lib/src/Uncertainty/Algorithm/Sensitivity/MartinezSensitivityAlgorithm.cxx:169 | The Fisher transform `0.5 * log((1 + rho) / (1 - rho))` on (-1, 1) (no contract of its own; `TanhInvertsFisher` proves tanh undoes it) |
| Fisher.HalfWidth | lib/src/Uncertainty/Algorithm/Sensitivity/MartinezSensitivityAlgorithm.cxx:171-172 | The z-space half-width `t / sqrt(size - 3)` for `size > 3` (no contract of its own; `HalfWidthMonotone` proves it non-decreasing in t and non-negative for t >= 0) |
| Fisher.Bounds | lib/src/Uncertainty/Algorithm/Sensitivity/MartinezSensitivityAlgorithm.cxx:161-190 | The reference result of the bounds loop: the first unreadable input's error, or both boxes (no contract of its own; `FisherBounds` is proved equal to it) |
| Fisher.IntervalsFor | lib/src/Uncertainty/Algorithm/Sensitivity/MartinezSensitivityAlgorithm.cxx:148-190 | The size guard, then `Bounds` at half-width `t / sqrt(size - 3)` (no contract of its own; `IntervalsForFailure`, `IntervalsForOrdered`, `IntervalsForContainEstimate` and `IntervalsForNested` state its properties) |
| Fisher.AsymptoticIntervals | lib/src/Uncertainty/Algorithm/Sensitivity/MartinezSensitivityAlgorithm.cxx:137-191 | The intervals at the two-sided quantile `qNormal(0.5 + 0.5 * level)`, the corrected reading of line 147 (no contract of its own; `AsymptoticIntervalsSound` and `WiderAtHigherConfidence` state its properties) |
| Fisher.AsymptoticIntervalsAsWritten | lib/src/Uncertainty/Algorithm/Sensitivity/MartinezSensitivityAlgorithm.cxx:147 | The intervals at `qNormal(1 - 0.5 * level)`, as line 147 is written (no contract of its own; `AsWrittenCollapsesAtFullConfidence` and `AsWrittenNarrowerAtHigherConfidence` state its properties) |
| Fisher.TanhInvertsFisher | lib/src/Uncertainty/Algorithm/Sensitivity/MartinezSensitivityAlgorithm.cxx:169-172 | tanh undoes the Fisher transform on (-1, 1) |
| Fisher.HalfWidthMonotone | lib/src/Uncertainty/Algorithm/Sensitivity/MartinezSensitivityAlgorithm.cxx:171-172 | `t / sqrt(size - 3)` grows with t and is non-negative for t >= 0 |
| Fisher.IntervalsForFailure | lib/src/Uncertainty/Algorithm/Sensitivity/MartinezSensitivityAlgorithm.cxx:149-151 | The intervals fail exactly when `size <= 3` or some index cannot be read as a correlation (outside [-1, 1]), and with `size <= 3` the error is the sample-size one |
| Fisher.IntervalsForOrdered | lib/src/Uncertainty/Algorithm/Sensitivity/MartinezSensitivityAlgorithm.cxx:154-190 | For t >= 0 both intervals have dimension `inputDimension` and lower <= upper in every range |
| Fisher.IntervalsForContainEstimate | lib/src/Uncertainty/Algorithm/Sensitivity/MartinezSensitivityAlgorithm.cxx:167-186 | For t >= 0 each interval contains its point estimate |
| Fisher.IntervalsForNested | lib/src/Uncertainty/Algorithm/Sensitivity/MartinezSensitivityAlgorithm.cxx:171-186 | A larger quantile gives intervals that contain those of a smaller one |
| Fisher.AsymptoticIntervalsSound | lib/src/Uncertainty/Algorithm/Sensitivity/MartinezSensitivityAlgorithm.cxx:137-191 | At a confidence level in [0, 1] the asymptotic intervals are ordered, have dimension `inputDimension` and contain the estimates |
| Fisher.WiderAtHigherConfidence | lib/src/Uncertainty/Algorithm/Sensitivity/MartinezSensitivityAlgorithm.cxx:147 | With the two-sided quantile, a higher confidence level never gives a narrower interval |
| Fisher.AsWrittenCollapsesAtFullConfidence | lib/src/Uncertainty/Algorithm/Sensitivity/MartinezSensitivityAlgorithm.cxx:147 | With the quantile level as written, at confidence level 1 both intervals collapse onto their point estimates |
| Fisher.AsWrittenNarrowerAtHigherConfidence | lib/src/Uncertainty/Algorithm/Sensitivity/MartinezSensitivityAlgorithm.cxx:147 | With the quantile level as written, a higher confidence level never gives a wider interval |
| ResultCache.RefreshKeepsConsistent | lib/src/Uncertainty/Algorithm/Sensitivity/MartinezSensitivityAlgorithm.cxx:197-212 | Every accessor call stores the configured flag and keeps the cached asymptotic intervals equal to the asymptotic result |
| ResultCache.RefreshAnswersFresh | lib/src/Uncertainty/Algorithm/Sensitivity/MartinezSensitivityAlgorithm.cxx:195-213 | From a consistent cache, an accessor call yields the asymptotic intervals (or their error) under the flag and the resampled ones otherwise, whatever was cached |
| ResultCache.FlagChangeDiscardsCache | lib/src/Uncertainty/Algorithm/Sensitivity/MartinezSensitivityAlgorithm.cxx:197-202 | A flag different from the stored one makes the call behave as on an empty cache, and on the asymptotic path it computes |
| ResultCache.SameFlagKeepsCache | lib/src/Uncertainty/Algorithm/Sensitivity/MartinezSensitivityAlgorithm.cxx:197 | With the stored flag unchanged, nothing is discarded |
| ResultCache.RefreshIdempotent | lib/src/Uncertainty/Algorithm/Sensitivity/MartinezSensitivityAlgorithm.cxx:140 | Under the asymptotic flag a second call changes nothing and gives the same error; after a successful computation with at least one input it does not compute again |
| ResultCache.ResampledPathStoresEachResult | lib/src/Uncertainty/Algorithm/Sensitivity/MartinezSensitivityAlgorithm.cxx:207-211 | Without the flag every call stores the resampled pair it is given, whatever was cached, with no error and no asymptotic computation |
| ResultCache.ResampledPathNotCached | lib/src/Uncertainty/Algorithm/Sensitivity/MartinezSensitivityAlgorithm.cxx:207-211 | Nothing is cached on the resampling path: two calls with different resamples leave different caches |
| ResultCache.Invalidate | lib/src/Uncertainty/Algorithm/Sensitivity/MartinezSensitivityAlgorithm.cxx:197-202 | The flag check at the head of both accessors: stores the configured flag and empties both intervals when it differs from the stored one (no contract of its own; `FlagChangeDiscardsCache` and `SameFlagKeepsCache` state its properties) |
| ResultCache.AsymptoticStep | lib/src/Uncertainty/Algorithm/Sensitivity/MartinezSensitivityAlgorithm.cxx:140-190 | The cache step of computeAsymptoticInterval: unchanged when a first-order interval is present, otherwise both intervals stored or the error reported with the cache unchanged (no contract of its own; `ComputeAsymptoticInterval` is proved to make exactly this step, and `RefreshKeepsConsistent` and `RefreshIdempotent` state its properties) |
| ResultCache.Refresh | lib/src/Uncertainty/Algorithm/Sensitivity/MartinezSensitivityAlgorithm.cxx:197-211 | One accessor call: invalidation, then the asymptotic step or the resampled pair (no contract of its own; `Update` is proved to make exactly this transition, and `RefreshAnswersFresh` states that it never changes an answer) |

## Findings

| source | as written | input that shows it | evidently intended | confidence | as-written member | corrected member |
|---|---|---|---|---|---|---|
| lib/src/Uncertainty/Algorithm/Sensitivity/MartinezSensitivityAlgorithm.cxx:147 | `t = qNormal(1 - 0.5 * confidenceLevel)`, which is about 0.063 at level 0.95 and 0 at level 1 | `confidenceLevel = 1` with `size >= 4` and indices in the domain: both intervals collapse to the point estimates, and raising the level narrows them | the two-sided quantile `qNormal(0.5 + 0.5 * confidenceLevel)`, about 1.96 at level 0.95 | not executed | Fisher.AsWrittenCollapsesAtFullConfidence | Fisher.WiderAtHigherConfidence |

The class uses the corrected level (`Fisher.QuantileLevel`). The level as
written is kept as `Fisher.QuantileLevelAsWritten` and
`Fisher.AsymptoticIntervalsAsWritten`.

## Left out

- Martinez.MartinezSensitivityAlgorithm.ComputeIndices: with at least one input, returns `DegenerateBlock` for the whole computation where a component standard deviation of B or E_p is zero. The source's result there depends on the `Sample` operator `/=` (lines 100 and 109), whose class is not part of this model. There are two readings:
  - If `/=` throws on a zero component, the source fails as a whole, as the model does.
  - If it divides componentwise under IEEE rules, only the affected entries become NaN, and the model does not return those partly finite matrices. A constant component q of B makes only `varianceI[q][p]` NaN, for every p, since `VTi` (line 120) never reads `yB`. A constant component q of E_p makes `varianceI[q][p]` and `VTi[q][p]` NaN.
- Martinez.MartinezSensitivityAlgorithm.ComputeIndices: with at least one input and `size < 2`, returns `SampleTooSmall`. The source divides by `size - 1.0 = 0` for `size == 1`, and its behaviour on an empty block depends on the `Sample` class, which is not part of this model.
- Martinez.MartinezSensitivityAlgorithm.ComputeIndices: with no input, returns two empty matrices for any `size` and whatever block B holds. The source still computes the statistics of A and B and runs `yB /= sigmaB` (lines 89-100) before its empty loop. If the `Sample` class throws there (on an empty block, or on a zero component of `sigmaB`), the source fails where the model succeeds. That class is not part of this model.
- Martinez.MartinezSensitivityAlgorithm.ComputeAsymptoticInterval: returns `CorrelationOutOfDomain(p)` and stores nothing where an index lies outside [-1, 1]. There the source takes the logarithm of a negative number and stores NaN bounds. Indices of exactly 1 or -1 (a total-order index of exactly 0 or 2) get the source's single-point range.
- Martinez.MartinezSensitivityAlgorithm.ComputeAsymptoticInterval: uses the corrected quantile level, not the one on line 147 (see Findings).
- Floating point: all arithmetic is over mathematical reals, with no rounding.
- `log`, `tanh`, `sqrt`, `qNormal`: uninterpreted functions. The model assumes only that `sqrt` is the non-negative square root, that `tanh` is non-decreasing and inverts half the logarithm, and that `qNormal` is non-decreasing with median 0.
- `computeStandardDeviationPerComponent`: taken as the square root of the unbiased (n - 1) variance, because the `Sample` class is not part of this model.
- `computeSumDotSamples`: a plain per-component dot product, because its base-class body is not part of this model.
- Base-class inputs (the aggregated first- and total-order indices, `referenceVariance_`, `confidenceLevel_`, the designs' dimensions and `size_`): constant fields of the class, because the base class is not part of this model.
- The resampling computation (`computeIndicesInterval`): its result is a parameter (`resampled`) to each accessor, because the bootstrap lives in the base class.
- `ResourceMap::GetAsBool("MartinezSensitivityAlgorithm-UseAsymptoticInterval")`: the `configured` parameter of the constructor and the accessors, because the global configuration store is outside the class.
- `Interval()`: modelled as the interval of dimension 0, which is what the early-return test on line 140 relies on. `Interval.hxx` is not part of this model.
- The constructors from a distribution and model and from an experiment and model (lines 52-70): they draw and evaluate samples in the base class.
- `clone`, `__repr__`, `save` and `load`: copying, printing and persistence, with no behaviour of the estimator.
- The default constructor (lines 33-39): covered by the single constructor with empty designs, since it differs only in the designs it passes to the base class.
- Thread safety of the `mutable` cache fields, and any parallel evaluation of the loops.
- The evaluation order of `t` before the size check on line 149: it is unobservable without IEEE exceptions.
- An infinite quantile (`qNormal(1)` at confidence level 1 with the corrected level): `qNormal` is a function to the reals here, so infinite half-widths are not modelled.
