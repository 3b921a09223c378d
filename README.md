# Histogram visualizer: accumulator, scheduler, downsampler and statistics

A model of the `HistogramVisualizer` browser class in `code.js`, with the drawing and
DOM work taken out. The class draws uniform random integers from 1 to 100. It keeps a
100-bin histogram and the running aggregates of the samples, and it plots the running
mean. What is left is four pieces of logic:

- **Sample accumulator** (`aggregates.dfy`, plus `ResetState` and `GenerateNumber` in
  `visualizer.dfy`). It holds the histogram `data`, `sum`, `count`, `sumOfSquares`, and
  `averages`, which gets one running mean per sample. A ghost history `drawn` records
  the bin of every sample since the last reset. The predicate `Aggregates.Accumulates`
  ties the fields to that history:
  - bin i holds the number of draws of i;
  - `count`, `sum` and `sumOfSquares` are the 0th, 1st and 2nd moments Σ (i+1)^p·data[i]
    of the histogram;
  - `sum` is also the sum of the drawn values;
  - `averages[k]` is the mean of the first k+1 samples.
  `ResetState` establishes the invariant and `GenerateNumber` preserves it.
- **Frame scheduler** (`scheduling.dfy`, plus `AnimationLoop`, `StartAnimation`,
  `StopAnimation` and `HandleRunClick`). Each frame computes a target sample count from
  the elapsed time and the interval. It caps the batch at 100 samples, or at
  `totalFrames` when the interval is 0, and generates samples until the batch or the run
  is done. `Scheduling.TargetFrames`, `PerFrameCap` and `FramesToProcess` are the
  frame's target, cap and batch request. `Scheduling.BatchSize` is the specification of
  the batch actually generated. The imperative loop in `ProcessFrames` is proved against
  it. Two caller scenarios in `visualizer.dfy` check the scheduler on concrete runs:
  - `ImmediateRun`: with interval 0, a run of 500 samples completes in the frame that
    starts it.
  - `PacedRun`: with a 10 ms interval, a frame 55 ms into a run of 1000 samples brings
    it to 5 samples, still running.
- **Trend downsampler** (`downsampling.dfy`). A series no longer than the threshold is
  plotted whole. Above the threshold, only indices that are multiples of
  ⌈len / maxPoints⌉ are kept, plus the final index.
- **Statistics** (`statistics.dfy`, plus `CalculateStatistics`). There is no result
  before the first sample. After that it gives the mean, the variance from the moments,
  and a chi-squared statistic against the uniform expected count `count / 100`. The
  statistics are computed over exact reals. The variance computed from the moments is
  proved to be the population variance, the mean squared deviation of the samples from
  their mean. It is never negative, which is a Cauchy–Schwarz inequality on the
  histogram's moments. `FiveSampleVariance` checks the formula on one sample each of 1
  to 5: mean 3, variance 2.

Host inputs are parameters:
- the random bin index of `generateNumber` is `value`;
- the bin of a run's k-th sample is `draw(k)`;
- the clock readings of `performance.now()` are `now` and `loopNow`;
- the interval read from the page on every frame is `interval`.

Two facts about the program that bear on what is proved:
- Above the threshold the program keeps at most `maxPoints + 1` points and can keep fewer
  than `maxPoints`. With the program's constants it never keeps fewer than 911 points, the
  count at 10001 means (stride 11). The model proves the upper bound only.
- The program does not clamp the variance before `Math.sqrt`. Over exact reals the
  variance cannot be negative, so a clamp would only matter for floating-point rounding,
  which is not modelled.

## Model

| member | source | states |
|---|---|---|
| Aggregates.MomentOfEmptyHistogram | code.js:68 | every moment of an all-zero histogram is 0 |
| Aggregates.MomentIncrement | code.js:85-89 | adding one sample to bin v raises the p-th moment by exactly (v+1)^p, so `count`, `sum` and `sumOfSquares` track Σ data[i], Σ (i+1)·data[i] and Σ (i+1)²·data[i] |
| Aggregates.AppendDraw | code.js:85-90 | one more draw adds one to its own bin's count only, adds its value to the value sum, and leaves every earlier running mean unchanged |
| Aggregates.EmptyAccumulates | code.js:67-72 | an all-zero histogram with zero aggregates and no running means describes the empty draw history |
| Aggregates.AccumulateStep | code.js:81-91 | one update (bin +1, sum += v+1, sumOfSquares += (v+1)², count +1, running mean appended) keeps the accumulator equal to the aggregates of the draw history extended by v |
| Statistics.ChiTerm | code.js:281-282 | each chi-squared term is non-negative for a positive expected count |
| Statistics.ChiSquared | code.js:280-282 | the reduce over the bins is non-negative, at least every single bin's term, and 0 when every bin equals the expected count |
| Statistics.Calculate | code.js:268-282 | no result exactly when count is 0; otherwise mean·count = sum, and chi-squared is non-negative and bounds every bin's term at expected count/100; its variance is `Statistics.Variance` (sumOfSquares/count − mean², code.js:276), whose value VarianceIsMeanSquaredDeviation gives and whose sign VarianceFromMoments and VarianceNonNegative give |
| Statistics.ScaledDeviationMoments | code.js:276 | Σ data[i]·(a·(i+1) − b)² equals a²·sumOfSquares − 2ab·sum + b²·count for the histogram's moments, for every a and b |
| Statistics.ScaledAtMean | code.js:276 | at a = count and b = sum, that deviation sum is count·(count·sumOfSquares − sum²) |
| Statistics.VarianceScaled | code.js:273-276 | the variance formula equals dev / count³ whenever dev = count·(count·sumOfSquares − sum²) |
| Statistics.VarianceIsMeanSquaredDeviation | code.js:273-276 | the variance computed from a non-empty histogram's moments is Σ data[i]·(count·(i+1) − sum)² / count³, i.e. the mean over the samples of ((i+1) − mean)², the population variance |
| Statistics.FiveSampleVariance | code.js:273-276 | one sample each of 1 to 5 gives mean 3 and variance 2 |
| Statistics.DeviationNonNegative | code.js:276 | Σ data[i]·((i+1) − x)² ≥ 0, written with the histogram's moments |
| Statistics.MomentInequality | code.js:276 | count·sumOfSquares ≥ sum² for any histogram with non-negative bins (Cauchy–Schwarz) |
| Statistics.VarianceFromMoments | code.js:273-276 | the variance sumOfSquares/count − (sum/count)² is ≥ 0 whenever count·sumOfSquares ≥ sum² |
| Statistics.VarianceNonNegative | code.js:273-276 | the variance computed from a non-empty histogram's moments is never negative |
| Statistics.ChiSquaredAppend | code.js:281-282 | the chi-squared reduce over a concatenation is the sum of the two reduces |
| Statistics.ChiSquaredPermutation | code.js:281-282 | the chi-squared statistic does not depend on the order of the bins |
| Downsampling.Stride | code.js:117 | the sample interval is the least k with len ≤ k·maxPoints, i.e. ⌈len / maxPoints⌉ |
| Downsampling.KeptIndices | code.js:118 | the kept indices, in strictly increasing order, are exactly those that pass `Downsampling.Kept`, the filter's test (a multiple of the stride or the final index) |
| Downsampling.KeptBounds | code.js:117-118 | above the threshold the first and final indices are kept, and at most maxPoints + 1 indices are kept |
| Downsampling.Downsample | code.js:114-121 | a series within the threshold is returned unchanged; above it, at most maxPoints + 1 points remain; the first and final points are always kept |
| Downsampling.DownsampleSelects | code.js:116-118 | above the threshold the result is, in order, exactly the elements at the kept indices, and an index is kept if and only if it is a multiple of the stride or the final index |
| Scheduling.BatchSize | code.js:205-220 | built on TargetFrames (floor of elapsed / interval, or totalFrames at interval 0), PerFrameCap (100, or totalFrames at interval 0) and FramesToProcess (their min against framesProcessed): a frame never lowers framesProcessed and never takes it past totalFrames; it adds at most max(0, min(target − framesProcessed, cap)) samples, at most 100 when the interval is not 0, and stops short of the cap only on reaching the target or the run's end; with interval 0 it completes the run |
| Visualizer.HistogramVisualizer.constructor | code.js:2-31 | a fresh visualizer has an all-zero histogram, zero aggregates, no running means and no run in progress |
| Visualizer.HistogramVisualizer.ResetState | code.js:67-74 | all 100 bins become 0, sum, count and sumOfSquares become 0 and averages empty; the accumulator invariant holds and the scheduler fields are unchanged |
| Visualizer.HistogramVisualizer.GenerateNumber | code.js:81-91 | bin v goes up by exactly 1 and no other bin changes; sum grows by v+1, sumOfSquares by (v+1)², count by 1; exactly one running mean, the new sum/count, is appended; the accumulator invariant is kept |
| Visualizer.HistogramVisualizer.GenerateFrame | code.js:217-219 | one loop iteration draws one sample and counts it in framesProcessed, keeping framesProcessed equal to count |
| Visualizer.HistogramVisualizer.ProcessFrames | code.js:216-220 | the for loop with its break adds exactly min(framesToProcess, totalFrames − framesProcessed) samples (none if that is negative), each drawn in order, and keeps the accumulator invariant |
| Visualizer.HistogramVisualizer.AnimationLoop | code.js:196-236 | a frame outside a run changes nothing; inside a run it adds exactly BatchSize samples for the elapsed time and interval, records the interval, and the run stays in progress exactly while framesProcessed < totalFrames |
| Visualizer.HistogramVisualizer.StopAnimation | code.js:238-239 | the run is no longer in progress |
| Visualizer.HistogramVisualizer.BeginRun | code.js:179-190 | the accumulator is reset and a run of totalNumbers samples starts at the given clock reading with nothing processed |
| Visualizer.HistogramVisualizer.StartAnimation | code.js:176-194 | a no-op while a run is in progress; otherwise a fresh run whose first frame leaves framesProcessed = count = BatchSize for the elapsed time, with the run in progress exactly while samples remain |
| Visualizer.HistogramVisualizer.HandleRunClick | code.js:252-266 | a click during a run stops it and changes nothing else; otherwise a sample count ≤ 0 or a negative interval is rejected with no change, and valid input starts a run |
| Visualizer.HistogramVisualizer.CalculateStatistics | code.js:268-282 | no result exactly when count is 0; otherwise the mean is the latest running mean, the variance is the population variance of the samples (Σ data[i]·(count·(i+1) − sum)² / count³), and the variance and chi-squared are non-negative |
| Visualizer.HistogramVisualizer.PlotPoints | code.js:111-121 | the plotted series never has more than 10000 points nor more than there are running means, and it ends with the current mean whenever there is one |

## Left out

- Canvas drawing (`drawHistogram`, the plotting part of `drawLineChart`, `clearCanvases`,
  `setupCanvases`) is presentation only.
- DOM lookups and event wiring (`initElements`, `bindEvents`, `updateCounter`,
  `updateMetrics`, `alert`, the button text and loader style) have no logical content
  beyond what the model keeps.
- `requestAnimationFrame` and `cancelAnimationFrame`, with the `animationId` field: the
  next frame is a further call of `AnimationLoop` made while `isAnimating` is still true.
- `performance.now()` is a host clock. `StartAnimation` takes its two readings, at the
  start of the run and in the first frame, as the parameters `now` and `loopNow`.
- `Math.random` is a foreign random source. `GenerateNumber` takes the bin index as
  `value`, and a run takes the bin of its k-th sample as `draw(k)`.
- The interval that `animationLoop` re-reads from the page on each frame is a parameter
  of `AnimationLoop`. The sample count and interval read by `handleRunClick` are
  parameters. Fractional or non-numeric page input is not modelled: both are integers.
- `Math.sqrt`, the standard deviation, the confidence interval, `toFixed` formatting and
  the try/catch are floating-point or formatting concerns. The model stops at the
  variance.
- JavaScript numbers are doubles. Counts and sums are unbounded integers here, and the
  means, variance and chi-squared statistic are exact reals, so rounding and the 2^53
  limit are not modelled.
- `animate` is never called in the file. The `paused` field and the colour and canvas
  configuration are never used by the modelled logic.
- `totalFrames` and `startTime` are unset until the first run. The model starts them at 0.
- Statistics.ChiSquared: does not state that a zero statistic means every bin equals the
  expected count, only the converse, because that needs non-linear real reasoning the
  solver does not settle.
- Visualizer.HistogramVisualizer.CalculateStatistics: the `!this.data` guard is left
  out, because the histogram always exists in the model.
