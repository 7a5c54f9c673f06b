# Sea sedimenter statistics core, in Dafny

The app weighs a sample on a kitchen scale twice, as a base and a final
weighing, and reports the loss ratio `(Wb - Wf) / Wb` with a 95% band. It
first estimates the scale's bias from tare readings. Every reading is then
corrected by that bias. The corrected values of a session are trimmed, and
the session gets a central value and an uncertainty. Finally the two sessions
are combined. The repository holds two generations of this pipeline side by
side, and both are modelled here:

- The newer generation lives under `src/`:
  - `src/utils/math.ts`: mean, median, standard deviation and the
    least-squares fit of the tare reading against vertical acceleration.
  - `src/utils/kFactor.ts`: the t-factor keyed by degrees of freedom.
  - `src/session/TareManager.ts`: a basic or regression tare model.
  - `src/session/MeasurementSession.ts`: a session that corrects each
    reading by the model in force when it was taken.
- The older generation:
  - `utils/kFactor.ts`: the k-factor keyed by sample count.
  - `session/TareManager.ts`: the half-range tare estimate.
  - `session/ManualSessionManager.ts` and `session/SimpleMeasurementManager.ts`:
    the readings of a session under locked bias and T95.
  - `measurement/SessionCalculator.ts` and `measurement/SimpleMeasurementCalculator.ts`:
    the session results.
  - `measurement/RatioCalculator.ts`: the ratio.

How the source maps onto the model:

- **Pure code** becomes datatypes, functions and lemmas. This covers the
  statistics, the table lookups, the calculators and the ratio.
- **Objects whose fields change** become classes. These are the tare
  managers, the session and the two managers. Their list fields are `seq`
  fields, and every method states its whole new state.
- **Loops** become methods proved against a closed-form function:
  - the two accumulation loops of `fitTareRegression`;
  - the table scans of `getTFactor95` and `getKFactor`.

The lemmas then state what the source promises about those functions.

Conventions of the model:

- Numbers are `real`. `Math.sqrt` is a parameter `sqrt` with the promise
  `IsSqrt(sqrt)`: for x ≥ 0, sqrt(x) ≥ 0 and sqrt(x)² = x.
- NaN appears only where the source filters or produces it, as the datatype
  `Num`.
- Ids and timestamps (`crypto.randomUUID()`, `Date.now()`) are parameters of
  the add operations.
- The t-table is the constant `TTable.T_TABLE`. Both generations declare the
  same sixteen anchors. The lookups and their lemmas are stated for every
  table of the same shape (`TTable.Shaped`), and `TTable.TableShaped` shows
  that `T_TABLE` has it.

Where the generations compute the same quantity, module `Generations` proves
how far they agree:

- The two t-lookups agree from two samples on, except at n = 61. There the
  older lookup already answers 1.96 (it tests `n > 60`). The newer one still
  answers 2.042 (it tests `df > 60`).
- Below two samples the older lookup answers its placeholder 2.0. The newer
  one answers 12.706.
- The half-range tare of both generations is a quarter of the range of the
  readings:
  - the newer generation stores it as the model's 1-sigma tare;
  - the older one stores T95 = range/2 and halves it again in the
    calculators.

Behaviour of the code worth knowing:

- `buildModel` fits the regression over the readings that have a snapshot,
  as soon as at least three do and their `az` values are not all equal;
  readings without one are left unadjusted.
- With no readings, `buildModel` returns method `basic` with `isReady`
  false and everything else zero.
- `MeasurementSession.calculateResult` filters nothing. It divides by √n from
  one kept value on and attaches no notes.
- The tail rule of `getTFactor95` tests the degrees of freedom: it answers
  1.96 only when `df > 60`.
- `RatioCalculator` takes its k95 from the older n-keyed `getKFactor`.
- `r2` is NaN when the readings have no spread; `1 - 0/0` is NaN in
  JavaScript.

## Model

| member | source | states |
|---|---|---|
| Sorting.SortAsc | src/utils/math.ts:10 | the ascending copy is sorted and a permutation of the input, of the same length |
| Sorting.SortPermutationInvariant | src/utils/math.ts:10 | two lists with the same multiset of values sort to the same list |
| Sorting.SortOfSorted | src/utils/math.ts:10 | sorting an ascending list gives it back |
| Sorting.SortedEnds | session/TareManager.ts:58-59 | the first and last sorted values are the minimum and maximum of the list |
| Sorting.Min | src/session/TareManager.ts:87 | `Math.min(...values)` is a member of the list and at most every value |
| Sorting.Max | src/session/TareManager.ts:88 | `Math.max(...values)` is a member of the list and at least every value |
| MathUtils.CalculateMean | src/utils/math.ts:3-6 | defines the mean: 0 for an empty list, else the left-to-right sum over the length; `MeanBounds` states where it lies |
| MathUtils.MeanBounds | src/utils/math.ts:3-6 | the mean of a non-empty list lies between its least and greatest value |
| MathUtils.MedianOfSorted | src/utils/math.ts:11-12 | 0 for none; on a sorted list it lies between the ends; for an odd length it is one of the values |
| MathUtils.CalculateMedian | src/utils/math.ts:8-13 | 0 for an empty list, else between min and max; for an odd length it is one of the values |
| MathUtils.MedianOrderInvariant | src/utils/math.ts:10 | the median depends only on the multiset of values |
| MathUtils.MedianOfSortedInput | src/utils/math.ts:10-12 | on an ascending list the median is the middle rule applied directly |
| MathUtils.CalculateStdDev | src/utils/math.ts:15-19 | 0 below two values; otherwise the non-negative root with stdDev² = Σ(v − mean)²/(n − 1) |
| MathUtils.WithSnapshot | src/utils/math.ts:26 | keeps no more samples than given, each with a snapshot |
| MathUtils.WithSnapshotAppend | src/utils/math.ts:26 | the filter distributes over concatenation and keeps a single sample exactly when it has a snapshot, so each such sample is kept once, in order |
| MathUtils.WithSnapshotMembers | src/utils/math.ts:26 | a sample is kept exactly when it is given and has a snapshot |
| MathUtils.Values | src/utils/math.ts:29 | the reading of each kept sample, in order |
| MathUtils.Azs | src/utils/math.ts:30 | the vertical acceleration of each kept sample, in order |
| MathUtils.FitSpecNone | src/utils/math.ts:22-44 | no fit exactly when there are fewer than 3 samples, fewer than 3 with a snapshot, or Σ(z − meanZ)² = 0 |
| MathUtils.FitSpec | src/utils/math.ts:22-62 | defines what `fitTareRegression` returns; `FitSpecNone`, `FitLineProperties` and `SlopedLine` state its promises |
| MathUtils.FitLine | src/utils/math.ts:32-62 | defines the least-squares fit of the pairs; `FitLineNone` and `FitLineProperties` state its promises |
| MathUtils.FitLineNone | src/utils/math.ts:44 | the fit of the pairs is missing exactly when the accelerations have no spread |
| MathUtils.FitLineProperties | src/utils/math.ts:44-47 | a fit has a non-zero spread of z, slope `Slope`(Σdz·dt, Σdz²), and is the line of that slope through the means |
| MathUtils.Slope | src/utils/math.ts:46 | the slope k = Σdz·dt / Σdz² solves the normal equation k·Σdz² = Σdz·dt |
| MathUtils.SlopedLine | src/utils/math.ts:46-60 | the line passes through (meanZ, meanT); sigmaEps ≥ 0 with sigmaEps² = SSres/(n − 2); r2 is NaN exactly when SStot = 0, else 1 − SSres/SStot |
| MathUtils.ResidualsFit | src/utils/math.ts:59-60 | sigmaEps is the non-negative root of SSres/(n − 2); r2 is 1 − SSres/SStot, NaN exactly when SStot = 0 |
| MathUtils.AccumulateDeviations | src/utils/math.ts:35-42 | the first loop sums Σ(z − meanZ)(t − meanT) and Σ(z − meanZ)² over all pairs |
| MathUtils.AccumulateResiduals | src/utils/math.ts:50-57 | the second loop sums the squared residuals of the line and Σ(t − meanT)² over all pairs |
| MathUtils.FitTareRegression | src/utils/math.ts:22-30 | the result is the fit of `FitSpec`: null for too few samples or too few with a snapshot, else the fit of those with one |
| MathUtils.FitPairs | src/utils/math.ts:32-62 | means, both loops, slope, intercept, sigmaEps and r2 give the least-squares line of `FitLine` |
| TTable.TableShaped | src/utils/kFactor.ts:3-8 | the sixteen anchors start at (1, 12.706), reach (30, 2.042) and end at (∞, 1.96); df climbs by at least one and t never increases |
| TTable.TRange | utils/kFactor.ts:4-9 | every t-value of a table of that shape lies in [1.96, 12.706] |
| TTable.LerpEnds | src/utils/kFactor.ts:33-34 | the interpolation meets both anchors of its bracket exactly |
| TTable.LerpBetween | src/utils/kFactor.ts:33-34 | inside a bracket the interpolation lies between the two t-values |
| TTable.LerpMonotone | src/utils/kFactor.ts:33-34 | with falling t-values the interpolation never rises with df |
| TTable.Locate | src/utils/kFactor.ts:18-36 | the bracket the scan settles on: its upper anchor is at or above df, or it is the last one |
| TTable.LocateMonotone | utils/kFactor.ts:16-32 | a larger df never settles on an earlier bracket |
| TTable.LocatedBracket | utils/kFactor.ts:20 | from df 1 on, the settled bracket holds df at both ends inclusive |
| SrcKFactor.GetTFactor95 | src/utils/kFactor.ts:14-39 | the pairwise scan returns the closed form `TFactor95` of the table |
| SrcKFactor.TFactor95 | src/utils/kFactor.ts:14-39 | defines the answer of `getTFactor95` on a table: 12.706 below df 1, else the rule of the settled bracket; the `TFactor95…` lemmas state its promises |
| SrcKFactor.ScanStep | src/utils/kFactor.ts:18-25 | before the settled bracket none of the three tests fires, and on it one does |
| SrcKFactor.BracketAnswer | src/utils/kFactor.ts:22-34 | what each exit on the settled bracket returns: exact anchor, tail rule or interpolation |
| SrcKFactor.BracketIsSegment | src/utils/kFactor.ts:22-34 | inside a finite bracket the exact-match exits agree with the interpolation |
| SrcKFactor.TFactor95Range | src/utils/kFactor.ts:14-39 | every answer lies in [1.96, 12.706]; below df 1 it is 12.706 |
| SrcKFactor.TFactor95Monotone | src/utils/kFactor.ts:14-39 | more degrees of freedom never give a larger t-factor |
| SrcKFactor.TFactor95AtAnchor | src/utils/kFactor.ts:22-23 | at every finite anchor the anchor's t-value is returned exactly |
| SrcKFactor.TFactor95Interpolates | src/utils/kFactor.ts:25-34 | between two finite anchors the answer is tLow + (df − dfLow)/(dfHigh − dfLow)·(tHigh − tLow) |
| SrcKFactor.TFactor95Tail | src/utils/kFactor.ts:26-29 | above df 30 the answer is 1.96 when df > 60, else 2.042, with no interpolation |
| SrcKFactor.GetKFactorFromN | src/utils/kFactor.ts:41-43 | defines `getKFactorFromN`: the t-factor of max(1, n − 1) degrees of freedom on `T_TABLE`; `KFactorFromFewSamples` and `KFactorFromNMonotone` state its promises |
| SrcKFactor.KFactorFromFewSamples | src/utils/kFactor.ts:41-43 | n ≤ 2 gives 12.706 |
| SrcKFactor.KFactorFromNMonotone | src/utils/kFactor.ts:41-43 | the factor for n samples lies in [1.96, 12.706] and never grows with n |
| RootKFactor.GetKFactor | utils/kFactor.ts:11-35 | the pairwise scan returns the closed form `KFactor` of the table |
| RootKFactor.KFactor | utils/kFactor.ts:11-35 | defines the answer of `getKFactor` on a table: 2.0 for n ≤ 1, else the rule of the bracket df = n − 1 settles on; the `KFactor…` lemmas state its promises |
| RootKFactor.ScanStep | utils/kFactor.ts:16-20 | the inclusive bracket test fails before the settled bracket and holds on it |
| RootKFactor.BracketAnswer | utils/kFactor.ts:20-30 | what the exit on the settled bracket returns: the tail rule or the interpolation |
| RootKFactor.KFactorSingleSample | utils/kFactor.ts:12 | n ≤ 1 gives the placeholder 2.0 |
| RootKFactor.LocatedBounds | utils/kFactor.ts:20-30 | from two samples on, the answer lies between the t-values of its bracket |
| RootKFactor.KFactorRange | utils/kFactor.ts:16-31 | from two samples on, every answer lies in [1.96, 12.706] |
| RootKFactor.KFactorMonotone | utils/kFactor.ts:16-31 | from two samples on, more samples never give a larger factor |
| RootKFactor.KFactorAtAnchor | utils/kFactor.ts:13-30 | a count one above a finite anchor gets that anchor's t-value exactly |
| RootKFactor.KFactorInterpolates | utils/kFactor.ts:29-30 | between two finite anchors the answer is the linear interpolation |
| RootKFactor.KFactorTail | utils/kFactor.ts:21-26 | for n > 31 the answer is 1.96 when n > 60, else 2.042 |
| RootKFactor.TableKFactor | utils/kFactor.ts:11-35 | `KFactor` on `T_TABLE`; `TableKFactorRange` and `TableKFactorSteps` state its promises |
| RootKFactor.TableKFactorRange | utils/kFactor.ts:11-35 | on the table every factor, the placeholder included, lies in [1.96, 12.706] |
| RootKFactor.TableKFactorSteps | utils/kFactor.ts:12 | from two samples on the factor never grows, but it jumps from 2.0 at n = 1 to 12.706 at n = 2 |
| IdList.Without | src/session/TareManager.ts:25 | a record is kept exactly when it was there and its id differs |
| IdList.WithoutAppend | session/TareManager.ts:21 | removal distributes over concatenation, so the kept records stay in their order |
| IdList.WithoutAbsent | session/ManualSessionManager.ts:34 | removing an id nobody has leaves the list as it is |
| IdList.WithoutIdempotent | session/SimpleMeasurementManager.ts:33 | removing the same id twice removes nothing more |
| IdList.AddThenRemove | session/TareManager.ts:10-22 | appending under a fresh id and removing that id restores the list |
| Trimming.SliceIndex | src/session/MeasurementSession.ts:42 | a `slice` index is clamped to [0, n], and an index in range is itself |
| Trimming.JsSlice | src/session/MeasurementSession.ts:42 | `slice` never returns more values than the list has |
| Trimming.TrimCount | src/session/MeasurementSession.ts:38-40 | defines the trim count: ⌊f·n⌋, reset to 0 when fewer than one value would remain; `TrimCountBounds` states its promises |
| Trimming.TrimCountBounds | src/session/MeasurementSession.ts:38-40 | for f ≥ 0 the count is ⌊f·n⌋, or 0 when that leaves nothing; it keeps at least one of a non-empty list |
| Trimming.TrimmedMiddle | src/session/MeasurementSession.ts:42-43 | a count in [0, n/2] drops exactly that many values at each end and keeps the contiguous middle |
| Trimming.TrimKeepsOne | src/session/MeasurementSession.ts:38-43 | for any fraction, negative ones included, the trim keeps at least one value of a non-empty list |
| Trimming.TrimmedIsRun | src/session/MeasurementSession.ts:42 | the kept values are a contiguous run of the list, so ascending values stay ascending |
| Trimming.DefaultTrimCount | measurement/SessionCalculator.ts:10 | with the default fraction 0.10 nothing is trimmed from fewer than ten values, and from ten on ⌊n/10⌋ ≥ 1 goes off each end |
| Trimming.GuardRedundant | measurement/SessionCalculator.ts:27-34 | for f ≥ 0 the `nValid > 2` guard changes nothing |
| Trimming.GuardMattersForNegativeFraction | measurement/SessionCalculator.ts:27-34 | for f = −0.5 and two values the guard matters: −1 without it (and `slice(-1, 3)` keeps one value), 0 with it |
| Decimal.ParseNatToString | measurement/SessionCalculator.ts:84 | the decimal digits of a count read back as the count |
| Decimal.NatToStringInjective | measurement/SessionCalculator.ts:85 | two counts print alike only when they are equal |
| RootTypes.TrimmedOutliersText | measurement/SessionCalculator.ts:84 | the trim note's text gives back the number it reports |
| RootTypes.InvalidIgnoredText | measurement/SessionCalculator.ts:85 | the invalid-value note's text gives back the number it reports |
| SessionStats.StdErrorSquare | measurement/SessionCalculator.ts:64 | the standard error is ≥ 0, and from two values on stdError²·n = stdDev² |
| SessionStats.QuadratureBounds | measurement/SessionCalculator.ts:70 | the combination in quadrature is the non-negative root of a² + b², at least \|a\| and \|b\| |
| SessionStats.BandBounds | measurement/SessionCalculator.ts:74 | a factor of at least one gives a band no narrower than the total, and a larger factor never a narrower band |
| SessionStats.KeptRun | measurement/SessionCalculator.ts:24-36 | the kept values are an ascending run of the sorted values, non-empty when those are; for f ≥ 0 exactly ⌊f·n⌋ (or 0) off each end |
| SessionStats.KeptMembers | measurement/SessionCalculator.ts:32 | every kept value is one of the values |
| SessionStats.SummaryCentral | measurement/SessionCalculator.ts:39-54 | the central value is the trimmed mean from three kept values on, the median below, 0 for none, and lies between the kept ends |
| SessionStats.CentralBounds | measurement/SessionCalculator.ts:39-50 | mean and median of an ascending non-empty list lie between its ends |
| SessionStats.SummarySpread | measurement/SessionCalculator.ts:57-64 | spread and standard error are ≥ 0 and 0 below two values; stdDev² = Σ(v − mean)²/(n − 1) and stdError²·n = stdDev² |
| SessionStats.SummaryTotal | measurement/SessionCalculator.ts:67-70 | tareSigma = T95/2; total ≥ 0 with total² = stdError² + tareSigma², so at least each of the two |
| SessionStats.Confidence | measurement/SessionCalculator.ts:77-81 | defines the confidence score of nTrim; `ConfidenceSteps` states its promises |
| SessionStats.StatsBounds | measurement/SessionCalculator.ts:24-70 | for ascending values: the central value lies between the kept ends (0 with nothing kept); stdDev, stdError ≥ 0; tareSigma = T95/2; the total covers the standard error and tareSigma |
| SessionStats.ConfidenceSteps | measurement/SessionCalculator.ts:77-81 | the score is one of 0.3, 0.5, 0.7, 0.85, 0.95, never falls with nTrim, and crosses each level exactly at 2, 3, 6 and 10 |
| SessionCalculator.ValidValues | measurement/SessionCalculator.ts:16-21 | no more values than readings, each above zero |
| SessionCalculator.ValidValuesAppend | measurement/SessionCalculator.ts:16-21 | the filter distributes over concatenation and a single reading contributes its value exactly when it is valid, so each valid reading counts once, in order |
| SessionCalculator.ValidValuesMembers | measurement/SessionCalculator.ts:16 | a value is kept exactly when some reading is not NaN, is positive and carries it |
| SessionCalculator.ValidValuesAll | measurement/SessionCalculator.ts:16-21 | nValid = nTotal exactly when every reading is valid |
| SessionCalculator.Calculate | measurement/SessionCalculator.ts:5-107 | defines the session result; `CalculatePassesInputs`, `CalculateKept`, `CalculateMeaning` and `NotesContents` state its promises, and `CalculateShape` is a proof step that unfolds it |
| SessionCalculator.CalculateMeaning | measurement/SessionCalculator.ts:39-74 | the fixed value lies between the kept ends and is positive (0 with nothing kept); stdDev, stdError ≥ 0; the total covers the standard error and tareSigma = T95/2; the band covers the total |
| SessionCalculator.DefaultCall | measurement/SessionCalculator.ts:10 | with the default trim fraction, fewer than ten valid readings are all kept, and from ten on nTrim = nValid − 2·⌊nValid/10⌋ < nValid |
| SessionCalculator.CalculatePassesInputs | measurement/SessionCalculator.ts:87-106 | kind, readings, bias, T95 and trim fraction come back unchanged; nTotal = \|measurements\|; the confidence is that of nTrim |
| SessionCalculator.CalculateKept | measurement/SessionCalculator.ts:16-36 | nTrim ≤ nValid ≤ nTotal; nTrim ≥ 1 exactly when some reading is valid; a run of the ascending values; for f ≥ 0, nTrim = nValid − 2·drop |
| SessionCalculator.KeptPositive | measurement/SessionCalculator.ts:16-34 | every kept value is above zero and the corrected value of a valid reading |
| SessionCalculator.IgnoredReadings | measurement/SessionCalculator.ts:85 | fewer valid values than readings exactly when some reading is invalid |
| SessionCalculator.NotesContents | measurement/SessionCalculator.ts:83-85 | a low-count note iff nTotal < 3; a trim note reporting 2·drop iff drop > 0; an invalid note reporting nTotal − nValid iff nValid < nTotal |
| SimpleMeasurementCalculator.FiniteValues | measurement/SimpleMeasurementCalculator.ts:15-21 | no more values than readings |
| SimpleMeasurementCalculator.FiniteValuesAppend | measurement/SimpleMeasurementCalculator.ts:15-21 | the filter distributes over concatenation and a single reading contributes its value exactly when it is not NaN, so each counts once, in order |
| SimpleMeasurementCalculator.FiniteValuesMembers | measurement/SimpleMeasurementCalculator.ts:15 | a value is kept exactly when some reading carries it as a non-NaN value, zero and negative ones included |
| SimpleMeasurementCalculator.RelativeErrorMeaning | measurement/SimpleMeasurementCalculator.ts:79 | 0 for a zero central value, else relErr·\|fixedValue\| = 100·band; never negative for a non-negative band |
| SimpleMeasurementCalculator.NotesContents | measurement/SimpleMeasurementCalculator.ts:88-93 | a low-count note iff nTotal < 3, a trim note reporting 2·drop iff drop > 0, and no invalid-value note |
| SimpleMeasurementCalculator.Calculate | measurement/SimpleMeasurementCalculator.ts:4-116 | defines the simple session result; `CalculatePassesInputs`, `CalculateKept` and `CalculateMeaning` state its promises, and `CalculateShape` is a proof step that unfolds it |
| SimpleMeasurementCalculator.CalculateMeaning | measurement/SimpleMeasurementCalculator.ts:39-79 | the fixed value lies between the kept ends (0 with nothing kept); stdDev, stdError ≥ 0; the total covers the standard error and tareSigma = T95/2; for k95 ≥ 1 the band covers the total and the relative error is ≥ 0 |
| SimpleMeasurementCalculator.DefaultCall | measurement/SimpleMeasurementCalculator.ts:8-9 | with the defaults (0.10, k95 = 2) the band is twice the total, and fewer than ten non-NaN readings are all kept |
| SimpleMeasurementCalculator.CalculatePassesInputs | measurement/SimpleMeasurementCalculator.ts:95-116 | readings, bias, T95 and trim fraction come back unchanged; measurementCount = nTotal = \|measurements\| |
| SimpleMeasurementCalculator.CalculateKept | measurement/SimpleMeasurementCalculator.ts:15-37 | nTrim ≤ nValid ≤ nTotal; nTrim ≥ 1 exactly when some reading is not NaN; a run of the ascending values; for f ≥ 0, nTrim = nValid − 2·drop |
| SimpleMeasurementCalculator.KeptFromReadings | measurement/SimpleMeasurementCalculator.ts:15-35 | every kept value is the corrected value of some non-NaN reading |
| RatioCalculator.RatioMeaning | measurement/RatioCalculator.ts:29-30 | R·Wb = Wb − Wf and R = 1 − Wf/Wb; R = 0 iff Wf = Wb; 0 ≤ Wf ≤ Wb gives R in [0, 1] |
| RatioCalculator.SigmaMeaning | measurement/RatioCalculator.ts:36-42 | sigma ≥ 0 with sigma² = term1² + term2², where term1·Wb² = Wf·σb and term2·Wb = σf |
| RatioCalculator.RelativePercentMeaning | measurement/RatioCalculator.ts:51 | absent exactly at a zero percent; otherwise relErr·\|percent\| = 100·bandPercent, ≥ 0 for a non-negative band |
| RatioCalculator.Calculate | measurement/RatioCalculator.ts:5-70 | defines the ratio result; `CalculateDegenerate`, `CalculateMeaning`, `BandCovers` and `NotesContents` state its promises, and `CalculateShape` is a proof step that unfolds it |
| RatioCalculator.CalculateMeaning | measurement/RatioCalculator.ts:29-55 | for Wb > 0: R·Wb = Wb − Wf and percent = 100·R, in [0, 100] when 0 ≤ Wf ≤ Wb; the relative error is missing exactly when Wf = Wb; nEff is the smaller kept count; the low-size note iff nEff < 3 |
| RatioCalculator.CalculateDegenerate | measurement/RatioCalculator.ts:10-26 | Wb ≤ 0 gives zeros, k95 = 2, nEff = 0 and the single base-weight note, with both sessions passed back |
| RatioCalculator.BandCovers | measurement/RatioCalculator.ts:45-49 | for Wb > 0, 0 ≤ sigma ≤ band, with a factor in [1.96, 12.706] |
| RatioCalculator.NotesContents | measurement/RatioCalculator.ts:53-55 | the low-size note is the only note and appears iff nEff < 3 |
| RootTareManager.SampleValues | session/TareManager.ts:45 | the value of each reading, in order |
| RootTareManager.EstimateOf | session/TareManager.ts:32-70 | defines the half-range estimate; the `Estimate…` lemmas state its promises |
| RootTareManager.EstimateEmpty | session/TareManager.ts:35-43 | count = \|samples\|; method `none` exactly with no readings, and then all zeros |
| RootTareManager.EstimateHalfRange | session/TareManager.ts:45-69 | bias = median within [min, max]; T95 = (max − min)/2; sigma = T95/2 ≥ 0; every reading within 2·T95 of the bias |
| RootTareManager.EstimateOrderInvariant | session/TareManager.ts:45 | the estimate depends only on the multiset of values |
| RootTareManager.EstimateSingle | session/TareManager.ts:45-69 | one reading is its own bias with no spread |
| RootTareManager.TareManager.constructor | session/TareManager.ts:6-8 | starts with a copy of the initial readings |
| RootTareManager.TareManager.AddTareSample | session/TareManager.ts:10-18 | appends exactly the new reading and returns it |
| RootTareManager.TareManager.RemoveTareSample | session/TareManager.ts:20-22 | the list without the readings of that id, in order |
| RootTareManager.TareManager.Clear | session/TareManager.ts:24-26 | no readings left |
| RootTareManager.TareManager.GetSamples | session/TareManager.ts:28-30 | a copy equal to the list |
| RootTareManager.TareManager.Estimate | session/TareManager.ts:32-70 | the middle rule and half range over the ascending values give `EstimateOf` |
| SrcTareManager.SampleValues | src/session/TareManager.ts:82 | the value of each reading, in order |
| SrcTareManager.AdjustByFitResidual | src/session/TareManager.ts:57-66 | a reading with a snapshot is adjusted to b + its residual against the line, id, value and snapshot kept; one without is untouched |
| SrcTareManager.ApplyFit | src/session/TareManager.ts:57-66 | every reading is adjusted by the fitted slope, in place and in order |
| SrcTareManager.ApplyRaw | src/session/TareManager.ts:93 | every reading's adjusted value is its raw value |
| SrcTareManager.ModelOf | src/session/TareManager.ts:33-102 | defines the model `buildModel` returns; `ModelReadiness`, `ModelUsesRegression`, `ModelRegression` and `ModelBasic` state its promises |
| SrcTareManager.AdjustedOf | src/session/TareManager.ts:57-93 | the readings as `buildModel` leaves them, one per reading; `ModelRegression`, `ModelBasic` and `AdjustedKeepsReadings` state the rest |
| SrcTareManager.ModelReadiness | src/session/TareManager.ts:37-45 | ready exactly with a reading; n counts every reading; with none: basic, bias 0, uncertainty 0 |
| SrcTareManager.ModelUsesRegression | src/session/TareManager.ts:48-51 | the regression is used exactly when enabled and the fit exists, which needs three readings with a snapshot |
| SrcTareManager.ModelRegression | src/session/TareManager.ts:48-78 | bias = b, slopeK = k, tareUncertainty = residualsSigma = sigmaEps ≥ 0, rSquared = r2; every reading adjusted by k |
| SrcTareManager.ModelBasic | src/session/TareManager.ts:82-101 | bias = median within [min, max]; 4·tareUncertainty = max − min ≥ 0; no slope, sigma or r2; adjusted = raw |
| SrcTareManager.AdjustedKeepsReadings | src/session/TareManager.ts:57-93 | `buildModel` keeps every reading's id, value and snapshot |
| SrcTareManager.TareManager.constructor | src/session/TareManager.ts:11-13 | no readings, and the regression switch as given |
| SrcTareManager.TareManager.AddSample | src/session/TareManager.ts:15-22 | appends one reading with the value and snapshot, earlier readings unchanged, and returns the new list |
| SrcTareManager.TareManager.RemoveSample | src/session/TareManager.ts:24-27 | the list without the readings of that id, in order, and returns it |
| SrcTareManager.TareManager.GetSamples | src/session/TareManager.ts:29-31 | the current readings |
| SrcTareManager.TareManager.Clear | src/session/TareManager.ts:104-106 | no readings left, switch unchanged |
| SrcTareManager.TareManager.BuildModel | src/session/TareManager.ts:33-102 | returns `ModelOf` the readings and writes back `AdjustedOf` them |
| SrcTareManager.TareManager.BuildBasic | src/session/TareManager.ts:82-101 | the basic model, with every adjusted value set to the raw value |
| SrcMeasurementSession.CorrectedMeaning | src/session/MeasurementSession.ts:8-26 | raw = adjusted + bias used; under regression with snapshot and slope, adjusted is the residual against the line; otherwise raw − bias |
| SrcMeasurementSession.AdjustedValues | src/session/MeasurementSession.ts:35 | the adjusted value of each reading, in order |
| SrcMeasurementSession.SessionKeptRun | src/session/MeasurementSession.ts:35-43 | an ascending run of the sorted values, non-empty when those are; for f ≥ 0, nTrim = n − 2·trimCount and exactly those values off each end |
| SrcMeasurementSession.ResultOf | src/session/MeasurementSession.ts:33-77 | defines the session result; `ResultShape`, `ResultCentral`, `ResultUncertainty` and `ResultBand` state its promises |
| SrcMeasurementSession.ResultUncertainty | src/session/MeasurementSession.ts:51-63 | stdDev, stdError ≥ 0 and 0 below two kept values; tareSigma is the model's uncertainty; the total covers both the standard error and tareSigma; the band covers the total |
| SrcMeasurementSession.ResultShape | src/session/MeasurementSession.ts:65-76 | the readings and the model's bias come back; nTrim counts the kept values; kFactor = getKFactorFromN(nTrim) in [1.96, 12.706] |
| SrcMeasurementSession.ResultCentral | src/session/MeasurementSession.ts:46-48 | the trimmed mean from three kept values on, else their median; 0 for none; between the least and greatest kept value |
| SrcMeasurementSession.SessionStdErrorSquare | src/session/MeasurementSession.ts:52 | 0 for no values; from one on, stdError²·n = stdDev² |
| SrcMeasurementSession.SpreadMeaning | src/session/MeasurementSession.ts:51-52 | both ≥ 0 and 0 below two values; stdDev² = Σ(v − mean)²/(n − 1); stdError²·n = stdDev² |
| SrcMeasurementSession.TotalMeaning | src/session/MeasurementSession.ts:55-58 | sigmaTotal ≥ 0 with sigmaTotal² = stdError² + tareSigma², at least each of the two |
| SrcMeasurementSession.ResultBand | src/session/MeasurementSession.ts:61-63 | errorBand95 = kFactor·sigmaTotal, never narrower than sigmaTotal |
| SrcMeasurementSession.TrimValues | src/session/MeasurementSession.ts:38-43 | the reset floor count and the slice give `SessionKept` |
| SrcMeasurementSession.SummarizeKept | src/session/MeasurementSession.ts:45-76 | the statistics of the kept values give `ResultFromTrimmed` with getKFactorFromN(nTrim) |
| SrcMeasurementSession.MeasurementSession.constructor | src/session/MeasurementSession.ts:6 | no readings |
| SrcMeasurementSession.MeasurementSession.AddMeasurement | src/session/MeasurementSession.ts:8-26 | appends exactly the corrected reading, keeps raw = adjusted + bias used, and returns the list |
| SrcMeasurementSession.MeasurementSession.RemoveMeasurement | src/session/MeasurementSession.ts:28-31 | the list without that id, in order; the invariant is kept |
| SrcMeasurementSession.MeasurementSession.CalculateResult | src/session/MeasurementSession.ts:33-77 | sort, trim and statistics give `ResultOf` the readings, which stay unchanged |
| SrcMeasurementSession.MeasurementSession.Clear | src/session/MeasurementSession.ts:79-81 | no readings left |
| ManualSessionManager.RecordedValidity | session/ManualSessionManager.ts:27 | a recorded reading is valid for the calculator exactly when the scale read more than the locked bias |
| ManualSessionManager.ManualSessionManager.constructor | session/ManualSessionManager.ts:9-11 | the kind as given; no readings; bias and T95 zero |
| ManualSessionManager.ManualSessionManager.StartSession | session/ManualSessionManager.ts:13-17 | no readings, and the new locked values |
| ManualSessionManager.ManualSessionManager.AddMeasurement | session/ManualSessionManager.ts:19-31 | appends one record with the kind, the locked values and corrected = reading − bias, and returns it |
| ManualSessionManager.ManualSessionManager.RemoveMeasurement | session/ManualSessionManager.ts:33-35 | the list without that id, in order; locked values and invariant kept |
| ManualSessionManager.ManualSessionManager.GetMeasurements | session/ManualSessionManager.ts:37-39 | a copy equal to the list |
| ManualSessionManager.ManualSessionManager.GetLockedValues | session/ManualSessionManager.ts:41-43 | exactly the locked bias and T95 |
| SimpleMeasurementManager.RecordedAllFinite | session/SimpleMeasurementManager.ts:25 | the calculator ignores none of the recorded readings; their values are reading − bias, in order |
| SimpleMeasurementManager.SimpleMeasurementManager.constructor | session/SimpleMeasurementManager.ts:8-10 | a copy of the initial readings; bias and T95 zero |
| SimpleMeasurementManager.SimpleMeasurementManager.StartSession | session/SimpleMeasurementManager.ts:12-16 | no readings, and the new locked values |
| SimpleMeasurementManager.SimpleMeasurementManager.AddMeasurement | session/SimpleMeasurementManager.ts:18-30 | appends one record with the locked values, corrected = reading − bias and the quality figures, and returns it |
| SimpleMeasurementManager.SimpleMeasurementManager.RemoveMeasurement | session/SimpleMeasurementManager.ts:32-34 | the list without that id, in order; locked values and invariant kept |
| SimpleMeasurementManager.SimpleMeasurementManager.Clear | session/SimpleMeasurementManager.ts:36-38 | no readings, locked values unchanged |
| SimpleMeasurementManager.SimpleMeasurementManager.GetMeasurements | session/SimpleMeasurementManager.ts:40-42 | a copy equal to the list |
| SimpleMeasurementManager.SimpleMeasurementManager.GetLockedValues | session/SimpleMeasurementManager.ts:45-47 | exactly the locked bias and T95 |
| Generations.BracketsAgree | utils/kFactor.ts:20-30 | on the bracket both scans settle on, they answer alike except at n = 61 |
| Generations.KFactorsAgree | utils/kFactor.ts:21-26 | from two samples on, getKFactor(n) = getTFactor95(n − 1) on every shaped table except at n = 61 (1.96 against 2.042) |
| Generations.TableKFactorsAgree | src/utils/kFactor.ts:41-43 | getKFactor(n) = getKFactorFromN(n) exactly when n ≥ 2 and n ≠ 61 |
| Generations.KeptAgree | measurement/SessionCalculator.ts:27-34 | for f ≥ 0 the calculators and the newer session keep the same values |
| Generations.StdErrorsAgree | src/session/MeasurementSession.ts:52 | dividing from one kept value on (newer) and from two on (older) gives the same standard error |
| Generations.BasicTaresAgree | src/session/TareManager.ts:82-99 | over the same values, the older half-range estimate and the newer basic model agree on bias, 1-sigma tare (range/4) and count |

## Left out

- The React components, the sensor hook and the settings context are not part
  of this model. They are display code, sensor I/O and `localStorage`.
- Ids (`crypto.randomUUID()`) and timestamps (`Date.now()`) are parameters of
  the add operations. The model does not generate them.
- IEEE-754 arithmetic: rounding, overflow, `Infinity` and NaN are not
  modelled. Numbers are exact reals. NaN appears only as the filtered
  corrected value and as `r2`.
- `Math.sqrt` is an abstract non-negative root, not a floating-point root.
- The motion snapshot carries only `az`. The raw axes, RMS figures, roll,
  pitch and timestamp play no part in the core.
- The sort of records by corrected value, followed by the map to values, is
  modelled as the ascending sort of the values. The order among equal values
  does not change the values.
- The unused local `tVal` (`src/session/TareManager.ts:53`) is left out. It
  is computed and never read.
- `grossPercent` is not modelled. `RatioCalculator` never sets it.
- The `src/measurement/RatioCalculator` that `src/ui/App.tsx` imports is not
  part of this model.
- WithSnapshot: its own contract bounds the length and says every kept
  sample has a snapshot; that each such sample is kept once and in order is
  stated by `WithSnapshotAppend`.
- ValidValues: its own contract bounds the length and the sign; that each
  valid reading contributes its value once and in order is stated by
  `ValidValuesAppend`.
- FiniteValues: its own contract bounds the length; that each non-NaN
  reading contributes its value once and in order is stated by
  `FiniteValuesAppend`.
- RatioCalculator.Calculate: `relativeErrorPercent95` is `None` where the
  source divides by a zero percent and gets `Infinity` or NaN.
- SrcTareManager.TareManager.GetSamples: the source hands out its own array,
  so a caller could change the list behind the manager. The model returns a
  value and does not model that aliasing.
- SrcMeasurementSession.MeasurementSession.CalculateResult: the result holds
  the live `measurements` array in the source. The model holds a copy.
- SimpleMeasurementManager.SimpleMeasurementManager.constructor: it does not
  establish `Consistent()`. The initial readings need not match the zero
  locked values in the source either.
- SimpleMeasurementManager.SimpleMeasurementManager.AddMeasurement: the
  quality figures are a record of four optional numbers. The source spreads an
  arbitrary object into the record; the model keeps only those four fields.
