# MetImage cloud-test sampling and histograms, in Dafny

This project models the deterministic core of the MetImage cloud processor
(bcdev/beam-metimage). The processor compares the values that MODIS cloud-test
"measures" take on cloudy pixels with the values they take on cloud-free pixels.
The model covers five parts:

- **Histogram.** `MetImageHistogram` keeps bin counts over a value range.
  - Samples are counted into bins with unequal borders. The counting loop
    drops NaN, infinite and out-of-range values; for each value it keeps, a
    linear border scan finds the bin index, and the counting loop folds index
    `numBins` into the last bin.
  - The density (pdf) is the counts plus an additive smoothing constant,
    `alpha / (bins + alpha * 20)`.
  - The cumulative distribution (cdf) has one entry more than there are bins.
    Entry i is the mass of the first i bins over the total.
  - The equal-width bin borders are computed at construction.
- **Utilities.** `MetImageUtils` provides a running prefix sum, the normalised
  cumulative sum, and element-wise array conversions.
- **Samples.** `ModisSample` maps a measure ID to its name ("H1".."H7",
  "N1".."N7") and holds the cloudy and cloud-free sample arrays.
- **Measures.** `ModisMeasures` holds the per-pixel inputs and computes the
  fourteen measure formulas over them.
- **Operator.** `MetImageOp` contains the sample-selection rules:
  - the surface, daytime and cloud-height code predicates;
  - the bucket filter;
  - the one-in-nine scan selection, which builds a measure's sample lists;
  - the merge of the two lists;
  - the write of a measure into its output raster;
  - the decision of whether, and from which histograms, the distinction skill
    is computed.

How the model represents the source:

- **Java doubles.** These are the `Double` datatype: a finite real, one of the
  two infinities, or NaN. Arithmetic follows IEEE 754 without rounding.
  Comparisons are false on NaN, as Java's are.
- **Methods that fill or update arrays.** These are Dafny methods over arrays,
  proved against specification functions:
  - `CdfOf` for both cdf builders;
  - `SmoothedPdf` for the pdf;
  - `EqualBinBorders`;
  - `UnequalBinIndex`;
  - `CountsOf` for the unequal-bin counts;
  - `Collect` for the scan selection.

  The properties the source promises are proved as lemmas about these
  functions.
- **Raster access.** A `Scene` gives each pixel position its codes, its
  per-pixel measure, and the uniformity measure computed from the positions
  accumulated since the last reset.

The measures example test expects 0 for the heritage BT11 measure on inputs
where the formula `bt11000 - tSkin` gives 12 - 288 = -276. The model follows
the code (`Measures.NightOverLandExample`). That test also builds the measures
with a 13-argument constructor that the class does not have. The model sets
the same values through the setters (`Measures.Configure`).

## Model

| member | source | states |
|---|---|---|
| Numerics.SampleMax | src/main/java/org/esa/beam/metimage/operator/MetImageOp.java:381-384 | for samples without NaN, the maximum is one of the samples and no sample exceeds it |
| Numerics.SampleMin | src/main/java/org/esa/beam/metimage/operator/MetImageOp.java:382-385 | for samples without NaN, the minimum is one of the samples and no sample is below it |
| Numerics.JavaMin | src/main/java/org/esa/beam/metimage/operator/MetImageOp.java:387 | `Math.min`: NaN exactly when an argument is NaN; otherwise the smaller argument |
| Numerics.JavaMax | src/main/java/org/esa/beam/metimage/operator/MetImageOp.java:388 | `Math.max`: NaN exactly when an argument is NaN; otherwise the larger argument |
| Cumulative.CdfOf | src/main/java/util/MetImageUtils.java:19-28 | the normalised cumulative sum has one entry more than its input |
| Cumulative.CdfEndpoints | src/main/java/util/MetImageUtils.java:22-26 | with a non-zero total the first entry is 0 and the last is 1 |
| Cumulative.CdfMonotone | src/main/java/util/MetImageUtils.java:23-26 | for non-negative input with positive total every entry is in [0, 1] and entries never decrease |
| Cumulative.CdfStrictlyIncreasing | src/main/java/org/esa/beam/metimage/math/MetImageHistogram.java:120-126 | for strictly positive input the total is positive and the entries strictly increase |
| Cumulative.CdfStepIsDensity | src/main/java/util/MetImageUtils.java:23-26 | the step from entry i to entry i+1 is input i's share of the total |
| Cumulative.CdfOfZeroMass | src/main/java/util/MetImageUtils.java:25 | with a zero total no entry is finite; an entry is NaN exactly when its prefix sum is 0 |
| Cumulative.CdfOfEmptyHistogram | src/main/java/org/esa/beam/metimage/math/MetImageHistogram.java:120-126 | an empty non-negative density gives NaN in every entry |
| Cumulative.PrefixSumMonotone | src/main/java/util/MetImageUtils.java:10-17 | prefix sums of non-negative values are non-negative and never decrease |
| Utils.VisitedPrefix | src/main/java/util/MetImageUtils.java:12 | the count of summed elements: 0 for a non-positive request, the request when it fits, the length otherwise |
| Utils.GetCumulativeSum | src/main/java/util/MetImageUtils.java:10-17 | the result is the sum of the first min(length, n) elements, and 0 for n <= 0 |
| Utils.GetCumulativeSumAndNormalize | src/main/java/util/MetImageUtils.java:19-28 | a fresh result of length n+1 that equals `CdfOf` of the input, although its last slot doubles as the divisor |
| Utils.GetAsDoubles | src/main/java/util/MetImageUtils.java:31-37 | a fresh array of the same length with equal elements |
| Utils.GetAsPrimitiveDoubles | src/main/java/util/MetImageUtils.java:39-45 | a fresh array of the same length whose elements are the unboxed inputs |
| Histogram.Smoothing | src/main/java/org/esa/beam/metimage/math/MetImageHistogram.java:114-118 | the smoothing constant is 0 for alpha 0 and strictly between 0 and 1/20 otherwise |
| Histogram.SmoothedPdf | src/main/java/org/esa/beam/metimage/math/MetImageHistogram.java:107-118 | the pdf has one entry per bin |
| Histogram.PdfWithoutSmoothing | src/main/java/org/esa/beam/metimage/math/MetImageHistogram.java:107-118 | with alpha 0 the pdf equals the counts |
| Histogram.PdfPositive | src/main/java/org/esa/beam/metimage/math/MetImageHistogram.java:114-118 | with alpha > 0 and non-negative counts every pdf entry is strictly positive |
| Histogram.PdfMass | src/main/java/org/esa/beam/metimage/math/MetImageHistogram.java:107-118 | the mass of the first k pdf entries is the first k counts plus k times the smoothing constant |
| Histogram.UnsmoothedPdfTotal | src/main/java/org/esa/beam/metimage/math/MetImageHistogram.java:107-112 | without smoothing the pdf is non-negative and its total is the total count |
| Histogram.SmoothedCdfWellFormed | src/main/java/org/esa/beam/metimage/math/MetImageHistogram.java:114-126 | with alpha > 0 the cdf total is positive, the cdf runs from 0 to 1, and it strictly increases |
| Histogram.UnsmoothedCdf | src/main/java/org/esa/beam/metimage/math/MetImageHistogram.java:120-126 | without smoothing: with samples the cdf runs from 0 to 1 and never decreases; without samples every entry is NaN |
| Histogram.ZeroAlphaExample | src/test/java/org/esa/beam/metimage/operator/PrerequisitesTest.java:51-59 | counts 2,1,3,2,3,1 with alpha 0 give that pdf and the cdf 0, 1/6, 1/4, 1/2, 2/3, 11/12, 1 |
| Histogram.UnitAlphaExample | src/test/java/org/esa/beam/metimage/operator/PrerequisitesTest.java:88-96 | the same counts with alpha 1 add 1/26 per bin and give the cdf 0, 53/318, 80/318, 1/2, 2/3, 291/318, 1 |
| Histogram.EqualBinBorders | src/main/java/org/esa/beam/metimage/math/MetImageHistogram.java:44-49 | there are bins+1 equal-width borders |
| Histogram.EqualBorderAt | src/main/java/org/esa/beam/metimage/math/MetImageHistogram.java:47 | over a finite range with bins >= 1, border i is min + i (max - min) / bins |
| Histogram.EqualBordersEvenlySpaced | src/main/java/org/esa/beam/metimage/math/MetImageHistogram.java:44-49 | the first border is min, the last is max, and consecutive borders are (max - min) / bins apart |
| Histogram.SixBinBordersExample | src/test/java/org/esa/beam/metimage/operator/PrerequisitesTest.java:44-49 | the six bins over [-2, 3] have borders -2, -7/6, -1/3, 1/2, 4/3, 13/6, 3 |
| Histogram.NoBinsBorderIsNaN | src/main/java/org/esa/beam/metimage/math/MetImageHistogram.java:47 | with no bins the single border is 0/0, i.e. NaN |
| Histogram.ComputeEqualBinBorders | src/main/java/org/esa/beam/metimage/math/MetImageHistogram.java:44-49 | a fresh border array holding exactly `EqualBinBorders` |
| Histogram.UnequalBinIndexFrom | src/main/java/org/esa/beam/metimage/math/MetImageHistogram.java:189-196 | the scan from index i returns i-1 or later, only past borders the value is not below, and stops before the first border above the value |
| Histogram.UnequalBinIndex | src/main/java/org/esa/beam/metimage/math/MetImageHistogram.java:189-196 | the result is in [0, borders-1] (or -1 without borders); the value is not below borders 1..r, and is below border r+1 unless r is the last index |
| Histogram.UnequalBinEnclosesValue | src/main/java/org/esa/beam/metimage/math/MetImageHistogram.java:189-196 | for strictly increasing borders and a value inside them, border[r] <= value < border[r+1] |
| Histogram.FindUnequalBinIndex | src/main/java/org/esa/beam/metimage/math/MetImageHistogram.java:189-196 | the scan loop with early return computes `UnequalBinIndex` |
| Histogram.CountsOf | src/main/java/org/esa/beam/metimage/math/MetImageHistogram.java:145 | the histogram has numBins counts |
| Histogram.BordersFitBins | src/main/java/org/esa/beam/metimage/operator/MetImageOp.java:405-409 | with one border more than there are bins (at least one), as the operator allocates, every accepted value has a bin, and the counts sum to the accepted-value count |
| Histogram.HistogramStep | src/main/java/org/esa/beam/metimage/math/MetImageHistogram.java:160-172 | one more value leaves the counts alone when it is not accepted and raises exactly its own bin by one when it is; the fit condition extends value by value |
| Histogram.CountsTotal | src/main/java/org/esa/beam/metimage/math/MetImageHistogram.java:160-172 | when every accepted value has a bin, the counts sum to the number of accepted (finite, in-range) values: each raises exactly one bin |
| Histogram.BinTotalIsAcceptedCount | src/main/java/org/esa/beam/metimage/math/MetImageHistogram.java:160-172 | the counts of all bins together equal the accepted-value count |
| Histogram.ComputeHistogramUnequalBins | src/main/java/org/esa/beam/metimage/math/MetImageHistogram.java:138-187 | it succeeds exactly when every accepted value has a bin (otherwise the source's index error), and then returns `CountsOf` the values |
| Histogram.GetCumulativeSum | src/main/java/org/esa/beam/metimage/math/MetImageHistogram.java:128-136 | the sum over indices max(0, start) <= i < min(length, end); 0 for an empty range |
| Histogram.MetImageHistogram.constructor | src/main/java/org/esa/beam/metimage/math/MetImageHistogram.java:36-42 | shares the given counts; a zero pdf of bins entries; a zero cdf of bins+1 entries; the equal-width borders; pdf, cdf and borders are fresh arrays; no unequal borders |
| Histogram.MetImageHistogram.SetUnequalBinBorders | src/main/java/org/esa/beam/metimage/math/MetImageHistogram.java:59-61 | stores the given border array and nothing else; the histogram's own cdf and equal-width border arrays are never installed as unequal borders, which the source's float/double array types rule out |
| Histogram.MetImageHistogram.AggregateUnequalBins | src/main/java/org/esa/beam/metimage/math/MetImageHistogram.java:92-104 | on success each bin grows by the values' count in it, and the total grows by the accepted count; on an index failure the counts are unchanged; with bins+1 unequal borders and at least one bin it always succeeds |
| Histogram.MetImageHistogram.ComputePdf | src/main/java/org/esa/beam/metimage/math/MetImageHistogram.java:107-112 | the pdf becomes `SmoothedPdf` of the counts |
| Histogram.MetImageHistogram.NormalizeAlpha | src/main/java/org/esa/beam/metimage/math/MetImageHistogram.java:114-118 | each pdf entry grows by the smoothing constant |
| Histogram.MetImageHistogram.ComputeCdf | src/main/java/org/esa/beam/metimage/math/MetImageHistogram.java:120-126 | the cdf becomes `CdfOf` the pdf, although its last slot doubles as the divisor |
| Histogram.MetImageHistogram.ComputeDensityFunctions | src/main/java/org/esa/beam/metimage/math/MetImageHistogram.java:63-66 | the pdf is the smoothed counts and the cdf is the cdf of that pdf |
| Samples.MeasureName | src/main/java/org/esa/beam/metimage/operator/ModisSample.java:20-28 | a name exists exactly for IDs 1..14; it has two characters, the prefix H for 1..7 and N for 8..14, and a digit suffix in 1..7 |
| Samples.MeasureIdOf | src/main/java/org/esa/beam/metimage/operator/ModisSample.java:21-24 | reading a name back gives an ID in 1..14 |
| Samples.NameDeterminesId | src/main/java/org/esa/beam/metimage/operator/ModisSample.java:21-24 | every valid ID is recovered from its name, so names are distinct |
| Samples.IdDeterminesName | src/main/java/org/esa/beam/metimage/operator/ModisSample.java:21-24 | every well-formed name is the name of the ID it reads back as |
| Samples.ModisSample.constructor | src/main/java/org/esa/beam/metimage/operator/ModisSample.java:15-18 | keeps the ID, names it, and leaves both sample arrays unset |
| Samples.ModisSample.SetCloudSamples | src/main/java/org/esa/beam/metimage/operator/ModisSample.java:38-40 | stores the cloud samples and changes nothing else |
| Samples.ModisSample.SetNoCloudSamples | src/main/java/org/esa/beam/metimage/operator/ModisSample.java:46-48 | stores the cloud-free samples and changes nothing else |
| Samples.NewModisSample | src/main/java/org/esa/beam/metimage/operator/ModisSample.java:15-28 | fails exactly for IDs outside 1..14; otherwise a fresh sample with that ID and name |
| Measures.Combine | src/main/java/org/esa/beam/metimage/operator/ModisMeasures.java:182-184 | the product; NaN exactly for a NaN factor or zero times infinity |
| Measures.ModisMeasures.constructor | src/main/java/org/esa/beam/metimage/operator/ModisMeasures.java:10-23 | the default state: both flags false, every value 0 |
| Measures.ModisMeasures.HeritageMeasureBT11 | src/main/java/org/esa/beam/metimage/operator/ModisMeasures.java:28-31 | bt11000 - tSkin, and NaN for a NaN input |
| Measures.ModisMeasures.HeritageMeasureSplitWindow | src/main/java/org/esa/beam/metimage/operator/ModisMeasures.java:33-36 | bt11000 - bt12000, and NaN for a NaN input |
| Measures.ModisMeasures.HeritageMeasureNegativeBT37minusBT11Night | src/main/java/org/esa/beam/metimage/operator/ModisMeasures.java:38-45 | bt3700 - bt11000 at night, NaN by day |
| Measures.ModisMeasures.HeritageMeasurePositiveBT37minusBT11NightMixedScene | src/main/java/org/esa/beam/metimage/operator/ModisMeasures.java:47-51 | always equal to the night measure |
| Measures.ModisMeasures.HeritageMeasureSolarBrightnessThresholdsOcean | src/main/java/org/esa/beam/metimage/operator/ModisMeasures.java:53-60 | NaN over land, rho860 otherwise |
| Measures.ModisMeasures.HeritageMeasureSolarBrightnessThresholdsLand | src/main/java/org/esa/beam/metimage/operator/ModisMeasures.java:62-69 | rho600 over land, NaN otherwise |
| Measures.ModisMeasures.HeritageMeasureUniformity | src/main/java/org/esa/beam/metimage/operator/ModisMeasures.java:71-74 | the 3x3 BT11 statistic |
| Measures.ModisMeasures.NewMeasureR138WaterVapour | src/main/java/org/esa/beam/metimage/operator/ModisMeasures.java:79-82 | the 1380 nm reflectance |
| Measures.ModisMeasures.NewMeasureBT11 | src/main/java/org/esa/beam/metimage/operator/ModisMeasures.java:84-91 | bt7300 - bt8600 over land, bt7300 - bt11000 otherwise |
| Measures.ModisMeasures.NewMeasureCO2 | src/main/java/org/esa/beam/metimage/operator/ModisMeasures.java:93-97 | always NaN |
| Measures.ModisMeasures.NewMeasureBT37minusBT87Deserts | src/main/java/org/esa/beam/metimage/operator/ModisMeasures.java:99-102 | bt3700 - bt8600, and NaN for a NaN input |
| Measures.ModisMeasures.NewMeasurePositiveBT37minusBT11Day06Glint | src/main/java/org/esa/beam/metimage/operator/ModisMeasures.java:104-107 | (bt3700 - bt11000) / rho600 for non-zero rho600; for zero rho600, NaN when the temperatures agree and infinite otherwise |
| Measures.ModisMeasures.NewMeasureO2Absorption | src/main/java/org/esa/beam/metimage/operator/ModisMeasures.java:109-113 | always 0 |
| Measures.ModisMeasures.NewMeasureUniformityTwoChannels | src/main/java/org/esa/beam/metimage/operator/ModisMeasures.java:115-122 | for finite inputs, the product of the BT11 statistic with the BT11-BT3.7 statistic at night and with rho600 by day; NaN when a factor used is NaN |
| Measures.ModisMeasures.SetIsLand | src/main/java/org/esa/beam/metimage/operator/ModisMeasures.java:129-131 | changes the land flag only |
| Measures.ModisMeasures.SetIsNight | src/main/java/org/esa/beam/metimage/operator/ModisMeasures.java:133-135 | changes the night flag only |
| Measures.ModisMeasures.SetBt11000 | src/main/java/org/esa/beam/metimage/operator/ModisMeasures.java:137-139 | changes bt11000 only |
| Measures.ModisMeasures.SetBt12000 | src/main/java/org/esa/beam/metimage/operator/ModisMeasures.java:141-143 | changes bt12000 only |
| Measures.ModisMeasures.SetBt3700 | src/main/java/org/esa/beam/metimage/operator/ModisMeasures.java:145-147 | changes bt3700 only |
| Measures.ModisMeasures.SetBt7300 | src/main/java/org/esa/beam/metimage/operator/ModisMeasures.java:149-151 | changes bt7300 only |
| Measures.ModisMeasures.SetBt8600 | src/main/java/org/esa/beam/metimage/operator/ModisMeasures.java:153-155 | changes bt8600 only |
| Measures.ModisMeasures.SetTSkin | src/main/java/org/esa/beam/metimage/operator/ModisMeasures.java:157-159 | changes tSkin only |
| Measures.ModisMeasures.SetRho860 | src/main/java/org/esa/beam/metimage/operator/ModisMeasures.java:161-163 | changes rho860 only |
| Measures.ModisMeasures.SetRho600 | src/main/java/org/esa/beam/metimage/operator/ModisMeasures.java:165-167 | changes rho600 only |
| Measures.ModisMeasures.SetBt11Sample3x3 | src/main/java/org/esa/beam/metimage/operator/ModisMeasures.java:169-171 | changes the BT11 uniformity statistic only |
| Measures.ModisMeasures.SetRho1380 | src/main/java/org/esa/beam/metimage/operator/ModisMeasures.java:173-175 | changes rho1380 only |
| Measures.ModisMeasures.SetDiffBt11Bt37Sample3x3 | src/main/java/org/esa/beam/metimage/operator/ModisMeasures.java:177-179 | changes the BT11-BT3.7 uniformity statistic only |
| Measures.BrightnessMeasuresPartition | src/main/java/org/esa/beam/metimage/operator/ModisMeasures.java:53-69 | with defined reflectances exactly one of the ocean and land brightness measures is defined, the ocean one exactly off land |
| Measures.NightMeasuresByDay | src/main/java/org/esa/beam/metimage/operator/ModisMeasures.java:38-51 | both night measures are NaN by day |
| Measures.UniformityTwoChannelsScalesHeritage | src/main/java/org/esa/beam/metimage/operator/ModisMeasures.java:115-122 | the two-channel uniformity is the heritage uniformity times the second channel for the time of day |
| Measures.NightOverLandExample | src/test/java/org/esa/beam/metimage/operator/ModisMeasuresTest.java:34-49 | the example inputs at night over land give the listed measure values (heritage BT11 = -276) |
| Measures.OceanExamples | src/test/java/org/esa/beam/metimage/operator/ModisMeasuresTest.java:51-67 | over ocean the land measure is NaN, the ocean measure is 0.15 and new BT11 is -9; by day the night measure is NaN and the two-channel uniformity is 1.2 |
| Measures.Configure | src/main/java/org/esa/beam/metimage/operator/ModisMeasures.java:129-179 | setting every field through the setters gives exactly the values set |
| Operator.CloudClassesPartition | src/main/java/org/esa/beam/metimage/operator/MetImageOp.java:696-706 | surface codes 0-1 are cloud and 2-4 are cloud-free; no code is both; every other code is neither |
| Operator.NoCloudSurfaces | src/main/java/org/esa/beam/metimage/operator/MetImageOp.java:704-718 | a cloud-free pixel is exactly one of ocean, land and ice; codes 5-7 are a surface class but not cloud-free; cloud is no surface class |
| Operator.ConsiderMeasureAll | src/main/java/org/esa/beam/metimage/operator/MetImageOp.java:547-570 | NaN is never considered; with every filter at "ALL" exactly the non-NaN measures pass |
| Operator.FilterPassThrough | src/main/java/org/esa/beam/metimage/operator/MetImageOp.java:555-566 | cloud pixels pass the surface filter; non-cloud pixels pass the cloud-type filter; for cloud-free pixels a named surface bucket passes exactly its surface class |
| Operator.MergeSamples | src/main/java/org/esa/beam/metimage/operator/MetImageOp.java:436-441 | a fresh array of numCloud + numNoCloud values: the cloud prefix in order, then the cloud-free prefix in order |
| Operator.FillMeasureOutputArray | src/main/java/org/esa/beam/metimage/operator/MetImageOp.java:664-670 | only cell [x][y] changes: of the cloud raster for a cloud pixel, else of the cloud-free raster for a cloud-free pixel |
| Operator.Row | src/main/java/org/esa/beam/metimage/operator/MetImageOp.java:518 | row y visits (0, y) .. (w-1, y) in order |
| Operator.ScanOrder | src/main/java/org/esa/beam/metimage/operator/MetImageOp.java:517-518 | the scan visits w * h positions |
| Operator.ScanOrderIndex | src/main/java/org/esa/beam/metimage/operator/MetImageOp.java:517-532 | the running index y * w + x is the position (x, y) |
| Operator.CollectedAreDefined | src/main/java/org/esa/beam/metimage/operator/MetImageOp.java:519-528 | no collected sample is NaN |
| Operator.CollectedAtMostOnePerNine | src/main/java/org/esa/beam/metimage/operator/MetImageOp.java:490-533 | at most one sample per nine scan positions: the selected indices are 4 mod 9, or 8 mod 9 for uniformity measures |
| Operator.CloudySceneSamplesEveryNinth | src/main/java/org/esa/beam/metimage/operator/MetImageOp.java:490-533 | in a fully cloudy scene with defined measures and open filters, every selected position yields one cloud sample and none is cloud-free |
| Operator.CollectSamples | src/main/java/org/esa/beam/metimage/operator/MetImageOp.java:450-534 | the nested raster loops, with the running index and the reset window, compute exactly `Collect` over the scan order |
| Operator.ToBoxedArray | src/main/java/org/esa/beam/metimage/operator/MetImageOp.java:536-539 | the list as a fresh array of non-null boxed values, in order |
| Operator.GetModisSample | src/main/java/org/esa/beam/metimage/operator/MetImageOp.java:444-545 | fails exactly for an invalid ID; otherwise a fresh sample carrying the ID's name, whose two distinct, fresh arrays hold the scan's cloudy and cloud-free lists |
| Operator.GetDistinctionSkill | src/main/java/org/esa/beam/metimage/operator/MetImageOp.java:362-434 | undefined exactly for empty or too small sample sets; otherwise the range is the min/max over both sets; equalized histograms exactly when enabled, the optimal bin count is positive and nothing throws; equal-width with `numberOfBins` otherwise |
| Operator.RangeCoversSamples | src/main/java/org/esa/beam/metimage/operator/MetImageOp.java:381-388 | without NaN samples, every sample of both sets lies within the common [min, max] |

## Left out

- The distinction skill itself is not modelled. The skill class is a stub, and the method the operator calls is not part of this model. `Operator.GetDistinctionSkill` returns which histograms the skill would be computed from.
- The optimal bin count (`findOptimalNumberOfBins`) is not modelled. It is Freedman–Diaconis over library percentiles and `Math.pow`, so it is a function parameter of `Operator.GetDistinctionSkill`. It also sorts its argument in place, and that is not modelled either.
- The equalized histogram and its unequal borders are not modelled, because the factory that builds them is not part of this model. `Operator.GetDistinctionSkill` takes a flag that stands for an exception anywhere in the equalization block (MetImageOp.java:398-411): the factory, `new int[unequalBins.length - 1]`, and the two aggregations. The aggregation part cannot fail once the factory returns at least two borders: `Histogram.BordersFitBins` and the last ensures of `Histogram.MetImageHistogram.AggregateUnequalBins` prove it. With no border the allocation throws. With one border there are no bins, and aggregation throws as soon as a sample is finite and inside the range: its index 0 equals the bin count and is folded to -1. A sample set that is entirely infinite passes both aggregations without throwing. The flag covers either outcome.
- The base histogram class is not part of this model. Only its state is modelled: the shared counts array and min/max. The equal-width `aggregate` and the `createAggregatedHistogram` factory are not modelled.
- `getMeasureById` is not modelled. It calls argument-taking static measure formulas that are not part of this model. It also writes the output rasters on the way (see `Operator.FillMeasureOutputArray`). The scan therefore takes the per-pixel measure as `Scene.measureAt`.
- The uniformity statistics are not computed. These are the SummaryStatistics standard deviations over validity-filtered radiances converted to temperatures. The scan passes the window of positions since the last reset to `Scene.windowMeasure`. The window's content and reset points are modelled; the statistics are not.
- `Operator.CollectSamples` does not write the output rasters during the scan.
- The operator's I/O and framework plumbing are not modelled. This covers the CSV writer and the bucket loops in `initialize`, `computeTile`, target-product creation, source tiles, the skin-temperature geocoding lookup and progress monitors. They have no logic beyond the parts modelled.
- `Operator.Config` holds the constants the operator refers to that are not defined, together with its two user parameters. The undefined constants are the minimum samples per histogram and the IDs of the two uniformity measures: the operator uses them, but the constants class does not define them. The user parameters are the bin count and the equalization switch, which the operator declares itself.
- Float and double rounding, signed zero and 32-bit int overflow are not modelled. Arithmetic is exact over the reals. The pdf is `real` because it is built from integer counts plus a non-negative constant.
- `Utils.GetCumulativeSum`, `Utils.GetCumulativeSumAndNormalize`: their inputs are finite reals. NaN or infinite input entries are not modelled.
- `Histogram.MetImageHistogram.constructor`: alpha is a natural number. The source takes any int, and a negative alpha could make the smoothing denominator zero or negative. Every caller passes 0 or 1.
- `Histogram.MetImageHistogram.AggregateUnequalBins`: an unset (null) border array is treated like an empty one. Both make the source throw at the first accepted value. The index validator is always the accept-all one, so it is omitted.
- `Histogram.ComputeHistogramUnequalBins` returns the counts instead of a new base-histogram object. Its range argument is always given, so the range-computing branch is omitted.
- `Utils.GetAsPrimitiveDoubles` requires non-null entries. Unboxing a null throws in the source, and the only caller passes non-null values.
- `Operator.MergeSamples` requires the counts to fit the arrays, where `System.arraycopy` would throw. The only caller passes the array lengths.
- `Operator.FillMeasureOutputArray` requires the two rasters to be distinct, in-bounds arrays, as every caller passes.
- `Operator.GetDistinctionSkill` requires both sample arrays to be set, which `Operator.GetModisSample` always does.
- The getters of ModisSample and MetImageHistogram are not separate members. They are the fields themselves.
- The UI classes are not modelled.
