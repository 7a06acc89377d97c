/**
 * The sample-selection rules of the MetImage operator: pixel classification
 * by surface, daytime and cloud-height codes; the bucket filter a measure
 * must pass; the one-in-nine scan selection that builds the cloudy and
 * cloud-free sample lists of a measure; the merge of the two lists; the
 * write of a measure into its output raster; and the decision of how (or
 * whether) the distinction skill of a measure is computed.
 *
 * The raster is abstracted as functions of the pixel position (x, y).
 */
module Operator {
  import opened Numerics
  import opened Samples
  import Utils

  /** A pixel position (x, y). */
  type Pos = (int, int)

  /** The integer codes of one pixel. */
  datatype Pixel = Pixel(surfaceType: int, daytime: int, cloudHeight: int)

  // ---------------------------------------------------------------------
  // Pixel classification

  predicate IsSampleSemitransparentCloud(p: Pixel) { p.surfaceType == 1 }

  predicate IsSampleCloud(p: Pixel) { p.surfaceType == 0 || IsSampleSemitransparentCloud(p) }

  predicate IsSampleNoCloud(p: Pixel) { 2 <= p.surfaceType <= 4 }

  predicate IsSampleOcean(p: Pixel) { p.surfaceType == 2 || p.surfaceType == 5 }

  predicate IsSampleLand(p: Pixel) { p.surfaceType == 3 || p.surfaceType == 6 }

  predicate IsSampleIce(p: Pixel) { p.surfaceType == 4 || p.surfaceType == 7 }

  predicate IsSampleDay(p: Pixel) { p.daytime == 1 }

  predicate IsSampleNight(p: Pixel) { p.daytime == 2 }

  predicate IsSampleTwilight(p: Pixel) { p.daytime == 3 }

  predicate IsSampleLowCloud(p: Pixel) { p.cloudHeight == 1 }

  predicate IsSampleMidlevelCloud(p: Pixel) { p.cloudHeight == 2 }

  predicate IsSampleHighCloud(p: Pixel) { p.cloudHeight == 3 }

  /**
   * Surface codes 0 and 1 are cloud, 2 to 4 are cloud-free, and no code is
   * both; every other code (5 to 7 included) is neither.
   */
  lemma CloudClassesPartition(p: Pixel)
    ensures !(IsSampleCloud(p) && IsSampleNoCloud(p))
    ensures IsSampleCloud(p) <==> 0 <= p.surfaceType <= 1
    ensures IsSampleNoCloud(p) <==> 2 <= p.surfaceType <= 4
    ensures !IsSampleCloud(p) && !IsSampleNoCloud(p) <==> p.surfaceType < 0 || p.surfaceType > 4
  {
  }

  /**
   * A cloud-free pixel is exactly one of ocean, land and ice; the surface
   * codes 5 to 7 are ocean, land and ice but not cloud-free.
   */
  lemma NoCloudSurfaces(p: Pixel)
    ensures IsSampleNoCloud(p) ==>
      (IsSampleOcean(p) && !IsSampleLand(p) && !IsSampleIce(p)) ||
      (!IsSampleOcean(p) && IsSampleLand(p) && !IsSampleIce(p)) ||
      (!IsSampleOcean(p) && !IsSampleLand(p) && IsSampleIce(p))
    ensures (IsSampleOcean(p) || IsSampleLand(p) || IsSampleIce(p)) && !IsSampleNoCloud(p)
            <==> 5 <= p.surfaceType <= 7
    ensures IsSampleCloud(p) ==> !IsSampleOcean(p) && !IsSampleLand(p) && !IsSampleIce(p)
  {
  }

  // ---------------------------------------------------------------------
  // The bucket filter

  /** The three filter settings of one pass: daytime, cloud-free surface and cloud type. */
  datatype Buckets = Buckets(daytime: string, nonCloudySurface: string, cloudtype: string)

  const AllBuckets := Buckets("ALL", "ALL", "ALL")

  predicate DaytimeOK(b: Buckets, p: Pixel) {
    || b.daytime == "ALL"
    || (b.daytime == "DAY" && IsSampleDay(p))
    || (b.daytime == "NIGHT" && IsSampleNight(p))
    || (b.daytime == "TWILIGHT" && IsSampleTwilight(p))
  }

  /** Cloud pixels always pass the surface filter. */
  predicate SurfaceOK(b: Buckets, p: Pixel) {
    || b.nonCloudySurface == "ALL"
    || IsSampleCloud(p)
    || (b.nonCloudySurface == "LAND" && IsSampleLand(p))
    || (b.nonCloudySurface == "SEA" && IsSampleOcean(p))
    || (b.nonCloudySurface == "ICE" && IsSampleIce(p))
  }

  /** Non-cloud pixels always pass the cloud-type filter. */
  predicate CloudtypeOK(b: Buckets, p: Pixel) {
    || b.cloudtype == "ALL"
    || !IsSampleCloud(p)
    || (b.cloudtype == "LOW" && IsSampleLowCloud(p))
    || (b.cloudtype == "MIDLEVEL" && IsSampleMidlevelCloud(p))
    || (b.cloudtype == "HIGH" && IsSampleHighCloud(p))
    || (b.cloudtype == "SEMITRANSPARENT" && IsSampleSemitransparentCloud(p))
  }

  /** Whether a measure at a pixel enters the samples of the current buckets. */
  predicate ConsiderMeasure(measure: Double, b: Buckets, p: Pixel) {
    !measure.NaN? && DaytimeOK(b, p) && SurfaceOK(b, p) && CloudtypeOK(b, p)
  }

  /** NaN is never considered, and with every filter at "ALL" only NaN is rejected. */
  lemma ConsiderMeasureAll(measure: Double, p: Pixel)
    ensures measure.NaN? ==> forall b :: !ConsiderMeasure(measure, b, p)
    ensures ConsiderMeasure(measure, AllBuckets, p) <==> !measure.NaN?
  {
  }

  /**
   * The surface filter never rejects a cloud pixel and the cloud-type
   * filter never rejects a non-cloud pixel; for a cloud-free pixel under a
   * named surface bucket, the surface filter is exactly the surface class.
   */
  lemma FilterPassThrough(b: Buckets, p: Pixel)
    ensures IsSampleCloud(p) ==> SurfaceOK(b, p)
    ensures !IsSampleCloud(p) ==> CloudtypeOK(b, p)
    ensures IsSampleNoCloud(p) && b.nonCloudySurface == "SEA" ==> (SurfaceOK(b, p) <==> IsSampleOcean(p))
    ensures IsSampleNoCloud(p) && b.nonCloudySurface == "LAND" ==> (SurfaceOK(b, p) <==> IsSampleLand(p))
    ensures IsSampleNoCloud(p) && b.nonCloudySurface == "ICE" ==> (SurfaceOK(b, p) <==> IsSampleIce(p))
  {
  }

  // ---------------------------------------------------------------------
  // Merging and output

  /** The cloud samples in order followed by the cloud-free samples in order. */
  method MergeSamples(cloudSamples: array<Double>, numCloud: int, noCloudSamples: array<Double>, numNoCloud: int)
    returns (allSamples: array<Double>)
    requires 0 <= numCloud <= cloudSamples.Length && 0 <= numNoCloud <= noCloudSamples.Length
    ensures fresh(allSamples)
    ensures allSamples.Length == numCloud + numNoCloud
    ensures allSamples[..] == cloudSamples[..numCloud] + noCloudSamples[..numNoCloud]
  {
    allSamples := new Double[numCloud + numNoCloud](_ => NaN);
    var i := 0;
    while i < numCloud
      invariant 0 <= i <= numCloud
      invariant forall k :: 0 <= k < i ==> allSamples[k] == cloudSamples[k]
    {
      allSamples[i] := cloudSamples[i];
      i := i + 1;
    }
    var j := 0;
    while j < numNoCloud
      invariant 0 <= j <= numNoCloud
      invariant forall k :: 0 <= k < numCloud ==> allSamples[k] == cloudSamples[k]
      invariant forall k :: 0 <= k < j ==> allSamples[numCloud + k] == noCloudSamples[k]
    {
      allSamples[numCloud + j] := noCloudSamples[j];
      j := j + 1;
    }
  }

  /**
   * Writes the measure into cell [x][y] of the cloud raster for a cloud
   * pixel, of the cloud-free raster for a cloud-free pixel, and nowhere
   * otherwise.
   */
  method FillMeasureOutputArray(cloudArray: array2<Double>, noCloudArray: array2<Double>,
                                y: int, x: int, measure: Double, p: Pixel)
    requires cloudArray != noCloudArray
    requires IsSampleCloud(p) ==> 0 <= x < cloudArray.Length0 && 0 <= y < cloudArray.Length1
    requires IsSampleNoCloud(p) ==> 0 <= x < noCloudArray.Length0 && 0 <= y < noCloudArray.Length1
    modifies cloudArray, noCloudArray
    ensures forall i, j :: 0 <= i < cloudArray.Length0 && 0 <= j < cloudArray.Length1 ==>
      cloudArray[i, j] == (if IsSampleCloud(p) && i == x && j == y then measure else old(cloudArray[i, j]))
    ensures forall i, j :: 0 <= i < noCloudArray.Length0 && 0 <= j < noCloudArray.Length1 ==>
      noCloudArray[i, j] == (if IsSampleNoCloud(p) && i == x && j == y then measure else old(noCloudArray[i, j]))
  {
    if IsSampleCloud(p) {
      cloudArray[x, y] := measure;
    } else if IsSampleNoCloud(p) {
      noCloudArray[x, y] := measure;
    }
  }

  // ---------------------------------------------------------------------
  // Scan selection

  /** Row y of a raster of width w, left to right. */
  function Row(w: nat, y: int): (r: seq<Pos>)
    ensures |r| == w
    ensures forall x :: 0 <= x < w ==> r[x] == (x, y)
  {
    seq(w, x requires 0 <= x < w => (x, y))
  }

  /** The positions of a w by h raster in scan order: row by row, top to bottom. */
  function ScanOrder(w: nat, h: nat): (r: seq<Pos>)
    ensures |r| == w * h
  {
    if h == 0 then [] else ScanOrder(w, h - 1) + Row(w, h - 1)
  }

  /** Scan index y * w + x is the position (x, y). */
  lemma {:induction false} ScanOrderIndex(w: nat, h: nat, x: int, y: int)
    requires 0 <= x < w && 0 <= y < h
    ensures 0 <= y * w + x < |ScanOrder(w, h)|
    ensures ScanOrder(w, h)[y * w + x] == (x, y)
  {
    var prev := ScanOrder(w, h - 1);
    assert |prev| == w * (h - 1) == w * h - w;
    if y < h - 1 {
      ScanOrderIndex(w, h - 1, x, y);
      assert y * w + x < w * (h - 1) by {
        assert y * w <= (h - 2) * w;
      }
    } else {
      assert y * w + x == |prev| + x;
    }
  }

  /**
   * The scan indices that yield a sample: the centre (index 4 modulo 9) of
   * every nine positions for the per-pixel measures, the last (index 8
   * modulo 9) for the uniformity measures.
   */
  predicate Selected(k: int, uniform: bool) {
    if uniform then (k + 1) % 9 == 0 else (k + 5) % 9 == 0
  }

  /** The cloudy and cloud-free sample lists of one measure. */
  datatype SampleLists = SampleLists(cloud: seq<Double>, noCloud: seq<Double>)

  /** What the raster provides to the selection. */
  datatype Scene = Scene(
    pixelAt: Pos -> Pixel,
    /** A per-pixel measure at a position. */
    measureAt: Pos -> Double,
    /**
     * A uniformity measure from the positions accumulated since the last
     * reset, and the position where it is emitted.
     */
    windowMeasure: (seq<Pos>, Pos) -> Double)

  /** The measure taken at scan index k (k >= 8 for the uniformity measures). */
  function MeasureAt(ps: seq<Pos>, k: int, uniform: bool, scene: Scene): Double
    requires 0 <= k < |ps| && (uniform ==> k >= 8)
  {
    if uniform then scene.windowMeasure(ps[k - 8..k + 1], ps[k]) else scene.measureAt(ps[k])
  }

  /**
   * The samples selected along the scan positions ps: at each selected
   * index, a considered measure goes to the cloud list for a cloud pixel,
   * to the cloud-free list for a cloud-free pixel, and nowhere otherwise.
   */
  function Collect(ps: seq<Pos>, uniform: bool, scene: Scene, b: Buckets): SampleLists
    decreases |ps|
  {
    if |ps| == 0 then SampleLists([], [])
    else
      var prev := Collect(ps[..|ps| - 1], uniform, scene, b);
      var k := |ps| - 1;
      if !Selected(k, uniform) then prev
      else
        var m := MeasureAt(ps, k, uniform, scene);
        var p := scene.pixelAt(ps[k]);
        if !ConsiderMeasure(m, b, p) then prev
        else if IsSampleCloud(p) then prev.(cloud := prev.cloud + [m])
        else if IsSampleNoCloud(p) then prev.(noCloud := prev.noCloud + [m])
        else prev
  }

  /** How many of the first n scan indices are selected. */
  function SelectedCount(n: nat, uniform: bool): nat {
    if uniform then n / 9 else (n + 4) / 9
  }

  lemma SelectedCountStep(n: nat, uniform: bool)
    ensures SelectedCount(n + 1, uniform) == SelectedCount(n, uniform) + (if Selected(n, uniform) then 1 else 0)
  {
  }

  /** No collected sample is NaN. */
  lemma {:induction false} CollectedAreDefined(ps: seq<Pos>, uniform: bool, scene: Scene, b: Buckets)
    ensures NoNaN(Collect(ps, uniform, scene, b).cloud)
    ensures NoNaN(Collect(ps, uniform, scene, b).noCloud)
    decreases |ps|
  {
    if |ps| > 0 {
      CollectedAreDefined(ps[..|ps| - 1], uniform, scene, b);
    }
  }

  /** At most one sample per nine scan positions is collected. */
  lemma {:induction false} CollectedAtMostOnePerNine(ps: seq<Pos>, uniform: bool, scene: Scene, b: Buckets)
    ensures |Collect(ps, uniform, scene, b).cloud| + |Collect(ps, uniform, scene, b).noCloud|
            <= SelectedCount(|ps|, uniform)
    decreases |ps|
  {
    if |ps| > 0 {
      CollectedAtMostOnePerNine(ps[..|ps| - 1], uniform, scene, b);
      SelectedCountStep(|ps| - 1, uniform);
    }
  }

  /**
   * In a fully cloudy scene with defined measures and every filter at
   * "ALL", every selected position yields a cloud sample and there are no
   * cloud-free samples: exactly one sample per nine positions.
   */
  lemma {:induction false} CloudySceneSamplesEveryNinth(ps: seq<Pos>, uniform: bool, scene: Scene)
    requires forall q :: scene.pixelAt(q).surfaceType == 0
    requires forall q :: !scene.measureAt(q).NaN?
    requires forall w, q :: !scene.windowMeasure(w, q).NaN?
    ensures Collect(ps, uniform, scene, AllBuckets).noCloud == []
    ensures |Collect(ps, uniform, scene, AllBuckets).cloud| == SelectedCount(|ps|, uniform)
    decreases |ps|
  {
    if |ps| > 0 {
      CloudySceneSamplesEveryNinth(ps[..|ps| - 1], uniform, scene);
      SelectedCountStep(|ps| - 1, uniform);
      var k := |ps| - 1;
      if Selected(k, uniform) {
        assert uniform ==> k >= 8;
        var m := MeasureAt(ps, k, uniform, scene);
        assert !m.NaN?;
        ConsiderMeasureAll(m, scene.pixelAt(ps[k]));
      }
    }
  }

  /**
   * One scan step: Collect unfolds on the new position, and the window of
   * positions since the last reset (a multiple of 9) grows by the position;
   * at a selected uniformity index it is exactly the last nine positions.
   */
  lemma WindowStep(visited: seq<Pos>, pos: Pos, uniform: bool, window: seq<Pos>)
    requires uniform ==> window == visited[LastReset(|visited|)..]
    ensures (visited + [pos])[..|visited|] == visited
    ensures uniform ==> window + [pos] == (visited + [pos])[LastReset(|visited|)..]
    ensures uniform && Selected(|visited|, uniform) ==>
      |visited| >= 8 && window + [pos] == (visited + [pos])[|visited| - 8..|visited| + 1]
    ensures uniform && Selected(|visited|, uniform) ==>
      [] == (visited + [pos])[LastReset(|visited| + 1)..]
    ensures uniform && !Selected(|visited|, uniform) ==>
      window + [pos] == (visited + [pos])[LastReset(|visited| + 1)..]
  {
    var n, ps := |visited|, visited + [pos];
    ResetStep(n);
    assert ps[..n] == visited;
    if uniform {
      var r := LastReset(n);
      SliceAppend(visited, pos, r);
      if Selected(n, uniform) {
        assert ps[n - 8..n + 1] == ps[r..];
        assert LastReset(n + 1) == |ps|;
      }
    }
  }

  /** Appending to a sequence appends to each of its suffixes. */
  lemma SliceAppend(s: seq<Pos>, pos: Pos, i: nat)
    requires i <= |s|
    ensures (s + [pos])[i..] == s[i..] + [pos]
  {
  }

  lemma ResetStep(n: nat)
    ensures (n + 1) % 9 == 0 ==> n >= 8 && LastReset(n) == n - 8 && LastReset(n + 1) == n + 1
    ensures (n + 1) % 9 != 0 ==> LastReset(n + 1) == LastReset(n)
  {
    if (n + 1) % 9 != 0 {
      assert (n + 1) % 9 == n % 9 + 1;
    }
  }

  /** The scan index of the last accumulator reset at or before index n: the last multiple of 9. */
  function LastReset(n: nat): (r: nat)
    ensures r <= n < r + 9
  {
    n - n % 9
  }

  /** Collect over one more position, unfolded. */
  lemma CollectStep(visited: seq<Pos>, pos: Pos, uniform: bool, scene: Scene, b: Buckets)
    ensures !Selected(|visited|, uniform) ==> Collect(visited + [pos], uniform, scene, b) == Collect(visited, uniform, scene, b)
    ensures Selected(|visited|, uniform) ==>
      (uniform ==> |visited| >= 8) &&
      var m := MeasureAt(visited + [pos], |visited|, uniform, scene);
      var p := scene.pixelAt(pos);
      var prev := Collect(visited, uniform, scene, b);
      Collect(visited + [pos], uniform, scene, b)
      == if !ConsiderMeasure(m, b, p) then prev
         else if IsSampleCloud(p) then prev.(cloud := prev.cloud + [m])
         else if IsSampleNoCloud(p) then prev.(noCloud := prev.noCloud + [m])
         else prev
  {
    assert (visited + [pos])[..|visited|] == visited;
  }

  /**
   * The body of the scan for one position: grow the window, and at a
   * selected index emit the measure into the list of the pixel's class
   * and reset the window.
   */
  method ScanPosition(ghost visited: seq<Pos>, index: nat, pos: Pos, uniform: bool, scene: Scene, b: Buckets,
                      window: seq<Pos>, cloud: seq<Double>, noCloud: seq<Double>)
    returns (window': seq<Pos>, cloud': seq<Double>, noCloud': seq<Double>)
    requires index == |visited|
    requires SampleLists(cloud, noCloud) == Collect(visited, uniform, scene, b)
    requires uniform ==> window == visited[LastReset(|visited|)..]
    ensures SampleLists(cloud', noCloud') == Collect(visited + [pos], uniform, scene, b)
    ensures uniform ==> window' == (visited + [pos])[LastReset(|visited| + 1)..]
  {
    ghost var ps := visited + [pos];
    WindowStep(visited, pos, uniform, window);
    CollectStep(visited, pos, uniform, scene, b);
    window', cloud', noCloud' := window, cloud, noCloud;
    if uniform {
      window' := window' + [pos];
    }
    if Selected(index, uniform) {
      var measure := if uniform then scene.windowMeasure(window', pos) else scene.measureAt(pos);
      assert measure == MeasureAt(ps, index, uniform, scene);
      var p := scene.pixelAt(pos);
      if ConsiderMeasure(measure, b, p) {
        if IsSampleCloud(p) {
          cloud' := cloud' + [measure];
        } else if IsSampleNoCloud(p) {
          noCloud' := noCloud' + [measure];
        }
      }
      if uniform {
        window' := [];
      }
    }
  }

  /**
   * The raster scan of a w by h raster. A running index counts positions;
   * per-pixel measures are sampled at the selected centre positions;
   * uniformity measures accumulate every position into a window, are
   * emitted at the selected positions and then reset the window.
   */
  method CollectSamples(w: nat, h: nat, uniform: bool, scene: Scene, b: Buckets)
    returns (cloudSampleList: seq<Double>, noCloudSampleList: seq<Double>)
    ensures SampleLists(cloudSampleList, noCloudSampleList) == Collect(ScanOrder(w, h), uniform, scene, b)
  {
    cloudSampleList, noCloudSampleList := [], [];
    var index := 0;
    var window: seq<Pos> := [];
    var y := 0;
    while y < h
      invariant 0 <= y <= h
      invariant index == |ScanOrder(w, y)|
      invariant SampleLists(cloudSampleList, noCloudSampleList) == Collect(ScanOrder(w, y), uniform, scene, b)
      invariant uniform ==> window == ScanOrder(w, y)[LastReset(index)..]
    {
      index, window, cloudSampleList, noCloudSampleList :=
        ScanRow(ScanOrder(w, y), index, w, y, uniform, scene, b, window, cloudSampleList, noCloudSampleList);
      assert ScanOrder(w, y + 1) == ScanOrder(w, y) + Row(w, y);
      y := y + 1;
    }
  }

  /** The inner loop of the scan: row y, continuing the running index, the window and the lists. */
  method ScanRow(ghost before: seq<Pos>, index: nat, w: nat, y: int, uniform: bool, scene: Scene, b: Buckets,
                 window: seq<Pos>, cloud: seq<Double>, noCloud: seq<Double>)
    returns (index': nat, window': seq<Pos>, cloud': seq<Double>, noCloud': seq<Double>)
    requires index == |before|
    requires SampleLists(cloud, noCloud) == Collect(before, uniform, scene, b)
    requires uniform ==> window == before[LastReset(index)..]
    ensures index' == |before + Row(w, y)|
    ensures SampleLists(cloud', noCloud') == Collect(before + Row(w, y), uniform, scene, b)
    ensures uniform ==> window' == (before + Row(w, y))[LastReset(index')..]
  {
    index', window', cloud', noCloud' := index, window, cloud, noCloud;
    ghost var visited := before;
    var x := 0;
    while x < w
      invariant 0 <= x <= w
      invariant visited == before + Row(w, y)[..x] && index' == |visited|
      invariant SampleLists(cloud', noCloud') == Collect(visited, uniform, scene, b)
      invariant uniform ==> window' == visited[LastReset(index')..]
    {
      var pos := (x, y);
      window', cloud', noCloud' := ScanPosition(visited, index', pos, uniform, scene, b, window', cloud', noCloud');
      visited := visited + [pos];
      assert Row(w, y)[..x + 1] == Row(w, y)[..x] + [pos];
      index' := index' + 1;
      x := x + 1;
    }
    assert Row(w, y)[..w] == Row(w, y);
  }

  // ---------------------------------------------------------------------
  // Building a sample and deciding the skill computation

  /**
   * Constants the operator refers to that are not part of this model,
   * together with its two user parameters.
   */
  datatype Config = Config(
    measureHeritage7: int, measureNew7: int, minSamplesPerHistogram: int,
    numberOfBins: int, equalizeHistograms: bool)

  predicate IsUniformityMeasure(config: Config, measureId: int) {
    measureId == config.measureHeritage7 || measureId == config.measureNew7
  }

  /** Boxes a list of samples as an array of non-null `Double` objects. */
  method ToBoxedArray(s: seq<Double>) returns (boxed: array<Option<Double>>)
    ensures fresh(boxed)
    ensures boxed.Length == |s|
    ensures forall k :: 0 <= k < |s| ==> boxed[k] == Some(s[k])
  {
    boxed := new Option<Double>[|s|](k requires 0 <= k < |s| => Some(s[k]));
  }

  /**
   * The sample of one measure: a fresh ModisSample for the ID, with the
   * cloudy and cloud-free samples the scan collects, unboxed into arrays.
   * `None` for an ID outside 1..14, where the constructor throws.
   */
  method GetModisSample(config: Config, measureId: int, w: nat, h: nat, scene: Scene, b: Buckets)
    returns (sample: Option<ModisSample>)
    ensures sample.None? <==> MeasureName(measureId).None?
    ensures sample.Some? ==>
      && fresh(sample.value)
      && sample.value.measureID == measureId
      && Some(sample.value.measureName) == MeasureName(measureId)
      && sample.value.cloudSamples != null && sample.value.noCloudSamples != null
      && fresh(sample.value.cloudSamples) && fresh(sample.value.noCloudSamples)
      && sample.value.cloudSamples != sample.value.noCloudSamples
      && sample.value.cloudSamples[..]
         == Collect(ScanOrder(w, h), IsUniformityMeasure(config, measureId), scene, b).cloud
      && sample.value.noCloudSamples[..]
         == Collect(ScanOrder(w, h), IsUniformityMeasure(config, measureId), scene, b).noCloud
  {
    sample := NewModisSample(measureId);
    if sample.None? {
      return;
    }
    var uniform := measureId == config.measureHeritage7 || measureId == config.measureNew7;
    var cloudSampleList, noCloudSampleList := CollectSamples(w, h, uniform, scene, b);
    var boxedCloud := ToBoxedArray(cloudSampleList);
    var cloudSampleArray := Utils.GetAsPrimitiveDoubles(boxedCloud);
    var boxedNoCloud := ToBoxedArray(noCloudSampleList);
    var noCloudSampleArray := Utils.GetAsPrimitiveDoubles(boxedNoCloud);
    assert cloudSampleArray[..] == cloudSampleList;
    assert noCloudSampleArray[..] == noCloudSampleList;
    sample.value.SetCloudSamples(cloudSampleArray);
    sample.value.SetNoCloudSamples(noCloudSampleArray);
  }

  /** Which histograms the skill is computed from. */
  datatype HistogramPlan =
    | EqualWidth(numBins: int)
    | Equalized

  /**
   * The outcome of the skill computation: undefined (NaN) for empty or too
   * small sample sets, otherwise the histograms it is computed from, over
   * the common range [min, max] of both sample sets.
   */
  datatype SkillOutcome =
    | Undefined
    | Histograms(plan: HistogramPlan, min: Double, max: Double)

  /** The undefined-skill guard: either set empty or below the minimum size. */
  predicate TooFewSamples(config: Config, numCloud: int, numNoCloud: int) {
    numCloud == 0 || numNoCloud == 0 ||
    numCloud < config.minSamplesPerHistogram || numNoCloud < config.minSamplesPerHistogram
  }

  /**
   * The decision part of the skill computation. The optimal bin count of
   * the merged samples is given as a function, and whether building the
   * equalized histograms throws as a flag.
   */
  method GetDistinctionSkill(config: Config, sample: ModisSample,
                             optimalNumberOfBins: seq<Double> -> int, equalizationThrows: bool)
    returns (outcome: SkillOutcome)
    requires sample.cloudSamples != null && sample.noCloudSamples != null
    ensures outcome.Undefined?
            <==> TooFewSamples(config, sample.cloudSamples.Length, sample.noCloudSamples.Length)
    ensures outcome.Histograms? ==>
      && outcome.min == JavaMin(SampleMin(sample.cloudSamples[..]), SampleMin(sample.noCloudSamples[..]))
      && outcome.max == JavaMax(SampleMax(sample.cloudSamples[..]), SampleMax(sample.noCloudSamples[..]))
    ensures outcome.Histograms? ==>
      ((outcome.plan == Equalized) <==>
         (config.equalizeHistograms && !equalizationThrows
          && optimalNumberOfBins(sample.cloudSamples[..] + sample.noCloudSamples[..]) > 0))
    ensures outcome.Histograms? && outcome.plan != Equalized ==> outcome.plan == EqualWidth(config.numberOfBins)
  {
    var cloudSamples := sample.cloudSamples;
    var numCloud := cloudSamples.Length;
    var noCloudSamples := sample.noCloudSamples;
    var numNoCloud := noCloudSamples.Length;

    if numCloud == 0 || numNoCloud == 0 {
      return Undefined;
    }
    if numCloud < config.minSamplesPerHistogram || numNoCloud < config.minSamplesPerHistogram {
      return Undefined;
    }

    var cloudSampleMax := SampleMax(cloudSamples[..]);
    var cloudSampleMin := SampleMin(cloudSamples[..]);
    var noCloudSampleMax := SampleMax(noCloudSamples[..]);
    var noCloudSampleMin := SampleMin(noCloudSamples[..]);

    var min := JavaMin(cloudSampleMin, noCloudSampleMin);
    var max := JavaMax(cloudSampleMax, noCloudSampleMax);

    var plan := EqualWidth(config.numberOfBins);
    if config.equalizeHistograms {
      var allSamples := MergeSamples(cloudSamples, numCloud, noCloudSamples, numNoCloud);
      assert cloudSamples[..numCloud] == cloudSamples[..] && noCloudSamples[..numNoCloud] == noCloudSamples[..];
      var nBins := optimalNumberOfBins(allSamples[..]);
      if nBins > 0 && !equalizationThrows {
        plan := Equalized;
      }
    }
    return Histograms(plan, min, max);
  }

  /**
   * The common range covers both sample sets: when no sample is NaN, every
   * cloudy and every cloud-free sample lies within [min, max].
   */
  lemma RangeCoversSamples(cloud: seq<Double>, noCloud: seq<Double>)
    requires |cloud| > 0 && |noCloud| > 0 && NoNaN(cloud) && NoNaN(noCloud)
    ensures forall i :: 0 <= i < |cloud| ==>
      Le(JavaMin(SampleMin(cloud), SampleMin(noCloud)), cloud[i])
      && Le(cloud[i], JavaMax(SampleMax(cloud), SampleMax(noCloud)))
    ensures forall i :: 0 <= i < |noCloud| ==>
      Le(JavaMin(SampleMin(cloud), SampleMin(noCloud)), noCloud[i])
      && Le(noCloud[i], JavaMax(SampleMax(cloud), SampleMax(noCloud)))
  {
    var lo, hi := JavaMin(SampleMin(cloud), SampleMin(noCloud)), JavaMax(SampleMax(cloud), SampleMax(noCloud));
    forall i | 0 <= i < |cloud|
      ensures Le(lo, cloud[i]) && Le(cloud[i], hi)
    {
      LeTransitive(lo, SampleMin(cloud), cloud[i]);
      LeTransitive(cloud[i], SampleMax(cloud), hi);
    }
    forall i | 0 <= i < |noCloud|
      ensures Le(lo, noCloud[i]) && Le(noCloud[i], hi)
    {
      LeTransitive(lo, SampleMin(noCloud), noCloud[i]);
      LeTransitive(noCloud[i], SampleMax(noCloud), hi);
    }
  }

  lemma LeTransitive(a: Double, b: Double, c: Double)
    requires Le(a, b) && Le(b, c)
    ensures Le(a, c)
  {
    LtIsStrictOrder(a, b, c);
    LtIsStrictOrder(c, a, b);
    LtIsStrictOrder(b, c, a);
  }
}
