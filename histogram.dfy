/**
 * The histogram of the distance engine: bin counts over a value range (the
 * state of the inherited base histogram), equal-width bin borders, optional
 * unequal bin borders, and the smoothed density (pdf) and normalised
 * cumulative distribution (cdf) computed from the counts.
 */
module Histogram {
  import opened Numerics
  import opened Cumulative

  /**
   * The reference bin count in the smoothing denominator. It is a fixed
   * constant, independent of how many bins a histogram actually has.
   */
  const NUM_BINS: nat := 20

  // ---------------------------------------------------------------------
  // Smoothed density

  /** The additive constant every bin receives: alpha / (n + alpha * NUM_BINS). */
  function Smoothing(alpha: nat, n: nat): (r: real)
    requires n > 0
    ensures alpha == 0 ==> r == 0.0
    ensures alpha > 0 ==> 0.0 < r < 1.0 / NUM_BINS as real
  {
    SmoothingBounds(alpha, n);
    alpha as real / (n + alpha * NUM_BINS) as real
  }

  lemma SmoothingBounds(alpha: nat, n: nat)
    requires n > 0
    ensures alpha > 0 ==> 0.0 < alpha as real / (n + alpha * NUM_BINS) as real < 1.0 / NUM_BINS as real
  {
    if alpha > 0 {
      var d := (n + alpha * NUM_BINS) as real;
      assert alpha as real * NUM_BINS as real < d;
      assert alpha as real / d < 1.0 / NUM_BINS as real;
    }
  }

  /** The smoothed density of a histogram: its counts, each raised by the smoothing constant. */
  function SmoothedPdf(counts: seq<int>, alpha: nat): (pdf: seq<real>)
    ensures |pdf| == |counts|
  {
    seq(|counts|, i requires 0 <= i < |counts| => counts[i] as real + Smoothing(alpha, |counts|))
  }

  predicate NonNegativeCounts(counts: seq<int>) {
    forall i :: 0 <= i < |counts| ==> counts[i] >= 0
  }

  /** Sum of integer counts, accumulated from the front. */
  function IntSum(s: seq<int>): int
    decreases |s|
  {
    if |s| == 0 then 0 else IntSum(s[..|s| - 1]) + s[|s| - 1]
  }

  /** Without smoothing the density is the counts themselves. */
  lemma PdfWithoutSmoothing(counts: seq<int>)
    ensures forall i :: 0 <= i < |counts| ==> SmoothedPdf(counts, 0)[i] == counts[i] as real
  {
    forall i | 0 <= i < |counts|
      ensures SmoothedPdf(counts, 0)[i] == counts[i] as real
    {
      assert Smoothing(0, |counts|) == 0.0;
    }
  }

  /** With positive alpha every bin of the density of non-negative counts is strictly positive. */
  lemma PdfPositive(counts: seq<int>, alpha: nat)
    requires alpha > 0 && NonNegativeCounts(counts)
    ensures AllPositive(SmoothedPdf(counts, alpha))
  {
    var pdf := SmoothedPdf(counts, alpha);
    forall i | 0 <= i < |counts|
      ensures pdf[i] > 0.0
    {
      assert Smoothing(alpha, |counts|) > 0.0;
      assert pdf[i] == counts[i] as real + Smoothing(alpha, |counts|);
    }
  }

  /** Without smoothing the density of non-negative counts is non-negative and has the counts' total. */
  lemma UnsmoothedPdfTotal(counts: seq<int>)
    requires NonNegativeCounts(counts) && 0 < |counts|
    ensures NonNegative(SmoothedPdf(counts, 0))
    ensures Sum(SmoothedPdf(counts, 0)) == IntSum(counts) as real
  {
    var pdf := SmoothedPdf(counts, 0);
    PdfWithoutSmoothing(counts);
    PdfMass(counts, 0, |counts|);
    assert Smoothing(0, |counts|) == 0.0;
    SumWhole(pdf);
    assert counts[..|counts|] == counts;
  }

  /** The density's total mass: the total count plus n times the smoothing constant. */
  lemma {:induction false} PdfMass(counts: seq<int>, alpha: nat, k: nat)
    requires 0 < |counts| && k <= |counts|
    ensures Sum(SmoothedPdf(counts, alpha)[..k]) == IntSum(counts[..k]) as real + k as real * Smoothing(alpha, |counts|)
  {
    var pdf := SmoothedPdf(counts, alpha);
    if k == 0 {
      assert pdf[..0] == [] && counts[..0] == [];
    } else {
      var c := Smoothing(alpha, |counts|);
      PdfMass(counts, alpha, k - 1);
      SumStep(pdf, k - 1);
      assert pdf[k - 1] == counts[k - 1] as real + c;
      assert counts[..k][..k - 1] == counts[..k - 1];
      assert IntSum(counts[..k]) == IntSum(counts[..k - 1]) + counts[k - 1];
      ScaleStep((k - 1) as real, k as real, c);
    }
  }

  lemma ScaleStep(x: real, y: real, c: real)
    requires y == x + 1.0
    ensures x * c + c == y * c
  {
  }

  /**
   * With alpha > 0 and non-negative counts the cdf is well defined: it
   * starts at 0, ends at 1 and strictly increases.
   */
  lemma SmoothedCdfWellFormed(counts: seq<int>, alpha: nat, i: nat, j: nat)
    requires alpha > 0 && NonNegativeCounts(counts)
    requires i < j <= |counts|
    ensures Sum(SmoothedPdf(counts, alpha)) > 0.0
    ensures CdfOf(SmoothedPdf(counts, alpha))[0] == Finite(0.0)
    ensures CdfOf(SmoothedPdf(counts, alpha))[|counts|] == Finite(1.0)
    ensures CdfOf(SmoothedPdf(counts, alpha))[i].v < CdfOf(SmoothedPdf(counts, alpha))[j].v
  {
    var pdf := SmoothedPdf(counts, alpha);
    PdfPositive(counts, alpha);
    CdfStrictlyIncreasing(pdf, i, j);
    CdfEndpoints(pdf);
  }

  /**
   * Without smoothing, non-negative counts with at least one sample give a
   * cdf from 0 to 1 that never decreases; without any sample every entry is NaN.
   */
  lemma UnsmoothedCdf(counts: seq<int>, i: nat, j: nat)
    requires NonNegativeCounts(counts) && 0 < |counts|
    requires i <= j <= |counts|
    ensures IntSum(counts) > 0 ==> CdfOf(SmoothedPdf(counts, 0))[0] == Finite(0.0)
    ensures IntSum(counts) > 0 ==> CdfOf(SmoothedPdf(counts, 0))[|counts|] == Finite(1.0)
    ensures IntSum(counts) > 0 ==> CdfOf(SmoothedPdf(counts, 0))[i].v <= CdfOf(SmoothedPdf(counts, 0))[j].v
    ensures IntSum(counts) == 0 ==> CdfOf(SmoothedPdf(counts, 0))[i].NaN?
  {
    var pdf := SmoothedPdf(counts, 0);
    UnsmoothedPdfTotal(counts);
    if IntSum(counts) > 0 {
      CdfEndpoints(pdf);
      CdfMonotone(pdf, i, j);
    } else if IntSum(counts) == 0 {
      CdfOfEmptyHistogram(pdf, i);
    }
  }

  /** The six prefix sums of a six-bin density, unfolded. */
  lemma SixBinPrefixSums(s: seq<real>)
    requires |s| == 6
    ensures Sum(s[..0]) == 0.0
    ensures Sum(s[..1]) == s[0]
    ensures Sum(s[..2]) == s[0] + s[1]
    ensures Sum(s[..3]) == s[0] + s[1] + s[2]
    ensures Sum(s[..4]) == s[0] + s[1] + s[2] + s[3]
    ensures Sum(s[..5]) == s[0] + s[1] + s[2] + s[3] + s[4]
    ensures Sum(s) == s[0] + s[1] + s[2] + s[3] + s[4] + s[5]
  {
    assert s[..0] == [];
    SumStep(s, 0);
    SumStep(s, 1);
    SumStep(s, 2);
    SumStep(s, 3);
    SumStep(s, 4);
    SumStep(s, 5);
    SumWhole(s);
  }

  /** A cdf entry whose prefix sum and total are known. */
  lemma CdfEntryIs(s: seq<real>, i: nat, prefix: real, total: real, v: real)
    requires i <= |s| && Sum(s[..i]) == prefix && Sum(s) == total && total != 0.0 && v == prefix / total
    ensures CdfOf(s)[i] == Finite(v)
  {
    CdfEntry(s, i);
  }

  /** The six-bin example with counts 2, 1, 3, 2, 3, 1 and no smoothing. */
  lemma ZeroAlphaExample()
    ensures SmoothedPdf([2, 1, 3, 2, 3, 1], 0) == [2.0, 1.0, 3.0, 2.0, 3.0, 1.0]
    ensures CdfOf(SmoothedPdf([2, 1, 3, 2, 3, 1], 0))
            == [Finite(0.0), Finite(1.0 / 6.0), Finite(1.0 / 4.0), Finite(1.0 / 2.0),
                Finite(2.0 / 3.0), Finite(11.0 / 12.0), Finite(1.0)]
  {
    PdfWithoutSmoothing([2, 1, 3, 2, 3, 1]);
    assert SmoothedPdf([2, 1, 3, 2, 3, 1], 0) == [2.0, 1.0, 3.0, 2.0, 3.0, 1.0];
    ZeroAlphaCdf([2.0, 1.0, 3.0, 2.0, 3.0, 1.0]);
  }

  lemma ZeroAlphaCdf(pdf: seq<real>)
    requires pdf == [2.0, 1.0, 3.0, 2.0, 3.0, 1.0]
    ensures CdfOf(pdf)
            == [Finite(0.0), Finite(1.0 / 6.0), Finite(1.0 / 4.0), Finite(1.0 / 2.0),
                Finite(2.0 / 3.0), Finite(11.0 / 12.0), Finite(1.0)]
  {
    SixBinPrefixSums(pdf);
    assert pdf[..6] == pdf;
    CdfEntryIs(pdf, 0, 0.0, 12.0, 0.0);
    CdfEntryIs(pdf, 1, 2.0, 12.0, 1.0 / 6.0);
    CdfEntryIs(pdf, 2, 3.0, 12.0, 1.0 / 4.0);
    CdfEntryIs(pdf, 3, 6.0, 12.0, 1.0 / 2.0);
    CdfEntryIs(pdf, 4, 8.0, 12.0, 2.0 / 3.0);
    CdfEntryIs(pdf, 5, 11.0, 12.0, 11.0 / 12.0);
    CdfEntryIs(pdf, 6, 12.0, 12.0, 1.0);
    var r := CdfOf(pdf);
    assert r == [r[0], r[1], r[2], r[3], r[4], r[5], r[6]];
  }

  /** The same example with alpha = 1: every bin gains 1/26 and the cdf is renormalised to the total 318/26. */
  lemma UnitAlphaExample()
    ensures Smoothing(1, 6) == 1.0 / 26.0
    ensures CdfOf(SmoothedPdf([2, 1, 3, 2, 3, 1], 1))
            == [Finite(0.0), Finite(53.0 / 318.0), Finite(80.0 / 318.0), Finite(1.0 / 2.0),
                Finite(2.0 / 3.0), Finite(291.0 / 318.0), Finite(1.0)]
  {
    assert Smoothing(1, 6) == 1.0 / 26.0;
    assert SmoothedPdf([2, 1, 3, 2, 3, 1], 1)
           == [53.0 / 26.0, 27.0 / 26.0, 79.0 / 26.0, 53.0 / 26.0, 79.0 / 26.0, 27.0 / 26.0];
    UnitAlphaCdf([53.0 / 26.0, 27.0 / 26.0, 79.0 / 26.0, 53.0 / 26.0, 79.0 / 26.0, 27.0 / 26.0]);
  }

  lemma UnitAlphaCdf(pdf: seq<real>)
    requires pdf == [53.0 / 26.0, 27.0 / 26.0, 79.0 / 26.0, 53.0 / 26.0, 79.0 / 26.0, 27.0 / 26.0]
    ensures CdfOf(pdf)
            == [Finite(0.0), Finite(53.0 / 318.0), Finite(80.0 / 318.0), Finite(1.0 / 2.0),
                Finite(2.0 / 3.0), Finite(291.0 / 318.0), Finite(1.0)]
  {
    SixBinPrefixSums(pdf);
    assert pdf[..6] == pdf;
    var t := 318.0 / 26.0;
    CdfEntryIs(pdf, 0, 0.0, t, 0.0);
    CdfEntryIs(pdf, 1, 53.0 / 26.0, t, 53.0 / 318.0);
    CdfEntryIs(pdf, 2, 80.0 / 26.0, t, 80.0 / 318.0);
    CdfEntryIs(pdf, 3, 159.0 / 26.0, t, 1.0 / 2.0);
    CdfEntryIs(pdf, 4, 212.0 / 26.0, t, 2.0 / 3.0);
    CdfEntryIs(pdf, 5, 291.0 / 26.0, t, 291.0 / 318.0);
    CdfEntryIs(pdf, 6, t, t, 1.0);
    var r := CdfOf(pdf);
    assert r == [r[0], r[1], r[2], r[3], r[4], r[5], r[6]];
  }

  // ---------------------------------------------------------------------
  // Equal-width bin borders

  /** Border i of n equal-width bins over [min, max], evaluated as `min + i * (max - min) / n`. */
  function EqualBinBorder(min: Double, max: Double, n: nat, i: nat): Double {
    Add(min, Div(Mul(Finite(i as real), Sub(max, min)), Finite(n as real)))
  }

  function EqualBinBorders(min: Double, max: Double, n: nat): (borders: seq<Double>)
    ensures |borders| == n + 1
  {
    seq(n + 1, i requires 0 <= i <= n => EqualBinBorder(min, max, n, i))
  }

  /** Border i over a finite range with at least one bin, as a real. */
  lemma EqualBorderAt(min: Double, max: Double, n: nat, i: nat)
    requires min.Finite? && max.Finite? && n > 0 && i <= n
    ensures EqualBinBorders(min, max, n)[i] == Finite(min.v + i as real * (max.v - min.v) / n as real)
  {
    assert EqualBinBorders(min, max, n)[i] == EqualBinBorder(min, max, n, i);
    var p := i as real * (max.v - min.v);
    assert Mul(Finite(i as real), Sub(max, min)) == Finite(p);
    assert Div(Finite(p), Finite(n as real)) == Finite(p / n as real);
  }

  /** Over a finite range with at least one bin the borders run from min to max in steps of (max - min) / n. */
  lemma EqualBordersEvenlySpaced(min: Double, max: Double, n: nat, i: nat)
    requires min.Finite? && max.Finite? && n > 0 && i < n
    ensures EqualBinBorders(min, max, n)[0] == min
    ensures EqualBinBorders(min, max, n)[n] == max
    ensures EqualBinBorders(min, max, n)[i + 1].v - EqualBinBorders(min, max, n)[i].v
            == (max.v - min.v) / n as real
  {
    EqualBorderFirst(min, max, n);
    EqualBorderLast(min, max, n);
    EqualBorderStep(min, max, n, i);
  }

  lemma EqualBorderFirst(min: Double, max: Double, n: nat)
    requires min.Finite? && max.Finite? && n > 0
    ensures EqualBinBorders(min, max, n)[0] == min
  {
    EqualBorderAt(min, max, n, 0);
    FractionZero(max.v - min.v, n as real);
  }

  lemma EqualBorderLast(min: Double, max: Double, n: nat)
    requires min.Finite? && max.Finite? && n > 0
    ensures EqualBinBorders(min, max, n)[n] == max
  {
    EqualBorderAt(min, max, n, n);
    FractionWhole(max.v - min.v, n as real);
  }

  lemma EqualBorderStep(min: Double, max: Double, n: nat, i: nat)
    requires min.Finite? && max.Finite? && n > 0 && i < n
    ensures EqualBinBorders(min, max, n)[i + 1].v - EqualBinBorders(min, max, n)[i].v
            == (max.v - min.v) / n as real
  {
    var u := BorderValue(min, max, n, i);
    var v := BorderValue(min, max, n, i + 1);
    FractionStep(u, v, min.v, max.v - min.v, n as real, i as real, (i + 1) as real);
  }

  /** The real value of border i, named so that callers see only the value. */
  lemma BorderValue(min: Double, max: Double, n: nat, i: nat) returns (u: real)
    requires min.Finite? && max.Finite? && n > 0 && i <= n
    ensures EqualBinBorders(min, max, n)[i] == Finite(u)
    ensures u == min.v + i as real * (max.v - min.v) / n as real
  {
    EqualBorderAt(min, max, n, i);
    u := min.v + i as real * (max.v - min.v) / n as real;
  }

  lemma FractionZero(w: real, d: real)
    requires d > 0.0
    ensures 0 as real * w / d == 0.0
  {
  }

  lemma FractionWhole(w: real, d: real)
    requires d > 0.0
    ensures d * w / d == w
  {
  }

  lemma FractionStep(u: real, v: real, m: real, w: real, d: real, x: real, y: real)
    requires d > 0.0 && y == x + 1.0
    requires u == m + x * w / d && v == m + y * w / d
    ensures v - u == w / d
  {
    assert y * w / d == x * w / d + w / d;
  }

  /** The borders of six equal-width bins over [-2, 3]. */
  lemma SixBinBordersExample()
    ensures EqualBinBorders(Finite(-2.0), Finite(3.0), 6)
            == [Finite(-2.0), Finite(-7.0 / 6.0), Finite(-1.0 / 3.0), Finite(1.0 / 2.0),
                Finite(4.0 / 3.0), Finite(13.0 / 6.0), Finite(3.0)]
  {
    var b := EqualBinBorders(Finite(-2.0), Finite(3.0), 6);
    SixBinBorder(0, -2.0);
    SixBinBorder(1, -7.0 / 6.0);
    SixBinBorder(2, -1.0 / 3.0);
    SixBinBorder(3, 1.0 / 2.0);
    SixBinBorder(4, 4.0 / 3.0);
    SixBinBorder(5, 13.0 / 6.0);
    SixBinBorder(6, 3.0);
    assert b == [b[0], b[1], b[2], b[3], b[4], b[5], b[6]];
  }

  /** Border i of six equal-width bins over [-2, 3] is -2 + 5i/6. */
  lemma SixBinBorder(i: nat, v: real)
    requires i <= 6 && v == -2.0 + i as real * 5.0 / 6.0
    ensures EqualBinBorders(Finite(-2.0), Finite(3.0), 6)[i] == Finite(v)
  {
    EqualBorderAt(Finite(-2.0), Finite(3.0), 6, i);
  }

  /** With no bins the single border is 0/0, i.e. NaN. */
  lemma NoBinsBorderIsNaN(min: Double, max: Double)
    ensures EqualBinBorders(min, max, 0) == [NaN]
  {
    assert EqualBinBorders(min, max, 0)[0] == EqualBinBorder(min, max, 0, 0);
  }

  /** Fills a fresh array with the n + 1 equal-width borders of n bins. */
  method ComputeEqualBinBorders(min: Double, max: Double, n: nat) returns (borders: array<Double>)
    ensures fresh(borders)
    ensures borders[..] == EqualBinBorders(min, max, n)
  {
    borders := new Double[n + 1](_ => Finite(0.0));
    var i := 0;
    while i < borders.Length
      invariant 0 <= i <= borders.Length
      invariant forall k :: 0 <= k < i ==> borders[k] == EqualBinBorder(min, max, n, k)
    {
      borders[i] := Add(min, Div(Mul(Finite(i as real), Sub(max, min)), Finite((borders.Length - 1) as real)));
      i := i + 1;
    }
  }

  // ---------------------------------------------------------------------
  // Unequal bins

  /**
   * The border scan started at index i: i - 1 for the first border from i on
   * that lies above the value, otherwise the last index of the borders.
   */
  function UnequalBinIndexFrom(value: Double, borders: seq<Double>, i: nat): (r: int)
    requires 1 <= i
    ensures i >= |borders| ==> r == |borders| - 1
    ensures i < |borders| ==> i - 1 <= r < |borders|
    ensures forall j :: i <= j <= r ==> !Lt(value, borders[j])
    ensures 0 <= r < |borders| - 1 ==> Lt(value, borders[r + 1])
    decreases |borders| - i
  {
    if i >= |borders| then |borders| - 1
    else if Lt(value, borders[i]) then i - 1
    else UnequalBinIndexFrom(value, borders, i + 1)
  }

  /**
   * The bin of a value among unequal borders: the index before the first
   * border above the value, scanning from border 1; the last border index
   * when no border lies above it; -1 when there are no borders at all.
   */
  function UnequalBinIndex(value: Double, borders: seq<Double>): (r: int)
    ensures |borders| == 0 ==> r == -1
    ensures |borders| > 0 ==> 0 <= r < |borders|
    ensures forall j :: 1 <= j <= r ==> !Lt(value, borders[j])
    ensures r < |borders| - 1 ==> Lt(value, borders[r + 1])
  {
    UnequalBinIndexFrom(value, borders, 1)
  }

  predicate StrictlyIncreasing(borders: seq<Double>) {
    forall i, j :: 0 <= i < j < |borders| ==> Lt(borders[i], borders[j])
  }

  /**
   * For strictly increasing borders and a value between the first and the
   * last border, the bin found is the one whose borders enclose the value:
   * borders[r] <= value < borders[r + 1].
   */
  lemma UnequalBinEnclosesValue(value: Double, borders: seq<Double>)
    requires StrictlyIncreasing(borders) && |borders| >= 2
    requires Le(borders[0], value) && Lt(value, borders[|borders| - 1])
    ensures 0 <= UnequalBinIndex(value, borders) < |borders| - 1
    ensures Le(borders[UnequalBinIndex(value, borders)], value)
    ensures Lt(value, borders[UnequalBinIndex(value, borders) + 1])
  {
    var r := UnequalBinIndex(value, borders);
    if r > 0 {
      assert !Lt(value, borders[r]);
    }
  }

  /** The border scan of the source, with its early return. */
  method FindUnequalBinIndex(value: Double, binBorders: seq<Double>) returns (index: int)
    ensures index == UnequalBinIndex(value, binBorders)
  {
    var i := 1;
    while i < |binBorders|
      invariant 1 <= i
      invariant UnequalBinIndexFrom(value, binBorders, i) == UnequalBinIndex(value, binBorders)
    {
      if Lt(value, binBorders[i]) {
        return i - 1;
      }
      i := i + 1;
    }
    return |binBorders| - 1;
  }

  /** The parameters of one aggregation into unequal bins. */
  datatype Binning = Binning(borders: seq<Double>, numBins: int, min: Double, max: Double)

  /** A value is counted when it is finite and within [min, max]. */
  predicate Accepted(v: Double, g: Binning) {
    v.Finite? && Le(g.min, v) && Le(v, g.max)
  }

  /** The bin an accepted value goes to: the scanned index, with index numBins folded into the last bin. */
  function BinOf(v: Double, g: Binning): int {
    var k := UnequalBinIndex(v, g.borders);
    if k == g.numBins then g.numBins - 1 else k
  }

  /** An accepted value fits when its bin exists; otherwise the source fails with an index error. */
  predicate AllFit(values: seq<Double>, g: Binning) {
    forall i :: 0 <= i < |values| ==> (Accepted(values[i], g) ==> 0 <= BinOf(values[i], g) < g.numBins)
  }

  /**
   * With one border more than there are bins, as the operator builds its
   * histograms, every accepted value has a bin, so each one raises exactly
   * one bin by one.
   */
  lemma BordersFitBins(values: seq<Double>, g: Binning)
    requires g.numBins >= 1 && |g.borders| == g.numBins + 1
    ensures AllFit(values, g)
    ensures IntSum(CountsOf(values, g)) == AcceptedCount(values, g)
  {
    CountsTotal(values, g);
  }

  /** How many values are accepted into bin b. */
  function BinCount(values: seq<Double>, b: int, g: Binning): nat
    decreases |values|
  {
    if |values| == 0 then 0
    else
      var v := values[|values| - 1];
      BinCount(values[..|values| - 1], b, g) + (if Accepted(v, g) && BinOf(v, g) == b then 1 else 0)
  }

  /** The counts of the histogram of the values, one entry per bin. */
  function CountsOf(values: seq<Double>, g: Binning): (counts: seq<int>)
    requires g.numBins >= 0
    ensures |counts| == g.numBins
  {
    seq(g.numBins, b requires 0 <= b < g.numBins => BinCount(values, b, g))
  }

  /** How many values are accepted at all. */
  function AcceptedCount(values: seq<Double>, g: Binning): nat
    decreases |values|
  {
    if |values| == 0 then 0
    else AcceptedCount(values[..|values| - 1], g) + (if Accepted(values[|values| - 1], g) then 1 else 0)
  }

  /** The sum of the first k bin counts. */
  function BinTotal(values: seq<Double>, g: Binning, k: nat): nat
  {
    if k == 0 then 0 else BinTotal(values, g, k - 1) + BinCount(values, k - 1, g)
  }

  /** Adding one value raises the first k bins together by one exactly when it is accepted into one of them. */
  lemma {:induction false} BinTotalStep(values: seq<Double>, v: Double, g: Binning, k: nat)
    ensures BinTotal(values + [v], g, k)
            == BinTotal(values, g, k) + (if Accepted(v, g) && 0 <= BinOf(v, g) < k then 1 else 0)
  {
    assert (values + [v])[..|values|] == values;
    if k > 0 {
      BinTotalStep(values, v, g, k - 1);
    }
  }

  /** When every accepted value fits, the counts add up to the number of accepted values. */
  lemma {:induction false} BinTotalIsAcceptedCount(values: seq<Double>, g: Binning)
    requires g.numBins >= 0 && AllFit(values, g)
    ensures BinTotal(values, g, g.numBins) == AcceptedCount(values, g)
    decreases |values|
  {
    if |values| > 0 {
      var init, v := values[..|values| - 1], values[|values| - 1];
      assert init + [v] == values;
      assert AllFit(init, g);
      BinTotalIsAcceptedCount(init, g);
      BinTotalStep(init, v, g, g.numBins);
    } else {
      BinTotalOfNothing(values, g, g.numBins);
    }
  }

  lemma {:induction false} BinTotalOfNothing(values: seq<Double>, g: Binning, k: nat)
    requires |values| == 0
    ensures BinTotal(values, g, k) == 0
  {
    if k > 0 {
      BinTotalOfNothing(values, g, k - 1);
    }
  }

  /** Each accepted value raises exactly one bin: the counts sum to the number of accepted values. */
  lemma CountsTotal(values: seq<Double>, g: Binning)
    requires g.numBins >= 0 && AllFit(values, g)
    ensures IntSum(CountsOf(values, g)) == AcceptedCount(values, g)
  {
    var counts := CountsOf(values, g);
    PrefixIntSumIsBinTotal(values, g, g.numBins);
    assert counts[..g.numBins] == counts;
    BinTotalIsAcceptedCount(values, g);
  }

  lemma {:induction false} PrefixIntSumIsBinTotal(values: seq<Double>, g: Binning, k: nat)
    requires 0 <= k <= g.numBins
    ensures IntSum(CountsOf(values, g)[..k]) == BinTotal(values, g, k)
  {
    var counts := CountsOf(values, g);
    if k == 0 {
      assert counts[..0] == [];
    } else {
      PrefixIntSumIsBinTotal(values, g, k - 1);
      assert counts[..k][..k - 1] == counts[..k - 1];
    }
  }

  /** One more value: it either leaves the counts alone or raises its own bin by one. */
  lemma HistogramStep(vs: seq<Double>, v: Double, g: Binning)
    requires g.numBins >= 0
    ensures AllFit(vs + [v], g) <==> AllFit(vs, g) && (Accepted(v, g) ==> 0 <= BinOf(v, g) < g.numBins)
    ensures !Accepted(v, g) ==> CountsOf(vs + [v], g) == CountsOf(vs, g)
    ensures Accepted(v, g) && 0 <= BinOf(v, g) < g.numBins ==>
      CountsOf(vs + [v], g) == CountsOf(vs, g)[BinOf(v, g) := CountsOf(vs, g)[BinOf(v, g)] + 1]
  {
    var ws := vs + [v];
    assert ws[..|vs|] == vs;
    if AllFit(ws, g) {
      assert ws[|vs|] == v;
      assert forall i :: 0 <= i < |vs| ==> ws[i] == vs[i];
    }
    if AllFit(vs, g) && (Accepted(v, g) ==> 0 <= BinOf(v, g) < g.numBins) {
      forall i | 0 <= i < |ws|
        ensures Accepted(ws[i], g) ==> 0 <= BinOf(ws[i], g) < g.numBins
      {
        if i < |vs| {
          assert ws[i] == vs[i];
        }
      }
    }
    forall b | 0 <= b < g.numBins
      ensures BinCount(ws, b, g) == BinCount(vs, b, g) + (if Accepted(v, g) && BinOf(v, g) == b then 1 else 0)
    {
    }
  }

  /** Sum of two count vectors added bin by bin. */
  lemma {:induction false} IntSumAdd(a: seq<int>, b: seq<int>, c: seq<int>)
    requires |a| == |b| == |c|
    requires forall k :: 0 <= k < |c| ==> c[k] == a[k] + b[k]
    ensures IntSum(c) == IntSum(a) + IntSum(b)
    decreases |c|
  {
    if |c| > 0 {
      var n := |c| - 1;
      IntSumAdd(a[..n], b[..n], c[..n]);
    }
  }

  /**
   * Counts the values into numBins unequal bins. Values that are NaN,
   * infinite or outside [min, max] are skipped. An accepted value whose bin
   * does not exist makes the source throw an index error, which is `None`
   * here. The source builds a fresh count array and wraps it in a new
   * histogram; the counts are returned as a sequence.
   */
  method ComputeHistogramUnequalBins(values: array<Double>, binBorders: seq<Double>, numBins: nat,
                                     min: Double, max: Double)
    returns (counts: Option<seq<int>>)
    ensures counts.Some? <==> AllFit(values[..], Binning(binBorders, numBins, min, max))
    ensures counts.Some? ==> counts.value == CountsOf(values[..], Binning(binBorders, numBins, min, max))
  {
    ghost var g := Binning(binBorders, numBins, min, max);
    var binVals := new int[numBins](_ => 0);
    var i := 0;
    while i < values.Length
      invariant 0 <= i <= values.Length
      invariant AllFit(values[..i], g)
      invariant binVals[..] == CountsOf(values[..i], g)
    {
      var value := values[i];
      assert values[..i + 1] == values[..i] + [value];
      HistogramStep(values[..i], value, g);
      if value.Finite? {
        if Le(min, value) && Le(value, max) {
          var binIndex := FindUnequalBinIndex(value, binBorders);
          if binIndex == numBins {
            binIndex := numBins - 1;
          }
          if !(0 <= binIndex < binVals.Length) {
            assert !AllFit(values[..], g) by {
              assert values[..][i] == value;
            }
            return None;
          }
          binVals[binIndex] := binVals[binIndex] + 1;
        }
      }
      i := i + 1;
    }
    assert values[..] == values[..i];
    return Some(binVals[..]);
  }

  /** Sum of the values at indices max(0, start) <= i < min(length, end); 0 for an empty range. */
  function RangeSum(s: seq<real>, startIndex: int, endIndex: int): real {
    var lo := if startIndex < 0 then 0 else startIndex;
    var hi := if endIndex < |s| then endIndex else |s|;
    if lo < hi then Sum(s[lo..hi]) else 0.0
  }

  /** The histogram's own running sum over an index range, clipped to the array. */
  method GetCumulativeSum(values: array<real>, startIndex: int, endIndex: int) returns (sum: real)
    ensures sum == RangeSum(values[..], startIndex, endIndex)
  {
    sum := 0.0;
    var start := if 0 < startIndex then startIndex else 0;
    var end := if values.Length < endIndex then values.Length else endIndex;
    if start < end {
      var i := start;
      assert values[start..start] == [];
      while i < end
        invariant start <= i <= end
        invariant sum == Sum(values[start..i])
      {
        assert values[start..i + 1][..i - start] == values[start..i];
        sum := sum + values[i];
        i := i + 1;
      }
    }
  }

  // ---------------------------------------------------------------------
  // The histogram object

  /** Adds the counts to the array, bin by bin. */
  method AddInto(a: array<int>, counts: seq<int>)
    requires |counts| == a.Length
    modifies a
    ensures forall k :: 0 <= k < a.Length ==> a[k] == old(a[k]) + counts[k]
    ensures IntSum(a[..]) == IntSum(old(a[..])) + IntSum(counts)
  {
    var i := 0;
    while i < a.Length
      invariant 0 <= i <= a.Length
      invariant forall k :: 0 <= k < i ==> a[k] == old(a[k]) + counts[k]
      invariant forall k :: i <= k < a.Length ==> a[k] == old(a[k])
    {
      a[i] := a[i] + counts[i];
      i := i + 1;
    }
    IntSumAdd(old(a[..]), counts, a[..]);
  }

  class MetImageHistogram {
    /** The counts array of the base histogram (shared with whoever passed it in). */
    const binCounts: array<int>
    const min: Double
    const max: Double
    const alpha: nat
    const pdf: array<real>
    const cdf: array<Double>
    const equalBinBorders: array<Double>
    /** Unset (null) until a caller installs unequal borders. */
    var unequalBinBorders: array?<Double>

    ghost predicate Valid()
      reads this
    {
      && pdf.Length == binCounts.Length
      && cdf.Length == binCounts.Length + 1
      && equalBinBorders.Length == binCounts.Length + 1
      && cdf != equalBinBorders
      && unequalBinBorders != cdf && unequalBinBorders != equalBinBorders
    }

    /** The histogram over [min, max] with the given (shared) counts; pdf and cdf start at 0. */
    constructor (counts: array<int>, min: Double, max: Double, alpha: nat)
      ensures Valid()
      ensures binCounts == counts && this.min == min && this.max == max && this.alpha == alpha
      ensures fresh(pdf) && fresh(cdf) && fresh(equalBinBorders)
      ensures pdf[..] == seq(counts.Length, _ => 0.0)
      ensures cdf[..] == seq(counts.Length + 1, _ => Finite(0.0))
      ensures equalBinBorders[..] == EqualBinBorders(min, max, counts.Length)
      ensures unequalBinBorders == null
    {
      binCounts := counts;
      this.min := min;
      this.max := max;
      this.alpha := alpha;
      var borders := ComputeEqualBinBorders(min, max, counts.Length);
      equalBinBorders := borders;
      cdf := new Double[counts.Length + 1](_ => Finite(0.0));
      pdf := new real[counts.Length](_ => 0.0);
      unequalBinBorders := null;
    }

    function NumBins(): nat
      reads this
    {
      binCounts.Length
    }

    method SetUnequalBinBorders(borders: array?<Double>)
      requires Valid() && borders != cdf && borders != equalBinBorders
      modifies this`unequalBinBorders
      ensures Valid()
      ensures unequalBinBorders == borders
    {
      unequalBinBorders := borders;
    }

    /**
     * The borders the aggregation scans. An unset border array makes the
     * source fail on the first accepted value, exactly as an empty one does,
     * so null reads as no borders.
     */
    function ScannedBorders(): seq<Double>
      reads this, unequalBinBorders
    {
      if unequalBinBorders == null then [] else unequalBinBorders[..]
    }

    function CurrentBinning(): Binning
      reads this, unequalBinBorders
    {
      Binning(ScannedBorders(), NumBins(), min, max)
    }

    /**
     * Adds the histogram of the values over the unequal borders to the
     * counts. On an index failure nothing is added, since the source fails
     * before it touches the counts.
     */
    method AggregateUnequalBins(values: array<Double>) returns (ok: bool)
      requires Valid()
      modifies binCounts
      ensures ok <==> AllFit(values[..], CurrentBinning())
      ensures ok ==> forall b :: 0 <= b < NumBins() ==>
                       binCounts[b] == old(binCounts[b]) + BinCount(values[..], b, CurrentBinning())
      ensures ok ==> forall b :: 0 <= b < NumBins() ==> old(binCounts[b]) <= binCounts[b]
      ensures ok ==> IntSum(binCounts[..]) == IntSum(old(binCounts[..])) + AcceptedCount(values[..], CurrentBinning())
      ensures !ok ==> binCounts[..] == old(binCounts[..])
      ensures unequalBinBorders != null && unequalBinBorders.Length == NumBins() + 1 && NumBins() >= 1 ==> ok
    {
      if unequalBinBorders != null && unequalBinBorders.Length == NumBins() + 1 && NumBins() >= 1 {
        BordersFitBins(values[..], CurrentBinning());
      }
      var borders := if unequalBinBorders == null then [] else unequalBinBorders[..];
      var newCounts := ComputeHistogramUnequalBins(values, borders, binCounts.Length, min, max);
      if newCounts.None? {
        return false;
      }
      CountsTotal(values[..], CurrentBinning());
      AddInto(binCounts, newCounts.value);
      return true;
    }

    /** Copies the counts into the pdf, then adds the smoothing constant. */
    method ComputePdf()
      requires Valid()
      modifies pdf
      ensures pdf[..] == SmoothedPdf(binCounts[..], alpha)
    {
      var i := 0;
      while i < binCounts.Length
        invariant 0 <= i <= binCounts.Length
        invariant forall k :: 0 <= k < i ==> pdf[k] == binCounts[k] as real
      {
        pdf[i] := binCounts[i] as real;
        i := i + 1;
      }
      NormalizeAlpha();
    }

    /** Adds alpha / (bins + alpha * NUM_BINS) to every pdf entry. */
    method NormalizeAlpha()
      requires Valid()
      modifies pdf
      ensures forall k :: 0 <= k < pdf.Length ==> pdf[k] == old(pdf[k]) + Smoothing(alpha, pdf.Length)
    {
      var i := 0;
      while i < pdf.Length
        invariant 0 <= i <= pdf.Length
        invariant forall k :: 0 <= k < i ==> pdf[k] == old(pdf[k]) + Smoothing(alpha, pdf.Length)
        invariant forall k :: i <= k < pdf.Length ==> pdf[k] == old(pdf[k])
      {
        pdf[i] := pdf[i] + alpha as real * 1.0 / (pdf.Length + alpha * NUM_BINS) as real;
        i := i + 1;
      }
    }

    /**
     * The normalised cdf of the pdf. The last slot first stores the total
     * and is read as the divisor by every iteration before the last
     * iteration overwrites it.
     */
    method ComputeCdf()
      requires Valid()
      modifies cdf
      ensures cdf[..] == CdfOf(pdf[..])
    {
      var nCdf := cdf.Length;
      var total := GetCumulativeSum(pdf, 0, nCdf - 1);
      assert total == Sum(pdf[..]) by {
        if pdf.Length > 0 {
          assert pdf[..][0..pdf.Length] == pdf[..];
        }
      }
      cdf[nCdf - 1] := Finite(total);
      var i := 0;
      while i < nCdf
        invariant 0 <= i <= nCdf
        invariant i < nCdf ==> cdf[nCdf - 1] == Finite(Sum(pdf[..]))
        invariant forall k :: 0 <= k < i ==> cdf[k] == CdfOf(pdf[..])[k]
      {
        var cumulativeSum := GetCumulativeSum(pdf, 0, i);
        assert cumulativeSum == Sum(pdf[..i]) by {
          if i > 0 {
            assert pdf[..][0..i] == pdf[..i];
          } else {
            assert pdf[..0] == [];
          }
        }
        cdf[i] := Div(Finite(cumulativeSum), cdf[nCdf - 1]);
        i := i + 1;
      }
    }

    /** The pdf from the counts and then the cdf from the pdf. */
    method ComputeDensityFunctions()
      requires Valid()
      modifies pdf, cdf
      ensures pdf[..] == SmoothedPdf(binCounts[..], alpha)
      ensures cdf[..] == CdfOf(SmoothedPdf(binCounts[..], alpha))
    {
      ComputePdf();
      ComputeCdf();
    }
  }
}
