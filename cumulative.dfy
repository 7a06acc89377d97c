/**
 * Prefix sums and the normalised cumulative distribution built from them.
 * Both CDF builders of the system (the histogram's and the utility class's)
 * are specified by CdfOf.
 */
module Cumulative {
  import opened Numerics

  /** Sum of a sequence, accumulated from the front as the source's loops do. */
  function Sum(s: seq<real>): real
    decreases |s|
  {
    if |s| == 0 then 0.0 else Sum(s[..|s| - 1]) + s[|s| - 1]
  }

  predicate NonNegative(s: seq<real>) {
    forall i :: 0 <= i < |s| ==> s[i] >= 0.0
  }

  predicate AllPositive(s: seq<real>) {
    forall i :: 0 <= i < |s| ==> s[i] > 0.0
  }

  /**
   * The cumulative distribution of a density given per bin: entry i is the
   * mass of the first i bins divided by the total mass, so there is one entry
   * more than there are bins. A zero total gives 0/0 = NaN (or an infinity
   * for a non-zero partial sum), as the source's division does.
   */
  function CdfOf(s: seq<real>): (r: seq<Double>)
    ensures |r| == |s| + 1
  {
    seq(|s| + 1, i requires 0 <= i <= |s| => Div(Finite(Sum(s[..i])), Finite(Sum(s))))
  }

  /** Splitting off the last element of a prefix. */
  lemma SumStep(s: seq<real>, i: nat)
    requires i < |s|
    ensures Sum(s[..i + 1]) == Sum(s[..i]) + s[i]
  {
    assert s[..i + 1][..i] == s[..i];
  }

  /** Prefix sums of a non-negative sequence are non-negative. */
  lemma {:induction false} PrefixSumNonNegative(s: seq<real>, i: nat)
    requires NonNegative(s)
    requires i <= |s|
    ensures 0.0 <= Sum(s[..i])
  {
    if i == 0 {
      assert s[..0] == [];
    } else {
      PrefixSumNonNegative(s, i - 1);
      SumStep(s, i - 1);
    }
  }

  /** Prefix sums of a non-negative sequence never decrease. */
  lemma {:induction false} PrefixSumMonotone(s: seq<real>, i: nat, j: nat)
    requires NonNegative(s)
    requires i <= j <= |s|
    ensures 0.0 <= Sum(s[..i]) <= Sum(s[..j])
    decreases j
  {
    if i == j {
      PrefixSumNonNegative(s, i);
    } else {
      PrefixSumMonotone(s, i, j - 1);
      SumStep(s, j - 1);
    }
  }

  /** Prefix sums of a positive sequence strictly increase. */
  lemma {:induction false} PrefixSumStrictlyIncreasing(s: seq<real>, i: nat, j: nat)
    requires AllPositive(s)
    requires i < j <= |s|
    ensures Sum(s[..i]) < Sum(s[..j])
    decreases j
  {
    SumStep(s, j - 1);
    if i < j - 1 {
      PrefixSumStrictlyIncreasing(s, i, j - 1);
    }
  }

  /** The whole sequence is its own longest prefix. */
  lemma SumWhole(s: seq<real>)
    ensures Sum(s[..|s|]) == Sum(s)
  {
    assert s[..|s|] == s;
  }

  /** Entry i of a CDF with non-zero total, as a real quotient. */
  lemma CdfEntry(s: seq<real>, i: nat)
    requires Sum(s) != 0.0 && i <= |s|
    ensures CdfOf(s)[i] == Finite(Sum(s[..i]) / Sum(s))
  {
    var r := CdfOf(s);
    assert r[i] == Div(Finite(Sum(s[..i])), Finite(Sum(s)));
  }

  /** With a non-zero total the CDF starts at 0 and ends at 1. */
  lemma CdfEndpoints(s: seq<real>)
    requires Sum(s) != 0.0
    ensures CdfOf(s)[0] == Finite(0.0)
    ensures CdfOf(s)[|s|] == Finite(1.0)
  {
    CdfEntry(s, 0);
    CdfEntry(s, |s|);
    assert Sum(s[..0]) == 0.0 by { assert s[..0] == []; }
    SumWhole(s);
    QuotientUnit(Sum(s));
  }

  lemma QuotientUnit(t: real)
    requires t != 0.0
    ensures 0.0 / t == 0.0 && t / t == 1.0
  {
  }

  /** A zero total leaves every entry undefined: NaN where the partial sum is 0, infinite elsewhere. */
  lemma CdfOfZeroMass(s: seq<real>, i: nat)
    requires Sum(s) == 0.0 && i <= |s|
    ensures !CdfOf(s)[i].Finite?
    ensures CdfOf(s)[i].NaN? <==> Sum(s[..i]) == 0.0
  {
    var r := CdfOf(s);
    assert r[i] == Div(Finite(Sum(s[..i])), Finite(0.0));
  }

  /** A non-negative density with zero total has only NaN entries. */
  lemma CdfOfEmptyHistogram(s: seq<real>, i: nat)
    requires NonNegative(s) && Sum(s) == 0.0 && i <= |s|
    ensures CdfOf(s)[i].NaN?
  {
    PrefixSumMonotone(s, i, |s|);
    SumWhole(s);
    CdfOfZeroMass(s, i);
  }

  lemma QuotientMonotone(a: real, b: real, t: real)
    requires 0.0 <= a <= b <= t && t > 0.0
    ensures 0.0 <= a / t <= b / t <= 1.0
  {
    assert t / t == 1.0;
  }

  lemma QuotientStrict(a: real, b: real, t: real)
    requires a < b && t > 0.0
    ensures a / t < b / t
  {
  }

  /**
   * For a non-negative density with positive total the CDF lies in [0, 1]
   * and never decreases.
   */
  lemma CdfMonotone(s: seq<real>, i: nat, j: nat)
    requires NonNegative(s) && Sum(s) > 0.0
    requires i <= j <= |s|
    ensures CdfOf(s)[i].Finite? && CdfOf(s)[j].Finite?
    ensures 0.0 <= CdfOf(s)[i].v <= CdfOf(s)[j].v <= 1.0
  {
    PrefixSumMonotone(s, i, j);
    PrefixSumMonotone(s, j, |s|);
    SumWhole(s);
    CdfEntry(s, i);
    CdfEntry(s, j);
    QuotientMonotone(Sum(s[..i]), Sum(s[..j]), Sum(s));
  }

  /** For a positive density the total is positive and the CDF strictly increases. */
  lemma CdfStrictlyIncreasing(s: seq<real>, i: nat, j: nat)
    requires AllPositive(s)
    requires i < j <= |s|
    ensures Sum(s) > 0.0
    ensures CdfOf(s)[i].Finite? && CdfOf(s)[j].Finite?
    ensures CdfOf(s)[i].v < CdfOf(s)[j].v
  {
    PrefixSumStrictlyIncreasing(s, i, j);
    assert NonNegative(s);
    PrefixSumMonotone(s, j, |s|);
    PrefixSumNonNegative(s, i);
    SumWhole(s);
    CdfEntry(s, i);
    CdfEntry(s, j);
    QuotientStrict(Sum(s[..i]), Sum(s[..j]), Sum(s));
  }

  /**
   * The CDF determines the density up to its total: the step from entry i
   * to entry i + 1 is bin i's share of the total mass.
   */
  lemma CdfStepIsDensity(s: seq<real>, i: nat)
    requires Sum(s) != 0.0 && i < |s|
    ensures CdfOf(s)[i + 1].Finite? && CdfOf(s)[i].Finite?
    ensures CdfOf(s)[i + 1].v - CdfOf(s)[i].v == s[i] / Sum(s)
  {
    var a, b, t := Sum(s[..i]), Sum(s[..i + 1]), Sum(s);
    SumStep(s, i);
    CdfEntry(s, i);
    CdfEntry(s, i + 1);
    QuotientDifference(a, b, s[i], t);
  }

  lemma QuotientDifference(a: real, b: real, d: real, t: real)
    requires t != 0.0 && b == a + d
    ensures b / t - a / t == d / t
  {
  }
}
