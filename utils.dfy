/**
 * The static helpers of the utility class: a running sum over a prefix, the
 * normalised cumulative sum, and element-wise array conversions.
 */
module Utils {
  import opened Numerics
  import opened Cumulative

  /** How many leading elements a prefix sum of `n` elements actually visits in an array of length `len`. */
  function VisitedPrefix(len: nat, n: int): (k: nat)
    ensures k <= len
    ensures n <= 0 ==> k == 0
    ensures 0 <= n <= len ==> k == n
  {
    if n <= 0 then 0 else if n < len then n else len
  }

  /** Sum of the first `numElemsToSum` elements, stopping at the end of the array; 0 for a non-positive count. */
  method GetCumulativeSum(values: array<real>, numElemsToSum: int) returns (sum: real)
    ensures sum == Sum(values[..VisitedPrefix(values.Length, numElemsToSum)])
    ensures numElemsToSum <= 0 ==> sum == 0.0
  {
    sum := 0.0;
    var end := if values.Length < numElemsToSum then values.Length else numElemsToSum;
    var i := 0;
    while i < end
      invariant 0 <= i <= VisitedPrefix(values.Length, numElemsToSum)
      invariant end > 0 ==> end == VisitedPrefix(values.Length, numElemsToSum)
      invariant sum == Sum(values[..i])
    {
      SumStep(values[..], i);
      assert values[..i + 1] == values[..][..i + 1];
      sum := sum + values[i];
      i := i + 1;
    }
    assert values[..0] == [];
  }

  /**
   * The normalised cumulative sum: one entry more than the input, entry i
   * holding the sum of the first i inputs divided by the total. The last slot
   * first stores the total and is read as the divisor by every iteration,
   * the last one included, before that iteration overwrites it.
   */
  method GetCumulativeSumAndNormalize(cumArray: array<real>) returns (normArray: array<Double>)
    ensures fresh(normArray)
    ensures normArray.Length == cumArray.Length + 1
    ensures normArray[..] == CdfOf(cumArray[..])
  {
    normArray := new Double[cumArray.Length + 1](_ => Finite(0.0));
    var nLength := normArray.Length;
    var total := GetCumulativeSum(cumArray, nLength - 1);
    SumWhole(cumArray[..]);
    normArray[nLength - 1] := Finite(total);
    var i := 0;
    while i < nLength
      invariant 0 <= i <= nLength
      invariant i < nLength ==> normArray[nLength - 1] == Finite(Sum(cumArray[..]))
      invariant forall k :: 0 <= k < i ==> normArray[k] == CdfOf(cumArray[..])[k]
    {
      var cumulativeSum := GetCumulativeSum(cumArray, i);
      normArray[i] := Div(Finite(cumulativeSum), normArray[nLength - 1]);
      i := i + 1;
    }
  }

  /** Widening a float array to a double array: same length, same values. */
  method GetAsDoubles(fArr: array<Double>) returns (dArr: array<Double>)
    ensures fresh(dArr)
    ensures dArr.Length == fArr.Length
    ensures dArr[..] == fArr[..]
  {
    dArr := new Double[fArr.Length](_ => Finite(0.0));
    var i := 0;
    while i < dArr.Length
      invariant 0 <= i <= dArr.Length
      invariant dArr != fArr
      invariant forall k :: 0 <= k < i ==> dArr[k] == fArr[k]
    {
      dArr[i] := fArr[i];
      i := i + 1;
    }
  }

  /**
   * Unboxing an array of `Double` objects into primitive doubles. A boxed
   * entry is `Some(d)`; unboxing a null entry (`None`) throws in the source,
   * and no caller passes one.
   */
  method GetAsPrimitiveDoubles(dArr: array<Option<Double>>) returns (dPrimitiveArr: array<Double>)
    requires forall k :: 0 <= k < dArr.Length ==> dArr[k].Some?
    ensures fresh(dPrimitiveArr)
    ensures dPrimitiveArr.Length == dArr.Length
    ensures forall k :: 0 <= k < dArr.Length ==> Some(dPrimitiveArr[k]) == dArr[k]
  {
    dPrimitiveArr := new Double[dArr.Length](_ => Finite(0.0));
    var i := 0;
    while i < dPrimitiveArr.Length
      invariant 0 <= i <= dPrimitiveArr.Length
      invariant forall k :: 0 <= k < i ==> Some(dPrimitiveArr[k]) == dArr[k]
    {
      dPrimitiveArr[i] := dArr[i].value;
      i := i + 1;
    }
  }
}
