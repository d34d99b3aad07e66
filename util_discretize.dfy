/**
 * Equal-width discretisation of one tuple between explicit bounds, from the
 * `util` package: numeric values become bucket numbers, everything else is
 * copied through.
 */
module UtilDiscretize {
  import opened GoValues
  import opened UtilHelpers
  import BaseTuple
  import UtilMath
  import BaseDiscretize

  /** The bucket a numeric value gets between min and max: Bucket with width `(max - min) / numBuckets`. */
  function NumericBucket(val: Raw, min: real, max: real, numBuckets: int): int
    requires UtilMath.IsNumeric(val) && min < max && numBuckets >= 1
  {
    UtilMath.IsNumericAgreesWithTyping(val);
    BaseDiscretize.Bucket(BaseTuple.NumericValue(val).value, min, (max - min) / numBuckets as real, numBuckets)
  }

  /**
   * `DiscretizeNumeric`: with fewer than one bucket or `min > max` the tuple itself;
   * otherwise a new tuple with the same class and length whose numeric values are
   * replaced by their `int` bucket and whose other values are copied.
   */
  method DiscretizeNumeric(tuple: BaseTuple.Tuple, min: real, max: real, numBuckets: int) returns (r: BaseTuple.Tuple)
    requires numBuckets < 1 || min != max
    ensures (numBuckets < 1 || min > max) ==> r == tuple
    ensures r.classValue == tuple.classValue && |r.data| == |tuple.data|
    ensures !(numBuckets < 1 || min > max) ==>
              forall i :: 0 <= i < |tuple.data| ==>
                r.data[i] == if UtilMath.IsNumeric(tuple.data[i])
                             then IntValue(Int, NumericBucket(tuple.data[i], min, max, numBuckets))
                             else tuple.data[i]
  {
    if numBuckets < 1 || min > max {
      return tuple;
    }
    var discreteData := new Raw[|tuple.data|];
    var i := 0;
    while i < |tuple.data|
      invariant 0 <= i <= |tuple.data|
      invariant forall k :: 0 <= k < i ==>
                  discreteData[k] == if UtilMath.IsNumeric(tuple.data[k])
                                     then IntValue(Int, NumericBucket(tuple.data[k], min, max, numBuckets))
                                     else tuple.data[k]
    {
      var val := tuple.data[i];
      if !UtilMath.IsNumeric(val) {
        discreteData[i] := val;
      } else {
        discreteData[i] := IntValue(Int, NumericBucket(val, min, max, numBuckets));
      }
      i := i + 1;
    }
    return BaseTuple.Tuple(discreteData[..], tuple.classValue);
  }

  /**
   * Every bucket lies in `[0, numBuckets - 1]`; values at or below min go to bucket 0,
   * values at or above max to the last bucket, and the order of values is kept.
   */
  lemma NumericBucketBounds(val: Raw, other: Raw, min: real, max: real, numBuckets: int)
    requires UtilMath.IsNumeric(val) && UtilMath.IsNumeric(other) && min < max && numBuckets >= 1
    ensures 0 <= NumericBucket(val, min, max, numBuckets) < numBuckets
    ensures BaseTuple.NumericValue(val).value <= min ==> NumericBucket(val, min, max, numBuckets) == 0
    ensures BaseTuple.NumericValue(val).value >= max ==> NumericBucket(val, min, max, numBuckets) == numBuckets - 1
    ensures BaseTuple.NumericValue(val).value <= BaseTuple.NumericValue(other).value ==>
              NumericBucket(val, min, max, numBuckets) <= NumericBucket(other, min, max, numBuckets)
  {
    var x := BaseTuple.NumericValue(val).value;
    var y := BaseTuple.NumericValue(other).value;
    var bucketSize := (max - min) / numBuckets as real;
    if x >= max {
      AtOrAboveMaxIsLast(x, min, max, numBuckets);
    }
    if x <= y {
      BaseDiscretize.BucketMonotone(x, y, min, bucketSize, numBuckets);
    }
  }

  /** A value at or above max reaches the clamp `numBuckets - 1`. */
  lemma AtOrAboveMaxIsLast(x: real, min: real, max: real, numBuckets: int)
    requires min < max && numBuckets >= 1 && x >= max
    ensures BaseDiscretize.Bucket(x, min, (max - min) / numBuckets as real, numBuckets) == numBuckets - 1
  {
    var bucketSize := (max - min) / numBuckets as real;
    assert (max - min) / bucketSize == numBuckets as real;
    BaseDiscretize.DivideMonotone(max - min, x - min, bucketSize);
    assert MinReal(MaxReal(x - min, 0.0) / bucketSize, (numBuckets - 1) as real) == (numBuckets - 1) as real;
  }

  /** Between 1 and 10 with ten buckets, the integer k falls in bucket k - 1. */
  lemma OneToTenInTenBuckets(k: int)
    requires 1 <= k <= 10
    ensures NumericBucket(IntValue(Int, k), 1.0, 10.0, 10) == k - 1
  {
    var x := (k - 1) as real / 0.9;
    assert (10.0 - 1.0) / 10 as real == 0.9;
    assert x * 0.9 == (k - 1) as real;
    if k < 10 {
      assert (k - 1) as real <= x < k as real;
      assert MinReal(x, 9.0) == x;
    } else {
      AtOrAboveMaxIsLast(10.0, 1.0, 10.0, 10);
    }
  }
}
