/** Numeric helpers of the `util` package. */
module UtilMath {
  import opened GoValues
  import Wrappers
  import opened UtilHelpers
  import BaseTuple
  import FeaturesUtil

  const EPSILON: real := 0.00000001

  /** `FloatEquals`: the two values lie strictly within EPSILON of each other. */
  predicate FloatEquals(a: real, b: real) {
    Abs(a - b) < EPSILON
  }

  /** FloatEquals is reflexive and symmetric; it is not transitive. */
  lemma FloatEqualsReflexiveSymmetric(a: real, b: real)
    ensures FloatEquals(a, a)
    ensures FloatEquals(a, b) <==> FloatEquals(b, a)
  {
  }

  /** Two values each within EPSILON of a third need not be FloatEquals to each other. */
  lemma FloatEqualsNotTransitive()
    ensures FloatEquals(0.0, EPSILON * 0.75) && FloatEquals(EPSILON * 0.75, EPSILON * 1.5)
    ensures !FloatEquals(0.0, EPSILON * 1.5)
  {
  }

  /** `IsNumeric`: true exactly for the integer and float kinds; nil, bool, string and the rest are not numeric. */
  predicate IsNumeric(obj: Raw) {
    match obj
    case IntValue(_, _) => true
    case FloatValue(_, _) => true
    case _ => false
  }

  /** A numeric value is typed numeric and has a number; bool is typed but not numeric here. */
  lemma IsNumericAgreesWithTyping(obj: Raw)
    ensures IsNumeric(obj) <==> FeaturesUtil.InferFeatureType(obj) == Wrappers.Ok(FeaturesUtil.Numeric)
    ensures IsNumeric(obj) ==> BaseTuple.NumericValue(obj).Ok?
    ensures obj.BoolValue? ==> !IsNumeric(obj) && BaseTuple.NumericValue(obj).Ok?
  {
  }
}
