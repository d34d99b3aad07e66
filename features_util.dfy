/** Feature-type inference of the `features` package: the type of a value and of a whole tuple. */
module FeaturesUtil {
  import opened Wrappers
  import opened GoValues
  import opened BaseTuple

  /** Panic messages. */
  const NIL_FEATURE_TYPE: string := "Cannot infer feature type of nil tuple value"
  const UNKNOWN_FEATURE_TYPE: string := "Unknown type for feature inference"

  /** The `FeatureType` enumeration. */
  datatype FeatureType = Numeric | Boolean | String

  /**
   * `InferFeatureType`: integer and float kinds are numeric, bool is boolean, string is
   * string; nil and every other type (feature wrappers included) panic.
   */
  function InferFeatureType(value: Raw): (r: Result<FeatureType>)
    ensures r.Panic? <==> (value.Nil? || value.FeatureValue? || value.OtherValue?)
    ensures r == Ok(Numeric) <==> (value.IntValue? || value.FloatValue?)
    ensures r == Ok(Boolean) <==> value.BoolValue?
    ensures r == Ok(String) <==> value.StringValue?
  {
    match value
    case Nil => Panic(NIL_FEATURE_TYPE)
    case IntValue(_, _) => Ok(Numeric)
    case FloatValue(_, _) => Ok(Numeric)
    case BoolValue(_) => Ok(Boolean)
    case StringValue(_) => Ok(String)
    case FeatureValue(_) => Panic(UNKNOWN_FEATURE_TYPE)
    case OtherValue(_) => Panic(UNKNOWN_FEATURE_TYPE)
  }

  /** The class type of a tuple: string for a nil class, otherwise the inferred type. */
  function ClassLabelType(classValue: Raw): (r: Result<FeatureType>)
    ensures classValue.Nil? ==> r == Ok(String)
    ensures !classValue.Nil? ==> r == InferFeatureType(classValue)
  {
    if classValue.Nil? then Ok(String) else InferFeatureType(classValue)
  }

  /**
   * `InferFeatures`: one type per data value, inferred pointwise, and the class label type;
   * panics if any data value or a non-nil class cannot be typed.
   */
  method InferFeatures(tuple: Tuple) returns (r: Result<(seq<FeatureType>, FeatureType)>)
    ensures r.Ok? <==> (forall i :: 0 <= i < |tuple.data| ==> InferFeatureType(tuple.data[i]).Ok?)
                       && ClassLabelType(tuple.classValue).Ok?
    ensures r.Ok? ==> |r.value.0| == |tuple.data|
    ensures r.Ok? ==> forall i :: 0 <= i < |tuple.data| ==> r.value.0[i] == InferFeatureType(tuple.data[i]).value
    ensures r.Ok? ==> r.value.1 == ClassLabelType(tuple.classValue).value
  {
    var features := new FeatureType[|tuple.data|];
    var classLabelType := String;
    var i := 0;
    while i < |tuple.data|
      invariant 0 <= i <= |tuple.data|
      invariant forall k :: 0 <= k < i ==>
                  InferFeatureType(tuple.data[k]).Ok? && features[k] == InferFeatureType(tuple.data[k]).value
    {
      var t := InferFeatureType(tuple.data[i]);
      if t.Panic? {
        return Panic(t.reason);
      }
      features[i] := t.value;
      i := i + 1;
    }
    if !tuple.classValue.Nil? {
      var t := InferFeatureType(tuple.classValue);
      if t.Panic? {
        return Panic(t.reason);
      }
      classLabelType := t.value;
    }
    return Ok((features[..], classLabelType));
  }

  /** A value typed numeric or boolean has a number; a typed string panics on conversion. */
  lemma TypedValuesConvert(value: Raw)
    requires InferFeatureType(value).Ok?
    ensures InferFeatureType(value).value != String <==> NumericValue(value).Ok?
  {
  }
}
