/**
 * Feature wrappers of the `base` package: which variants are numeric, their
 * numeric values, and the inference of a feature from a raw `interface{}` value.
 */
module BaseFeatures {
  import opened Wrappers
  import opened GoValues

  /** Panic messages. */
  const UNKNOWN_FEATURE_TYPE: string := "Unknown type for feature conversion: "
  const NOT_NUMERIC_FEATURE: string := "Tried to infer numeric feature from non-numeric value"
  const NOT_INT_FEATURE: string := "Tried to infer int feature from non-int value"

  /** `IsNumeric()` of each wrapper. */
  predicate IsNumeric(f: Feature) {
    match f
    case NilFeature => false
    case IntFeature(_) => true
    case FloatFeature(_) => true
    case BoolFeature(_) => true
    case StringFeature(_) => false
  }

  /** The wrappers that implement `NumericFeature`, i.e. that have a `NumericValue()` method. */
  predicate HasNumericValue(f: Feature) {
    f.IntFeature? || f.FloatFeature? || f.BoolFeature?
  }

  /** A feature claims to be numeric exactly when it can produce a number. */
  lemma IsNumericIffHasNumericValue(f: Feature)
    ensures IsNumeric(f) <==> HasNumericValue(f)
    ensures !IsNumeric(f) <==> (f.NilFeature? || f.StringFeature?)
  {
  }

  /** `NumericValue()`: an int or float wrapper gives its own value, a bool gives 1 or 0. */
  function NumericValue(f: Feature): (x: real)
    requires HasNumericValue(f)
    ensures f.IntFeature? ==> x == f.i as real
    ensures f.FloatFeature? ==> x == f.x
    ensures f.BoolFeature? ==> (x == 1.0 <==> f.b) && (x == 0.0 <==> !f.b)
  {
    match f
    case IntFeature(i) => i as real
    case FloatFeature(x) => x
    case BoolFeature(b) => if b then 1.0 else 0.0
  }

  /** `Value()`: the plain Go value a wrapper holds (`nil` for the nil wrapper). */
  function Value(f: Feature): (v: Raw)
    ensures !v.FeatureValue? && !v.OtherValue?
  {
    match f
    case NilFeature => Nil
    case IntFeature(i) => IntValue(Int, i)
    case FloatFeature(x) => FloatValue(Float64, x)
    case BoolFeature(b) => BoolValue(b)
    case StringFeature(s) => StringValue(s)
  }

  /** A wrapper as Go can hold it: an int wrapper's value fits in 64 bits. */
  predicate WellFormed(f: Feature) {
    f.IntFeature? ==> InKindRange(Int, f.i)
  }

  /**
   * `InferFeature`: nil gives the nil wrapper, a wrapper is returned unchanged, every
   * integer kind becomes an int wrapper (through Go's `int(...)` conversion),
   * bool, float and string kinds become their wrappers, and any other type panics.
   */
  function InferFeature(data: Raw): (r: Result<Feature>)
    ensures r.Panic? <==> data.OtherValue?
    ensures data.Nil? ==> r == Ok(NilFeature)
    ensures data.FeatureValue? ==> r == Ok(data.f)
    ensures data.IntValue? ==> r == Ok(IntFeature(ToGoInt(data.n)))
    ensures data.FloatValue? ==> r == Ok(FloatFeature(data.x))
    ensures data.BoolValue? ==> r == Ok(BoolFeature(data.b))
    ensures data.StringValue? ==> r == Ok(StringFeature(data.s))
  {
    match data
    case Nil => Ok(NilFeature)
    case FeatureValue(f) => Ok(f)
    case IntValue(_, n) => Ok(IntFeature(ToGoInt(n)))
    case FloatValue(_, x) => Ok(FloatFeature(x))
    case BoolValue(b) => Ok(BoolFeature(b))
    case StringValue(s) => Ok(StringFeature(s))
    case OtherValue(_) => Panic(UNKNOWN_FEATURE_TYPE + data.typeName)
  }

  /** Inference is idempotent: inferring again from an inferred feature gives the same feature. */
  lemma InferFeatureIdempotent(data: Raw)
    requires InferFeature(data).Ok?
    ensures InferFeature(FeatureValue(InferFeature(data).value)) == InferFeature(data)
  {
  }

  /** Inferred features are well formed: the conversion to `int` lands in the 64-bit range. */
  lemma InferFeatureWellFormed(data: Raw)
    requires InferFeature(data).Ok?
    requires data.FeatureValue? ==> WellFormed(data.f)
    ensures WellFormed(InferFeature(data).value)
  {
  }

  /** Inferring from the plain value a well-formed wrapper holds gives the wrapper back. */
  lemma InferFeatureOfValue(f: Feature)
    requires WellFormed(f)
    ensures InferFeature(Value(f)) == Ok(f)
  {
    if f.IntFeature? {
      ToGoIntKeepsValue(Int, f.i);
    }
  }

  /** An integer of a signed kind, or an unsigned one below 2^63, keeps its value. */
  lemma InferFeatureKeepsIntegers(kind: IntKind, n: int)
    requires InKindRange(kind, n)
    requires kind in {Int, Int64, Int32, Uint32} || n < TwoTo63
    ensures InferFeature(IntValue(kind, n)) == Ok(IntFeature(n))
  {
    ToGoIntKeepsValue(kind, n);
  }

  /** `InferNumericFeature`: the inferred feature if it has a numeric value, otherwise a panic. */
  function InferNumericFeature(data: Raw): (r: Result<Feature>)
    ensures r.Ok? <==> InferFeature(data).Ok? && HasNumericValue(InferFeature(data).value)
    ensures r.Ok? ==> r == InferFeature(data)
  {
    var feature := InferFeature(data);
    if feature.Ok? && HasNumericValue(feature.value) then feature
    else Panic(NOT_NUMERIC_FEATURE)
  }

  /** Nil and strings, raw or already wrapped, have no numeric feature; the other scalars do. */
  lemma InferNumericFeaturePanics(data: Raw)
    ensures InferNumericFeature(data).Panic? <==>
              (data.Nil? || data.StringValue? || data.OtherValue?
               || (data.FeatureValue? && (data.f.NilFeature? || data.f.StringFeature?)))
  {
  }

  /** `InferIntFeature`: the inferred feature if it is an int wrapper, otherwise a panic. */
  function InferIntFeature(data: Raw): (r: Result<Feature>)
    ensures r.Ok? <==> InferFeature(data).Ok? && InferFeature(data).value.IntFeature?
    ensures r.Ok? ==> r == InferFeature(data)
  {
    var feature := InferFeature(data);
    if feature.Ok? && feature.value.IntFeature? then feature
    else Panic(NOT_INT_FEATURE)
  }

  /** Only integer kinds and int wrappers give an int feature. */
  lemma InferIntFeatureAccepts(data: Raw)
    ensures InferIntFeature(data).Ok? <==> (data.IntValue? || (data.FeatureValue? && data.f.IntFeature?))
  {
  }

  /** `InferFeatures`: one feature per value, inferred pointwise; panics if any value does. */
  method InferFeatures(data: seq<Raw>) returns (r: Result<seq<Feature>>)
    ensures r.Ok? <==> forall i :: 0 <= i < |data| ==> InferFeature(data[i]).Ok?
    ensures r.Ok? ==> |r.value| == |data|
    ensures r.Ok? ==> forall i :: 0 <= i < |data| ==> r.value[i] == InferFeature(data[i]).value
  {
    var rtn := new Feature[|data|];
    var i := 0;
    while i < |data|
      invariant 0 <= i <= |data|
      invariant forall k :: 0 <= k < i ==> InferFeature(data[k]).Ok? && rtn[k] == InferFeature(data[k]).value
    {
      var feature := InferFeature(data[i]);
      if feature.Panic? {
        return Panic(feature.reason);
      }
      rtn[i] := feature.value;
      i := i + 1;
    }
    return Ok(rtn[..]);
  }

  /** `InferNumericFeatures`: one numeric feature per value; panics if any value has none. */
  method InferNumericFeatures(data: seq<Raw>) returns (r: Result<seq<Feature>>)
    ensures r.Ok? <==> forall i :: 0 <= i < |data| ==> InferNumericFeature(data[i]).Ok?
    ensures r.Ok? ==> |r.value| == |data|
    ensures r.Ok? ==> forall i :: 0 <= i < |data| ==>
              r.value[i] == InferNumericFeature(data[i]).value && HasNumericValue(r.value[i])
  {
    var rtn := new Feature[|data|];
    var i := 0;
    while i < |data|
      invariant 0 <= i <= |data|
      invariant forall k :: 0 <= k < i ==>
                  InferNumericFeature(data[k]).Ok? && rtn[k] == InferNumericFeature(data[k]).value
    {
      var feature := InferNumericFeature(data[i]);
      if feature.Panic? {
        return Panic(feature.reason);
      }
      rtn[i] := feature.value;
      i := i + 1;
    }
    return Ok(rtn[..]);
  }

  /** `InferIntFeatures`: one int feature per value; panics if any value has none. */
  method InferIntFeatures(data: seq<Raw>) returns (r: Result<seq<Feature>>)
    ensures r.Ok? <==> forall i :: 0 <= i < |data| ==> InferIntFeature(data[i]).Ok?
    ensures r.Ok? ==> |r.value| == |data|
    ensures r.Ok? ==> forall i :: 0 <= i < |data| ==>
              r.value[i] == InferIntFeature(data[i]).value && r.value[i].IntFeature?
  {
    var rtn := new Feature[|data|];
    var i := 0;
    while i < |data|
      invariant 0 <= i <= |data|
      invariant forall k :: 0 <= k < i ==>
                  InferIntFeature(data[k]).Ok? && rtn[k] == InferIntFeature(data[k]).value
    {
      var feature := InferIntFeature(data[i]);
      if feature.Panic? {
        return Panic(feature.reason);
      }
      rtn[i] := feature.value;
      i := i + 1;
    }
    return Ok(rtn[..]);
  }
}
