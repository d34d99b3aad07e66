/**
 * The struct `Tuple` of `base/tuple.go` (data values and a class label, field `Class`) and the
 * conversion of its raw values to numbers. That conversion names only Go's
 * built-in scalar types: a feature wrapper is an unknown type to it.
 */
module BaseTuple {
  import opened Wrappers
  import opened GoValues

  /** Panic messages. */
  const STRING_NOT_IMPLEMENTED: string := "TODO: String types not yet implemented."
  const UNKNOWN_NUMERIC_TYPE: string := "Unknown type for numeric conversion"

  datatype Tuple = Tuple(data: seq<Raw>, classValue: Raw)

  /**
   * `NumericValue`: nil is 0, every integer and float kind keeps its value, a bool is
   * 1 or 0, and a string or any other type (feature wrappers included) panics.
   */
  function NumericValue(value: Raw): (r: Result<real>)
    ensures r.Panic? <==> (value.StringValue? || value.FeatureValue? || value.OtherValue?)
    ensures value.Nil? ==> r == Ok(0.0)
    ensures value.IntValue? ==> r == Ok(value.n as real)
    ensures value.FloatValue? ==> r == Ok(value.x)
    ensures value.BoolValue? ==> r == Ok(if value.b then 1.0 else 0.0)
  {
    match value
    case Nil => Ok(0.0)
    case IntValue(_, n) => Ok(n as real)
    case FloatValue(_, x) => Ok(x)
    case BoolValue(b) => Ok(if b then 1.0 else 0.0)
    case StringValue(_) => Panic(STRING_NOT_IMPLEMENTED)
    case FeatureValue(_) => Panic(UNKNOWN_NUMERIC_TYPE)
    case OtherValue(_) => Panic(UNKNOWN_NUMERIC_TYPE)
  }

  /** The integer and float kinds give the same number whatever their width. */
  lemma NumericValueIgnoresKind(kind1: IntKind, kind2: IntKind, n: int, fkind1: FloatKind, fkind2: FloatKind, x: real)
    ensures NumericValue(IntValue(kind1, n)) == NumericValue(IntValue(kind2, n))
    ensures NumericValue(FloatValue(fkind1, x)) == NumericValue(FloatValue(fkind2, x))
    ensures NumericValue(IntValue(kind1, n)) == NumericValue(FloatValue(fkind1, n as real))
  {
  }

  /** `Tuple.NumericValue`: one number per data value, converted pointwise; panics if any value does. */
  method TupleNumericValue(tuple: Tuple) returns (r: Result<seq<real>>)
    ensures r.Ok? <==> forall i :: 0 <= i < |tuple.data| ==> NumericValue(tuple.data[i]).Ok?
    ensures r.Ok? ==> |r.value| == |tuple.data|
    ensures r.Ok? ==> forall i :: 0 <= i < |tuple.data| ==> r.value[i] == NumericValue(tuple.data[i]).value
  {
    var values := new real[|tuple.data|];
    var i := 0;
    while i < |tuple.data|
      invariant 0 <= i <= |tuple.data|
      invariant forall k :: 0 <= k < i ==> NumericValue(tuple.data[k]).Ok? && values[k] == NumericValue(tuple.data[k]).value
    {
      var value := NumericValue(tuple.data[i]);
      if value.Panic? {
        return Panic(value.reason);
      }
      values[i] := value.value;
      i := i + 1;
    }
    return Ok(values[..]);
  }
}
