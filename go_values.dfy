/**
 * The dynamic values the library stores in `interface{}` slots, and the
 * feature wrappers of the `base` package. Go's `int` is 64 bits wide; its
 * wrap-around is written out where a conversion can wrap.
 */
module GoValues {

  /** The integer kinds named by the library's type switches. */
  datatype IntKind = Int | Int32 | Int64 | Uint | Uint32 | Uint64

  /** The floating-point kinds named by the library's type switches. */
  datatype FloatKind = Float32 | Float64

  /** The feature wrappers: `NilFeature`, `IntFeature`, `FloatFeature`, `BoolFeature`, `StringFeature`. */
  datatype Feature =
    | NilFeature
    | IntFeature(i: int)
    | FloatFeature(x: real)
    | BoolFeature(b: bool)
    | StringFeature(s: string)

  /**
   * A value held by an `interface{}`: Go's nil, a built-in scalar of a named kind,
   * a value that already is a feature wrapper, or a value of any other dynamic type
   * (int8, a struct, a slice, ...), which the type switches do not name.
   */
  datatype Raw =
    | Nil
    | IntValue(kind: IntKind, n: int)
    | FloatValue(fkind: FloatKind, x: real)
    | BoolValue(b: bool)
    | StringValue(s: string)
    | FeatureValue(f: Feature)
    | OtherValue(typeName: string)

  const TwoTo63: int := 0x8000_0000_0000_0000
  const TwoTo64: int := 0x1_0000_0000_0000_0000

  /** The values a Go variable of the given integer kind can hold. */
  predicate InKindRange(kind: IntKind, n: int) {
    match kind
    case Int => -TwoTo63 <= n < TwoTo63
    case Int64 => -TwoTo63 <= n < TwoTo63
    case Int32 => -0x8000_0000 <= n < 0x8000_0000
    case Uint => 0 <= n < TwoTo64
    case Uint64 => 0 <= n < TwoTo64
    case Uint32 => 0 <= n < 0x1_0000_0000
  }

  /** Go's conversion `int(x)` of an integer to the 64-bit `int`: reduction modulo 2^64 into the signed range. */
  function ToGoInt(n: int): (r: int)
    ensures -TwoTo63 <= r < TwoTo63
    ensures (n - r) % TwoTo64 == 0
  {
    (n + TwoTo63) % TwoTo64 - TwoTo63
  }

  /** Signed kinds, and unsigned values below 2^63, convert to `int` without change. */
  lemma ToGoIntKeepsValue(kind: IntKind, n: int)
    requires InKindRange(kind, n)
    requires kind in {Int, Int64, Int32, Uint32} || n < TwoTo63
    ensures ToGoInt(n) == n
  {
  }

  /** An unsigned value of 2^63 or more wraps to a negative `int`. */
  lemma ToGoIntWrapsLargeUnsigned(n: int)
    requires InKindRange(Uint64, n) && n >= TwoTo63
    ensures ToGoInt(n) == n - TwoTo64 && ToGoInt(n) < 0
  {
    assert n + TwoTo63 >= TwoTo64;
    assert (n + TwoTo63) % TwoTo64 == n + TwoTo63 - TwoTo64;
  }
}
