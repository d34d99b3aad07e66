/**
 * Helpers of the `util` package that the library calls but whose source is not
 * part of this model (`util.MinInt`, `util.MaxInt`, `util.RangeSlice`, `util.Max`,
 * `util.SelectIndexes*`, `math.Abs`, `math.Min`, `math.Max`, `math.Ceil` of a
 * quotient, Go's float-to-int conversion). Each is given the contract its callers
 * rely on.
 */
module UtilHelpers {

  function MinInt(a: int, b: int): (r: int)
    ensures r <= a && r <= b && (r == a || r == b)
  {
    if a < b then a else b
  }

  function MaxInt(a: int, b: int): (r: int)
    ensures r >= a && r >= b && (r == a || r == b)
  {
    if a < b then b else a
  }

  function Abs(x: real): (r: real)
    ensures r >= 0.0 && (r == x || r == -x)
  {
    if x < 0.0 then -x else x
  }

  /** `math.Min` on ordinary (non-NaN) values. */
  function MinReal(a: real, b: real): (r: real)
    ensures r <= a && r <= b && (r == a || r == b)
  {
    if a < b then a else b
  }

  /** `math.Max` on ordinary (non-NaN) values. */
  function MaxReal(a: real, b: real): (r: real)
    ensures r >= a && r >= b && (r == a || r == b)
  {
    if a < b then b else a
  }

  /** Go's conversion `int(x)` of a float: truncation toward zero. */
  function TruncateToInt(x: real): (n: int)
    ensures x >= 0.0 ==> n as real <= x < n as real + 1.0
    ensures x <= 0.0 ==> n as real - 1.0 < x <= n as real
  {
    if x >= 0.0 then x.Floor else -((-x).Floor)
  }

  /** `util.RangeSlice(n)`: the ids `0, 1, ..., n-1`. */
  function RangeSlice(n: nat): (r: seq<int>)
    ensures |r| == n && forall i :: 0 <= i < n ==> r[i] == i
  {
    seq(n, i => i)
  }

  /** `util.SelectIndexes*(s, points)`: the entries at the given positions, in the order given. */
  function SelectIndexes<T>(s: seq<T>, points: seq<int>): (r: seq<T>)
    requires forall i :: 0 <= i < |points| ==> 0 <= points[i] < |s|
    ensures |r| == |points|
    ensures forall i :: 0 <= i < |points| ==> r[i] == s[points[i]]
  {
    seq(|points|, i requires 0 <= i < |points| => s[points[i]])
  }

  /** `int(math.Ceil(float64(n) / float64(d)))`, computed on reals as the library does. */
  function CeilQuotient(n: int, d: int): int
    requires d > 0
  {
    -((-(n as real) / (d as real)).Floor)
  }

  /** The real ceiling of n/d is the integer ceiling `(n + d - 1) / d`. */
  lemma CeilQuotientIsIntegerCeiling(n: nat, d: int)
    requires d > 0
    ensures CeilQuotient(n, d) == (n + d - 1) / d
    ensures CeilQuotient(n, d) * d >= n
    ensures n > 0 ==> (CeilQuotient(n, d) - 1) * d < n
  {
    var q := (n + d - 1) / d;
    IntegerCeilingBounds(n, d);
    RealCeiling(n, d, q);
  }

  /** `(n + d - 1) / d` times d reaches n, and one less does not. */
  lemma IntegerCeilingBounds(n: nat, d: int)
    requires d > 0
    ensures ((n + d - 1) / d) * d >= n
    ensures ((n + d - 1) / d - 1) * d < n
  {
    var q := (n + d - 1) / d;
    var r := (n + d - 1) % d;
    assert n + d - 1 == q * d + r && 0 <= r < d;
    assert (q - 1) * d == q * d - d;
  }

  /** An integer q with `(q - 1) * d < n <= q * d` is the real ceiling of n/d. */
  lemma RealCeiling(n: int, d: int, q: int)
    requires d > 0
    requires (q - 1) * d < n <= q * d
    ensures -((-(n as real) / (d as real)).Floor) == q
  {
    var x := (n as real) / (d as real);
    assert x * (d as real) == n as real;
    assert (q as real) * (d as real) == (q * d) as real;
    assert ((q - 1) as real) * (d as real) == ((q - 1) * d) as real;
    DivideOutPositive(x, q as real, d as real);
    DivideOutPositive((q - 1) as real, x, d as real);
    assert -(n as real) / (d as real) == -x;
  }

  /** Dividing both sides of `a*c <= b*c` (or `<`) by a positive `c`. */
  lemma DivideOutPositive(a: real, b: real, c: real)
    requires c > 0.0
    ensures a * c <= b * c ==> a <= b
    ensures a * c < b * c ==> a < b
  {
  }

  /** `util.Max`: the index of the first largest entry, and that entry. */
  function ArgMax(s: seq<real>): (i: nat)
    requires |s| > 0
    ensures i < |s|
    ensures forall j :: 0 <= j < |s| ==> s[j] <= s[i]
    ensures forall j :: 0 <= j < i ==> s[j] < s[i]
    decreases |s|
  {
    if |s| == 1 then 0
    else
      var k := ArgMax(s[..|s| - 1]);
      if s[|s| - 1] > s[k] then |s| - 1 else k
  }

  /** A square (`math.Pow(x, 2)`) is never negative. */
  lemma SquareSign(x: real)
    ensures x * x >= 0.0
  {
    if x > 0.0 {
      assert x * x > 0.0 * x;
    } else if x < 0.0 {
      assert x * x == (-x) * (-x);
      assert (-x) * (-x) > 0.0 * (-x);
    }
  }

  /** Multiplying by a non-negative factor keeps the order of two integers. */
  lemma MultiplyMonotone(a: int, b: int, n: nat)
    requires a <= b
    ensures a * n <= b * n
  {
    assert b * n == a * n + (b - a) * n;
  }
}
