/**
 * Multinomial logistic regression of the `classification` package. Training
 * collects the label vocabulary, packs one intercept and one weight row per
 * label into a parameter vector, and hands the regularised negative
 * log-likelihood and its gradient to the configured optimizer; classifying
 * picks the most probable label of every point.
 *
 * The softmax `math.Exp(a[c] - util.LogSumExp(a))` of a vector of activations
 * and `math.Log` are parameters (`softmax`, `ln`): the model does not compute
 * transcendental functions.
 */
module ClassificationLR {
  import opened Wrappers
  import opened GoValues
  import opened UtilHelpers
  import opened DescentSpec
  import OptimizeGD
  import OptimizeSGD
  import BaseDiscretize
  import FeaturesReducer

  /** Panic messages. */
  const NO_TUPLES: string := "Must provide tuples for training."
  const NOT_NUMERIC_TUPLE: string := "LogisticRegression only supports classifying NumericTuple"
  const INCONSISTENT_FEATURES: string := "Inconsistent number of features."
  const DOT_LENGTH_MISMATCH: string := "Length of LHS and length of RHS must match for a dot."
  const INDEX_OUT_OF_RANGE: string := "index out of range"

  const LR_DEFAULT_L2_PENALTY: real := 1.0

  type Tuple = BaseDiscretize.Tuple

  /** A class label: the tuple's class feature, `None` for a nil class. */
  type Label = Option<Feature>

  /** The softmax oracle: the probability of class c given the activations of all classes. */
  type Softmax = (seq<real>, nat) -> real

  // ---------------------------------------------------------------- labels

  function Classes(tuples: seq<Tuple>): (cs: seq<Label>)
    ensures |cs| == |tuples|
    ensures forall i :: 0 <= i < |tuples| ==> cs[i] == tuples[i].classFeature
  {
    seq(|tuples|, i requires 0 <= i < |tuples| => tuples[i].classFeature)
  }

  predicate Distinct<T(==)>(s: seq<T>) {
    forall i, j :: 0 <= i < j < |s| ==> s[i] != s[j]
  }

  /** The position of the first occurrence of x. */
  function IndexOf<T(==)>(s: seq<T>, x: T): (i: nat)
    requires x in s
    ensures i < |s| && s[i] == x
    ensures forall j :: 0 <= j < i ==> s[j] != x
  {
    if s[0] == x then 0 else 1 + IndexOf(s[1..], x)
  }

  /** Appending to a list does not move the first occurrence of an element already in it. */
  lemma IndexOfSnoc<T>(s: seq<T>, y: T, x: T)
    requires x in s
    ensures IndexOf(s + [y], x) == IndexOf(s, x)
  {
    var i := IndexOf(s, x);
    var k := IndexOf(s + [y], x);
    assert (s + [y])[i] == x;
    assert k <= i;
    assert s[k] == (s + [y])[k];
  }

  /**
   * The label vocabulary `Train` builds: each class once, appended when it is first
   * seen, so the vocabulary follows the order of first appearance.
   */
  function FirstSeen(cs: seq<Label>): seq<Label>
  {
    if |cs| == 0 then []
    else
      var prefix := FirstSeen(cs[..|cs| - 1]);
      if cs[|cs| - 1] in prefix then prefix else prefix + [cs[|cs| - 1]]
  }

  /**
   * The vocabulary has no repeated label, holds exactly the classes of the data, and
   * lists them in the order of their first occurrence.
   */
  lemma {:induction false} FirstSeenIsVocabulary(cs: seq<Label>)
    ensures Distinct(FirstSeen(cs))
    ensures forall x :: x in FirstSeen(cs) <==> x in cs
    ensures forall a, b :: 0 <= a < b < |FirstSeen(cs)| ==> IndexOf(cs, FirstSeen(cs)[a]) < IndexOf(cs, FirstSeen(cs)[b])
  {
    if |cs| > 0 {
      var init := cs[..|cs| - 1];
      var last := cs[|cs| - 1];
      FirstSeenIsVocabulary(init);
      assert cs == init + [last];
      var prefix := FirstSeen(init);
      forall x | x in init
        ensures IndexOf(cs, x) == IndexOf(init, x)
      {
        IndexOfSnoc(init, last, x);
      }
      forall x
        ensures x in FirstSeen(cs) <==> x in cs
      {
        assert x in cs <==> x in init || x == last;
      }
      if last !in prefix {
        var fs := FirstSeen(cs);
        assert fs == prefix + [last];
        assert last !in init;
        forall a | 0 <= a < |prefix|
          ensures IndexOf(cs, fs[a]) < IndexOf(cs, last)
        {
          assert fs[a] == prefix[a] && prefix[a] in init;
          assert IndexOf(cs, last) == |init|;
        }
      }
    }
  }

  /**
   * `dataLabels`: every class replaced by its position in the vocabulary, so the
   * vocabulary maps each id back to its tuple's class.
   */
  function LabelIds(cs: seq<Label>): (ids: seq<int>)
    ensures |ids| == |cs|
    ensures forall i :: 0 <= i < |cs| ==> 0 <= ids[i] < |FirstSeen(cs)| && FirstSeen(cs)[ids[i]] == cs[i]
  {
    FirstSeenIsVocabulary(cs);
    seq(|cs|, i requires 0 <= i < |cs| => IndexOf(FirstSeen(cs), cs[i]))
  }

  // ------------------------------------------------------------------- dot

  function DotSum(a: seq<real>, b: seq<real>): real
    requires |a| == |b|
  {
    if |a| == 0 then 0.0 else DotSum(a[..|a| - 1], b[..|b| - 1]) + a[|a| - 1] * b[|b| - 1]
  }

  /** `dot(a, b)`: panics unless the lengths agree, and is otherwise the sum of the products. */
  function Dot(a: seq<real>, b: seq<real>): (r: Result<real>)
    ensures r.Panic? <==> |a| != |b|
    ensures r.Ok? ==> r.value == DotSum(a, b)
  {
    if |a| != |b| then Panic(DOT_LENGTH_MISMATCH) else Ok(DotSum(a, b))
  }

  /** The dot product is symmetric, and zero against a zero vector. */
  lemma {:induction false} DotSymmetric(a: seq<real>, b: seq<real>)
    requires |a| == |b|
    ensures DotSum(a, b) == DotSum(b, a)
    ensures (forall i :: 0 <= i < |a| ==> a[i] == 0.0) ==> DotSum(a, b) == 0.0
  {
    if |a| > 0 {
      DotSymmetric(a[..|a| - 1], b[..|b| - 1]);
    }
  }

  // ---------------------------------------------------------------- layout

  function RealZeros(n: nat): (z: seq<real>)
    ensures |z| == n && forall i :: 0 <= i < n ==> z[i] == 0.0
  {
    seq(n, i => 0.0)
  }

  /** Every row has n entries. */
  predicate Rectangular(m: seq<seq<real>>, n: nat) {
    forall i :: 0 <= i < |m| ==> |m[i]| == n
  }

  /** The rows one after another. */
  function Flatten(m: seq<seq<real>>): seq<real> {
    if |m| == 0 then [] else Flatten(m[..|m| - 1]) + m[|m| - 1]
  }

  /** Row i of k rows of width n ends within `k*n`, and the next row starts where it ends. */
  lemma RowBounds(i: nat, k: nat, n: nat)
    requires i < k
    ensures i * n + n == (i + 1) * n <= k * n
  {
    MultiplyMonotone(i + 1, k, n);
  }

  /** `(k*n) / k == n`, and `k * (a / k)` is at most a, equal when k divides a. */
  lemma DivisionFacts(a: nat, k: nat, n: nat)
    requires k > 0
    ensures (k * n) / k == n && (k * n) % k == 0
    ensures k * (a / k) <= a
    ensures a % k == 0 ==> k * (a / k) == a
  {
    var q := (k * n) / k;
    var r := (k * n) % k;
    assert k * n == q * k + r;
    assert k * (n - q) == r;
    if n - q >= 1 {
      MultiplyMonotone(1, n - q, k);
    }
    assert a == (a / k) * k + a % k;
  }

  /** The n values of f from offset `i*n` on are `row`. */
  predicate RowAt(f: seq<real>, n: nat, i: nat, row: seq<real>) {
    i * n + n <= |f| && f[i * n..i * n + n] == row
  }

  /** Row i of a flattened k x n matrix sits at offsets `[i*n, (i+1)*n)`. */
  lemma FlattenRows(m: seq<seq<real>>, n: nat)
    requires Rectangular(m, n)
    ensures |Flatten(m)| == |m| * n
    ensures forall i :: 0 <= i < |m| ==> RowAt(Flatten(m), n, i, m[i])
  {
    FlattenLength(m, n);
    forall i | 0 <= i < |m|
      ensures RowAt(Flatten(m), n, i, m[i])
    {
      FlattenRow(m, n, i);
    }
  }

  /** k rows of width n flatten to `k*n` values. */
  lemma {:induction false} FlattenLength(m: seq<seq<real>>, n: nat)
    requires Rectangular(m, n)
    ensures |Flatten(m)| == |m| * n
  {
    if |m| > 0 {
      FlattenLength(m[..|m| - 1], n);
      RowBounds(|m| - 1, |m|, n);
    }
  }

  /** Row i is the slice `[i*n, (i+1)*n)` of the flattened matrix. */
  lemma {:induction false} FlattenRow(m: seq<seq<real>>, n: nat, i: nat)
    requires Rectangular(m, n) && i < |m|
    ensures RowAt(Flatten(m), n, i, m[i])
  {
    var init, last := m[..|m| - 1], m[|m| - 1];
    FlattenLength(init, n);
    if i < |init| {
      FlattenRow(init, n, i);
    }
    AppendRowKeepsRows(Flatten(init), init, last, n, i);
    assert m == init + [last];
  }

  /** Appending a row of width n to a flattened matrix keeps the earlier rows and places the new one last. */
  lemma AppendRowKeepsRows(s: seq<real>, rows: seq<seq<real>>, last: seq<real>, n: nat, i: nat)
    requires |s| == |rows| * n && |last| == n && i <= |rows|
    requires i < |rows| ==> RowAt(s, n, i, rows[i])
    ensures RowAt(s + last, n, i, (rows + [last])[i])
  {
    RowBounds(i, |rows| + 1, n);
    if i < |rows| {
      assert (s + last)[i * n..i * n + n] == s[i * n..i * n + n];
    } else {
      assert i * n == |s|;
    }
  }

  /**
   * The layout of the optimizer's parameter vector: the K intercepts first, then the
   * weight rows of the K labels one after another.
   */
  function Packed(weights: seq<seq<real>>, intercepts: seq<real>): seq<real> {
    intercepts + Flatten(weights)
  }

  /** Row i of width n cut from s. */
  function Chunk(s: seq<real>, n: nat, k: nat, i: nat): (row: seq<real>)
    requires k * n <= |s| && i < k
    ensures |row| == n
  {
    RowBounds(i, k, n);
    s[i * n..(i + 1) * n]
  }

  /** The first k rows of width n cut from s. */
  function Chunks(s: seq<real>, n: nat, k: nat): (m: seq<seq<real>>)
    requires k * n <= |s|
    ensures |m| == k && Rectangular(m, n)
    ensures forall i :: 0 <= i < k ==> m[i] == Chunk(s, n, k, i)
  {
    seq(k, i requires 0 <= i < k => Chunk(s, n, k, i))
  }

  /** Flattening the first k chunks gives back the first k*n entries. */
  lemma {:induction false} FlattenChunks(s: seq<real>, n: nat, k: nat)
    requires k * n <= |s|
    ensures Flatten(Chunks(s, n, k)) == s[..k * n]
  {
    if k > 0 {
      RowBounds(k - 1, k, n);
      var m := Chunks(s, n, k);
      forall i | 0 <= i < k - 1
        ensures m[i] == Chunks(s, n, k - 1)[i]
      {
        RowBounds(i, k - 1, n);
      }
      assert m[..k - 1] == Chunks(s, n, k - 1);
      FlattenChunks(s, n, k - 1);
      assert s[..k * n] == s[..(k - 1) * n] + s[(k - 1) * n..k * n];
    }
  }

  /**
   * `unpackOptimizerParams` for K labels: the intercepts are the first K entries, and
   * with `N = (len(params) - K) / K` the weight row i is `params[K + i*N .. K + (i+1)*N)`.
   */
  function Unpack(params: seq<real>, numLabels: nat): (r: (seq<seq<real>>, seq<real>))
    requires 0 < numLabels <= |params|
    ensures |r.0| == numLabels && |r.1| == numLabels
    ensures Rectangular(r.0, (|params| - numLabels) / numLabels)
    ensures r.1 == params[..numLabels]
    ensures forall i :: 0 <= i < numLabels ==> r.0[i] == Chunk(params[numLabels..], (|params| - numLabels) / numLabels, numLabels, i)
  {
    var packedWeights := params[numLabels..];
    var numFeatures := |packedWeights| / numLabels;
    DivisionFacts(|packedWeights|, numLabels, 0);
    (Chunks(packedWeights, numFeatures, numLabels), params[..numLabels])
  }

  /** A vector of length `K*(1+N)` unpacks into rows of width N. */
  lemma PackedWidth(k: nat, n: nat)
    requires k > 0
    ensures k * (1 + n) == k + k * n
    ensures (k * (1 + n) - k) / k == n
  {
    DivisionFacts(0, k, n);
  }

  /** Unpacking a packed K x N model gives the same weights and intercepts back. */
  lemma UnpackPacked(weights: seq<seq<real>>, intercepts: seq<real>, n: nat)
    requires |weights| == |intercepts| > 0 && Rectangular(weights, n)
    ensures |Packed(weights, intercepts)| == |intercepts| * (1 + n)
    ensures Unpack(Packed(weights, intercepts), |intercepts|) == (weights, intercepts)
  {
    var k := |intercepts|;
    var p := Packed(weights, intercepts);
    FlattenRows(weights, n);
    PackedWidth(k, n);
    assert p[..k] == intercepts;
    assert p[k..] == Flatten(weights);
    assert |p| - k == k * n;
    assert (|p| - k) / k == n;
    var r := Unpack(p, k);
    forall i | 0 <= i < k
      ensures r.0[i] == weights[i]
    {
      RowBounds(i, k, n);
    }
    assert r.0 == weights;
  }

  /**
   * Packing an unpacked vector gives the vector back, except for the trailing entries
   * that do not fill a whole weight row; a vector of length `K*(1+N)` has none.
   */
  lemma PackedUnpack(params: seq<real>, k: nat)
    requires 0 < k <= |params|
    ensures var n := (|params| - k) / k;
            Packed(Unpack(params, k).0, Unpack(params, k).1) == params[..k + k * n]
    ensures (|params| - k) % k == 0 ==> Packed(Unpack(params, k).0, Unpack(params, k).1) == params
  {
    var packedWeights := params[k..];
    var n := |packedWeights| / k;
    DivisionFacts(|packedWeights|, k, 0);
    FlattenChunks(packedWeights, n, k);
    assert Unpack(params, k).0 == Chunks(packedWeights, n, k);
    assert params[..k + k * n] == params[..k] + packedWeights[..k * n];
  }

  // --------------------------------------------------------- probabilities

  /** Every weight row has as many entries as the point has features. */
  predicate PointFits(weights: seq<seq<real>>, x: seq<real>) {
    forall c :: 0 <= c < |weights| ==> |weights[c]| == |x|
  }

  predicate AllPointsFit(weights: seq<seq<real>>, data: seq<seq<real>>) {
    forall n :: 0 <= n < |data| ==> PointFits(weights, data[n])
  }

  /** The activation of every class at x: its intercept plus its weights dotted with x. */
  function Activations(weights: seq<seq<real>>, intercepts: seq<real>, x: seq<real>): (a: seq<real>)
    requires |weights| <= |intercepts| && PointFits(weights, x)
    ensures |a| == |weights|
    ensures forall c :: 0 <= c < |weights| ==> a[c] == intercepts[c] + DotSum(weights[c], x)
  {
    seq(|weights|, c requires 0 <= c < |weights| => intercepts[c] + DotSum(weights[c], x))
  }

  /** The probability of every class at x: the softmax of the activations. */
  function ClassProbabilities(weights: seq<seq<real>>, intercepts: seq<real>, x: seq<real>, softmax: Softmax): (p: seq<real>)
    requires |weights| <= |intercepts| && PointFits(weights, x)
    ensures |p| == |weights|
    ensures forall c :: 0 <= c < |weights| ==> p[c] == softmax(Activations(weights, intercepts, x), c)
  {
    var a := Activations(weights, intercepts, x);
    seq(|weights|, c requires 0 <= c < |weights| => softmax(a, c))
  }

  /** `[data point][class]`: the class probabilities of every point. */
  function ProbabilityMatrix(weights: seq<seq<real>>, intercepts: seq<real>, data: seq<seq<real>>,
                             softmax: Softmax): (m: seq<seq<real>>)
    requires |weights| <= |intercepts| && AllPointsFit(weights, data)
    ensures |m| == |data| && Rectangular(m, |weights|)
    ensures forall n :: 0 <= n < |data| ==> m[n] == ClassProbabilities(weights, intercepts, data[n], softmax)
  {
    seq(|data|, n requires 0 <= n < |data| => ClassProbabilities(weights, intercepts, data[n], softmax))
  }

  /**
   * The activation loop of `probabilities` at one point: an intercept index out of
   * range panics, and so does a weight row whose length differs from the point's.
   */
  method PointActivations(weights: seq<seq<real>>, intercepts: seq<real>, x: seq<real>) returns (r: Result<seq<real>>)
    ensures r.Ok? <==> |weights| <= |intercepts| && PointFits(weights, x)
    ensures r.Ok? ==> r.value == Activations(weights, intercepts, x)
  {
    var activations: seq<real> := [];
    var c := 0;
    while c < |weights|
      invariant 0 <= c <= |weights| && |activations| == c
      invariant c <= |intercepts|
      invariant forall j :: 0 <= j < c ==> |weights[j]| == |x| && activations[j] == intercepts[j] + DotSum(weights[j], x)
    {
      if c >= |intercepts| {
        return Panic(INDEX_OUT_OF_RANGE);
      }
      var d := Dot(weights[c], x);
      if d.Panic? {
        return Panic(d.reason);
      }
      activations := activations + [intercepts[c] + d.value];
      c := c + 1;
    }
    return Ok(activations);
  }

  /** The normalisation loop of `probabilities` at one point: the softmax of every activation. */
  method Normalize(activations: seq<real>, softmax: Softmax) returns (p: seq<real>)
    ensures |p| == |activations|
    ensures forall c :: 0 <= c < |activations| ==> p[c] == softmax(activations, c)
  {
    p := [];
    var c := 0;
    while c < |activations|
      invariant 0 <= c <= |activations| && |p| == c
      invariant forall j :: 0 <= j < c ==> p[j] == softmax(activations, j)
    {
      p := p + [softmax(activations, c)];
      c := c + 1;
    }
  }

  /**
   * `probabilities(weights, intercepts, data)`: one row per point and one entry per
   * class, each the softmax of the class activations at that point; panics when a
   * weight row and a point differ in length or an intercept is missing.
   */
  method Probabilities(weights: seq<seq<real>>, intercepts: seq<real>, data: seq<seq<real>>, softmax: Softmax)
    returns (r: Result<seq<seq<real>>>)
    ensures r.Ok? <==> |data| == 0 || (|weights| <= |intercepts| && AllPointsFit(weights, data))
    ensures r.Ok? ==> |r.value| == |data|
    ensures r.Ok? && |data| > 0 ==> r.value == ProbabilityMatrix(weights, intercepts, data, softmax)
  {
    var rows: seq<seq<real>> := [];
    var n := 0;
    while n < |data|
      invariant 0 <= n <= |data| && |rows| == n
      invariant n > 0 ==> |weights| <= |intercepts|
      invariant forall j :: 0 <= j < n ==> PointFits(weights, data[j])
      invariant forall j :: 0 <= j < n ==> rows[j] == ClassProbabilities(weights, intercepts, data[j], softmax)
    {
      var activations := PointActivations(weights, intercepts, data[n]);
      if activations.Panic? {
        return Panic(activations.reason);
      }
      var row := Normalize(activations.value, softmax);
      rows := rows + [row];
      n := n + 1;
    }
    return Ok(rows);
  }

  // ------------------------------------------------------- log-likelihood

  predicate LabelsInRange(labels: seq<int>, k: nat) {
    forall n :: 0 <= n < |labels| ==> 0 <= labels[n] < k
  }

  /**
   * The shapes the optimizer callbacks pass: as many intercepts as weight rows, rows
   * that fit every point, and one label id in range per point.
   */
  predicate ModelFits(weights: seq<seq<real>>, intercepts: seq<real>, data: seq<seq<real>>, labels: seq<int>) {
    |weights| == |intercepts| && AllPointsFit(weights, data) && |labels| == |data| && LabelsInRange(labels, |weights|)
  }

  /** `sum(n < m) log(P[n][label_n])`: the one-hot log-likelihood of the first m points. */
  function LogLikelihood(m: seq<seq<real>>, labels: seq<int>, ln: real -> real, count: nat): real
    requires count <= |m| && count <= |labels|
    requires forall n :: 0 <= n < count ==> 0 <= labels[n] < |m[n]|
  {
    if count == 0 then 0.0
    else LogLikelihood(m, labels, ln, count - 1) + ln(m[count - 1][labels[count - 1]])
  }

  function SquareSum(s: seq<real>): real {
    if |s| == 0 then 0.0 else SquareSum(s[..|s| - 1]) + s[|s| - 1] * s[|s| - 1]
  }

  /** The regulariser loop over the first k classes: each intercept squared, then each weight of the row. */
  function RegularizerSum(weights: seq<seq<real>>, intercepts: seq<real>, k: nat): real
    requires k <= |weights| <= |intercepts|
  {
    if k == 0 then 0.0
    else RegularizerSum(weights, intercepts, k - 1) + intercepts[k - 1] * intercepts[k - 1] + SquareSum(weights[k - 1])
  }

  /** The objective: the negative log-likelihood plus `l2/2` times the regulariser. */
  function NLL(weights: seq<seq<real>>, intercepts: seq<real>, l2: real, data: seq<seq<real>>, labels: seq<int>,
               softmax: Softmax, ln: real -> real): real
    requires ModelFits(weights, intercepts, data, labels)
  {
    var m := ProbabilityMatrix(weights, intercepts, data, softmax);
    Penalized(LogLikelihood(m, labels, ln, |data|), l2, RegularizerSum(weights, intercepts, |weights|))
  }

  /** Minus the log-likelihood plus `l2/2` times the sum of squares. */
  function Penalized(logLikelihood: real, l2: real, squares: real): real {
    -1.0 * logLikelihood + l2 / 2.0 * squares
  }

  lemma {:induction false} SquareSumAppend(s: seq<real>, t: seq<real>)
    ensures SquareSum(s + t) == SquareSum(s) + SquareSum(t)
    decreases |t|
  {
    if |t| == 0 {
      assert s + t == s;
    } else {
      assert (s + t)[..|s + t| - 1] == s + t[..|t| - 1];
      assert (s + t)[|s + t| - 1] == t[|t| - 1];
      SquareSumAppend(s, t[..|t| - 1]);
    }
  }

  /** A sum of squares is never negative, and is zero when every entry is. */
  lemma {:induction false} SquareSumSign(s: seq<real>)
    ensures SquareSum(s) >= 0.0
    ensures (forall i :: 0 <= i < |s| ==> s[i] == 0.0) ==> SquareSum(s) == 0.0
  {
    if |s| > 0 {
      var init := s[..|s| - 1];
      SquareSumSign(init);
      SquareSign(s[|s| - 1]);
      if forall i :: 0 <= i < |s| ==> s[i] == 0.0 {
        assert forall i :: 0 <= i < |init| ==> init[i] == s[i];
      }
    }
  }

  /** The regulariser class by class is the sum of the squares of the packed parameter vector. */
  lemma {:induction false} RegularizerSumPrefix(weights: seq<seq<real>>, intercepts: seq<real>, k: nat)
    requires k <= |weights| <= |intercepts|
    ensures RegularizerSum(weights, intercepts, k) == SquareSum(intercepts[..k]) + SquareSum(Flatten(weights[..k]))
  {
    if k > 0 {
      RegularizerSumPrefix(weights, intercepts, k - 1);
      assert intercepts[..k][..k - 1] == intercepts[..k - 1];
      assert weights[..k][..k - 1] == weights[..k - 1];
      var b := intercepts[k - 1] * intercepts[k - 1];
      assert SquareSum(intercepts[..k]) == SquareSum(intercepts[..k - 1]) + b;
      assert Flatten(weights[..k]) == Flatten(weights[..k - 1]) + weights[k - 1];
      SquareSumAppend(Flatten(weights[..k - 1]), weights[k - 1]);
      assert RegularizerSum(weights, intercepts, k) == RegularizerSum(weights, intercepts, k - 1) + b + SquareSum(weights[k - 1]);
    }
  }

  /**
   * The regulariser is the squared norm of the parameter vector: never negative, and
   * zero at the all-zero vector the training starts from.
   */
  lemma RegularizerIsSquaredNorm(weights: seq<seq<real>>, intercepts: seq<real>)
    requires |weights| == |intercepts|
    ensures RegularizerSum(weights, intercepts, |weights|) == SquareSum(Packed(weights, intercepts))
    ensures RegularizerSum(weights, intercepts, |weights|) >= 0.0
    ensures (forall i :: 0 <= i < |Packed(weights, intercepts)| ==> Packed(weights, intercepts)[i] == 0.0) ==>
              RegularizerSum(weights, intercepts, |weights|) == 0.0
  {
    RegularizerSumPrefix(weights, intercepts, |weights|);
    assert intercepts[..|weights|] == intercepts;
    assert weights[..|weights|] == weights;
    SquareSumAppend(intercepts, Flatten(weights));
    SquareSumSign(Packed(weights, intercepts));
  }

  /** The regulariser loop: the squares of every intercept and every weight, class by class. */
  method Regularizer(weights: seq<seq<real>>, intercepts: seq<real>) returns (regularizer: real)
    requires |weights| <= |intercepts|
    ensures regularizer == RegularizerSum(weights, intercepts, |weights|)
  {
    regularizer := 0.0;
    var c := 0;
    while c < |weights|
      invariant 0 <= c <= |weights|
      invariant regularizer == RegularizerSum(weights, intercepts, c)
    {
      regularizer := regularizer + intercepts[c] * intercepts[c];
      var row := weights[c];
      var j := 0;
      while j < |row|
        invariant 0 <= j <= |row|
        invariant regularizer == RegularizerSum(weights, intercepts, c) + intercepts[c] * intercepts[c] + SquareSum(row[..j])
      {
        assert row[..j + 1][..j] == row[..j];
        regularizer := regularizer + row[j] * row[j];
        j := j + 1;
      }
      assert row[..j] == row;
      c := c + 1;
    }
  }

  /** The first loop of `negativeLogLikelihood`: the log-probability of every point's own label, summed. */
  method SumLogProbabilities(m: seq<seq<real>>, labels: seq<int>, ln: real -> real) returns (sum: real)
    requires |m| <= |labels| && forall n :: 0 <= n < |m| ==> 0 <= labels[n] < |m[n]|
    ensures sum == LogLikelihood(m, labels, ln, |m|)
  {
    sum := 0.0;
    var n := 0;
    while n < |m|
      invariant 0 <= n <= |m|
      invariant sum == LogLikelihood(m, labels, ln, n)
    {
      sum := sum + ln(m[n][labels[n]]);
      n := n + 1;
    }
  }

  /**
   * `negativeLogLikelihood`: minus the sum of the log-probabilities of every point's
   * own label, plus `l2/2 * (sum of squared intercepts + sum of squared weights)`.
   */
  method NegativeLogLikelihood(weights: seq<seq<real>>, intercepts: seq<real>, l2: real, data: seq<seq<real>>,
                               labels: seq<int>, softmax: Softmax, ln: real -> real) returns (nll: real)
    requires ModelFits(weights, intercepts, data, labels)
    ensures nll == NLL(weights, intercepts, l2, data, labels, softmax, ln)
  {
    var probabilities := Probabilities(weights, intercepts, data, softmax);
    assert probabilities.Ok?;
    var m := probabilities.value;
    assert m == ProbabilityMatrix(weights, intercepts, data, softmax);
    assert forall n :: 0 <= n < |data| ==> 0 <= labels[n] < |m[n]|;
    var sum := SumLogProbabilities(m, labels, ln);
    var regularizer := Regularizer(weights, intercepts);
    return Penalized(sum, l2, regularizer);
  }

  // -------------------------------------------------------------- gradient

  /** `P[n][c] - [label_n == c]`: point n's one-hot residual at class c. */
  function Residual(m: seq<seq<real>>, labels: seq<int>, n: nat, c: nat): real
    requires n < |m| && n < |labels| && c < |m[n]|
  {
    m[n][c] - (if labels[n] == c then 1.0 else 0.0)
  }

  /** The probability rows and label ids the gradient sums over: one row of k entries per label. */
  predicate ProbabilityShape(m: seq<seq<real>>, labels: seq<int>, k: nat) {
    |m| == |labels| && Rectangular(m, k)
  }

  /** The intercept gradient's data term at class c over the first count points. */
  function InterceptResidualSum(m: seq<seq<real>>, labels: seq<int>, k: nat, c: nat, count: nat): real
    requires ProbabilityShape(m, labels, k) && c < k && count <= |m|
  {
    if count == 0 then 0.0
    else InterceptResidualSum(m, labels, k, c, count - 1) + Residual(m, labels, count - 1, c)
  }

  /** The weight gradient's data term at class c and feature f over the first count points. */
  function WeightResidualSum(m: seq<seq<real>>, data: seq<seq<real>>, labels: seq<int>, k: nat, width: nat,
                             c: nat, f: nat, count: nat): real
    requires ProbabilityShape(m, labels, k) && c < k && count <= |m|
    requires |data| == |m| && Rectangular(data, width) && f < width
  {
    if count == 0 then 0.0
    else WeightResidualSum(m, data, labels, k, width, c, f, count - 1) + Residual(m, labels, count - 1, c) * data[count - 1][f]
  }

  /**
   * The gradient of the objective: for class c the intercept entry is the summed
   * residual plus `l2 * b_c`, and the weight entry of feature f is the residual-weighted
   * sum of the points' feature f plus `l2 * w_c,f`.
   */
  function NLLGradient(weights: seq<seq<real>>, intercepts: seq<real>, l2: real, data: seq<seq<real>>,
                       labels: seq<int>, softmax: Softmax): (g: (seq<seq<real>>, seq<real>))
    requires ModelFits(weights, intercepts, data, labels) && |data| > 0 && Rectangular(data, |data[0]|)
    ensures |g.0| == |intercepts| && |g.1| == |intercepts| && Rectangular(g.0, |data[0]|)
  {
    var m := ProbabilityMatrix(weights, intercepts, data, softmax);
    var k := |intercepts|;
    var width := |data[0]|;
    (seq(k, c requires 0 <= c < k =>
           seq(width, f requires 0 <= f < width =>
                 WeightResidualSum(m, data, labels, k, width, c, f, |data|) + weights[c][f] * l2)),
     seq(k, c requires 0 <= c < k => InterceptResidualSum(m, labels, k, c, |data|) + intercepts[c] * l2))
  }

  /** `sum(n < count) P[n][c]`. */
  function ProbabilitySum(m: seq<seq<real>>, k: nat, c: nat, count: nat): real
    requires Rectangular(m, k) && c < k && count <= |m|
  {
    if count == 0 then 0.0 else ProbabilitySum(m, k, c, count - 1) + m[count - 1][c]
  }

  /** How many of the first count points carry label c. */
  function LabelCount(labels: seq<int>, c: nat, count: nat): nat
    requires count <= |labels|
  {
    if count == 0 then 0
    else LabelCount(labels, c, count - 1) + (if labels[count - 1] == c then 1 else 0)
  }

  /** `sum(n < count) P[n][c] * x_n[f]`. */
  function WeightedProbabilitySum(m: seq<seq<real>>, data: seq<seq<real>>, k: nat, width: nat,
                                  c: nat, f: nat, count: nat): real
    requires Rectangular(m, k) && c < k && count <= |m|
    requires |data| == |m| && Rectangular(data, width) && f < width
  {
    if count == 0 then 0.0
    else WeightedProbabilitySum(m, data, k, width, c, f, count - 1) + m[count - 1][c] * data[count - 1][f]
  }

  /** The sum of feature f over those of the first count points that carry label c. */
  function LabelFeatureSum(data: seq<seq<real>>, labels: seq<int>, width: nat, c: nat, f: nat, count: nat): real
    requires count <= |data| && count <= |labels| && Rectangular(data, width) && f < width
  {
    if count == 0 then 0.0
    else LabelFeatureSum(data, labels, width, c, f, count - 1) + (if labels[count - 1] == c then data[count - 1][f] else 0.0)
  }

  /**
   * The intercept gradient's data term is the expected count of class c minus the
   * observed count: `sum_n P[n][c] - #{n : label_n == c}`.
   */
  lemma {:induction false} InterceptGradientClosedForm(m: seq<seq<real>>, labels: seq<int>, k: nat, c: nat, count: nat)
    requires ProbabilityShape(m, labels, k) && c < k && count <= |m|
    ensures InterceptResidualSum(m, labels, k, c, count) == ProbabilitySum(m, k, c, count) - LabelCount(labels, c, count) as real
  {
    if count > 0 {
      InterceptGradientClosedForm(m, labels, k, c, count - 1);
    }
  }

  /**
   * The weight gradient's data term is the probability-weighted sum of feature f minus
   * its sum over the points labelled c.
   */
  lemma {:induction false} WeightGradientClosedForm(m: seq<seq<real>>, data: seq<seq<real>>, labels: seq<int>,
                                                    k: nat, width: nat, c: nat, f: nat, count: nat)
    requires ProbabilityShape(m, labels, k) && c < k && count <= |m|
    requires |data| == |m| && Rectangular(data, width) && f < width
    ensures WeightResidualSum(m, data, labels, k, width, c, f, count)
            == WeightedProbabilitySum(m, data, k, width, c, f, count) - LabelFeatureSum(data, labels, width, c, f, count)
  {
    if count > 0 {
      WeightGradientClosedForm(m, data, labels, k, width, c, f, count - 1);
    }
  }

  /** `row[f] += scale * x[f]` for every f of the row. */
  method AddScaled(row: seq<real>, scale: real, x: seq<real>) returns (r: seq<real>)
    requires |row| <= |x|
    ensures |r| == |row|
    ensures forall f :: 0 <= f < |row| ==> r[f] == row[f] + scale * x[f]
  {
    r := row;
    var f := 0;
    while f < |row|
      invariant 0 <= f <= |row| && |r| == |row|
      invariant forall j :: 0 <= j < f ==> r[j] == row[j] + scale * x[j]
      invariant forall j :: f <= j < |row| ==> r[j] == row[j]
    {
      r := r[f := r[f] + scale * x[f]];
      f := f + 1;
    }
  }

  /** One pass of the gradient's data loop: point n adds its residuals to every class. */
  method AccumulatePoint(m: seq<seq<real>>, data: seq<seq<real>>, labels: seq<int>, k: nat, width: nat, n: nat,
                         gradients: seq<seq<real>>, interceptGradients: seq<real>)
    returns (g: seq<seq<real>>, ig: seq<real>)
    requires ProbabilityShape(m, labels, k) && n < |m| && |data| == |m| && Rectangular(data, width)
    requires |gradients| == k && Rectangular(gradients, width) && |interceptGradients| == k
    ensures |g| == k && Rectangular(g, width) && |ig| == k
    ensures forall c :: 0 <= c < k ==> ig[c] == interceptGradients[c] + Residual(m, labels, n, c)
    ensures forall c, f :: 0 <= c < k && 0 <= f < width ==>
              g[c][f] == gradients[c][f] + Residual(m, labels, n, c) * data[n][f]
  {
    g, ig := gradients, interceptGradients;
    var c := 0;
    while c < k
      invariant 0 <= c <= k && |g| == k && Rectangular(g, width) && |ig| == k
      invariant forall j :: 0 <= j < c ==> ig[j] == interceptGradients[j] + Residual(m, labels, n, j)
      invariant forall j :: c <= j < k ==> ig[j] == interceptGradients[j] && g[j] == gradients[j]
      invariant forall j, f :: 0 <= j < c && 0 <= f < width ==>
                  g[j][f] == gradients[j][f] + Residual(m, labels, n, j) * data[n][f]
    {
      var val := m[n][c];
      if labels[n] == c {
        val := val - 1.0;
      }
      ig := ig[c := ig[c] + val];
      var row := AddScaled(g[c], val, data[n]);
      g := g[c := row];
      c := c + 1;
    }
  }

  /** The regulariser loop of the gradient: `l2` times every intercept and weight is added. */
  method AddRegularizerGradient(weights: seq<seq<real>>, intercepts: seq<real>, l2: real, width: nat,
                                gradients: seq<seq<real>>, interceptGradients: seq<real>)
    returns (g: seq<seq<real>>, ig: seq<real>)
    requires |weights| == |intercepts| == |gradients| == |interceptGradients|
    requires Rectangular(weights, width) && Rectangular(gradients, width)
    ensures |g| == |gradients| && Rectangular(g, width) && |ig| == |interceptGradients|
    ensures forall c :: 0 <= c < |ig| ==> ig[c] == interceptGradients[c] + intercepts[c] * l2
    ensures forall c, f :: 0 <= c < |g| && 0 <= f < width ==> g[c][f] == gradients[c][f] + weights[c][f] * l2
  {
    g, ig := gradients, interceptGradients;
    var c := 0;
    while c < |weights|
      invariant 0 <= c <= |weights| && |g| == |gradients| && Rectangular(g, width) && |ig| == |interceptGradients|
      invariant forall j :: 0 <= j < c ==> ig[j] == interceptGradients[j] + intercepts[j] * l2
      invariant forall j :: c <= j < |ig| ==> ig[j] == interceptGradients[j] && g[j] == gradients[j]
      invariant forall j, f :: 0 <= j < c && 0 <= f < width ==> g[j][f] == gradients[j][f] + weights[j][f] * l2
    {
      ig := ig[c := ig[c] + intercepts[c] * l2];
      var row := AddScaled(g[c], l2, weights[c]);
      g := g[c := row];
      c := c + 1;
    }
  }

  /** The data loop of the gradient: every point's residuals summed per class and feature. */
  method AccumulateResiduals(m: seq<seq<real>>, data: seq<seq<real>>, labels: seq<int>, k: nat, width: nat)
    returns (gradients: seq<seq<real>>, ig: seq<real>)
    requires ProbabilityShape(m, labels, k) && |data| == |m| && Rectangular(data, width)
    ensures |gradients| == k && Rectangular(gradients, width) && |ig| == k
    ensures forall c :: 0 <= c < k ==> ig[c] == InterceptResidualSum(m, labels, k, c, |data|)
    ensures forall c, f :: 0 <= c < k && 0 <= f < width ==>
              gradients[c][f] == WeightResidualSum(m, data, labels, k, width, c, f, |data|)
  {
    gradients := seq(k, c => RealZeros(width));
    ig := RealZeros(k);
    var n := 0;
    while n < |data|
      invariant 0 <= n <= |data|
      invariant |gradients| == k && Rectangular(gradients, width) && |ig| == k
      invariant forall c :: 0 <= c < k ==> ig[c] == InterceptResidualSum(m, labels, k, c, n)
      invariant forall c, f :: 0 <= c < k && 0 <= f < width ==>
                  gradients[c][f] == WeightResidualSum(m, data, labels, k, width, c, f, n)
    {
      gradients, ig := AccumulatePoint(m, data, labels, k, width, n, gradients, ig);
      n := n + 1;
    }
  }

  /** The accumulated and regularised entries are those of NLLGradient. */
  lemma GradientEntries(weights: seq<seq<real>>, intercepts: seq<real>, l2: real, data: seq<seq<real>>,
                        labels: seq<int>, softmax: Softmax, g: seq<seq<real>>, b: seq<real>)
    requires ModelFits(weights, intercepts, data, labels) && |data| > 0 && Rectangular(data, |data[0]|)
    requires |g| == |intercepts| && Rectangular(g, |data[0]|) && |b| == |intercepts|
    requires var m := ProbabilityMatrix(weights, intercepts, data, softmax);
             && (forall c :: 0 <= c < |b| ==> b[c] == InterceptResidualSum(m, labels, |intercepts|, c, |data|) + intercepts[c] * l2)
             && (forall c, f :: 0 <= c < |g| && 0 <= f < |data[0]| ==>
                   g[c][f] == WeightResidualSum(m, data, labels, |intercepts|, |data[0]|, c, f, |data|) + weights[c][f] * l2)
    ensures (g, b) == NLLGradient(weights, intercepts, l2, data, labels, softmax)
  {
    var expected := NLLGradient(weights, intercepts, l2, data, labels, softmax);
    var m := ProbabilityMatrix(weights, intercepts, data, softmax);
    var k := |intercepts|;
    var width := |data[0]|;
    forall c | 0 <= c < k
      ensures g[c] == expected.0[c]
    {
      forall f | 0 <= f < width
        ensures g[c][f] == expected.0[c][f]
      {
        assert expected.0[c][f] == WeightResidualSum(m, data, labels, k, width, c, f, |data|) + weights[c][f] * l2;
      }
    }
    forall c | 0 <= c < k
      ensures b[c] == expected.1[c]
    {
      assert expected.1[c] == InterceptResidualSum(m, labels, k, c, |data|) + intercepts[c] * l2;
    }
    assert g == expected.0 && b == expected.1;
  }

  /**
   * `negativeLogLikelihoodGradient`: the weight and intercept gradients of the
   * objective, accumulated point by point and then regularised.
   */
  method NegativeLogLikelihoodGradient(weights: seq<seq<real>>, intercepts: seq<real>, l2: real, data: seq<seq<real>>,
                                       labels: seq<int>, softmax: Softmax)
    returns (weightGradients: seq<seq<real>>, interceptGradients: seq<real>)
    requires ModelFits(weights, intercepts, data, labels) && |data| > 0 && Rectangular(data, |data[0]|)
    ensures (weightGradients, interceptGradients) == NLLGradient(weights, intercepts, l2, data, labels, softmax)
  {
    var probabilities := Probabilities(weights, intercepts, data, softmax);
    assert probabilities.Ok?;
    var m := probabilities.value;
    var width := |data[0]|;
    var gradients, ig := AccumulateResiduals(m, data, labels, |intercepts|, width);
    assert Rectangular(weights, width) by {
      assert PointFits(weights, data[0]);
    }
    weightGradients, interceptGradients := AddRegularizerGradient(weights, intercepts, l2, width, gradients, ig);
    GradientEntries(weights, intercepts, l2, data, labels, softmax, weightGradients, interceptGradients);
  }

  // --------------------------------------------------------------- packing

  /** Writes row at `a[offset..]`, leaving every other entry as it was. */
  method WriteRow(a: array<real>, offset: nat, row: seq<real>)
    requires offset + |row| <= a.Length
    modifies a
    ensures a[..offset] == old(a[..offset])
    ensures a[offset..offset + |row|] == row
  {
    var j := 0;
    while j < |row|
      invariant 0 <= j <= |row|
      invariant a[..offset] == old(a[..offset])
      invariant a[offset..offset + j] == row[..j]
    {
      a[offset + j] := row[j];
      j := j + 1;
    }
  }

  /** A prefix of the rows flattens to no more entries than all of them. */
  lemma {:induction false} FlattenPrefixShorter(m: seq<seq<real>>, c: nat)
    requires c <= |m|
    ensures |Flatten(m[..c])| <= |Flatten(m)|
    decreases |m|
  {
    if c < |m| {
      var front := m[..|m| - 1];
      assert front[..c] == m[..c];
      FlattenPrefixShorter(front, c);
    } else {
      assert m[..c] == m;
    }
  }

  /** Writes the rows one after another from `a[offset..]`, leaving `a[..offset]` as it was. */
  method WriteRows(a: array<real>, offset: nat, rows: seq<seq<real>>)
    requires offset + |Flatten(rows)| <= a.Length
    modifies a
    ensures a[..offset] == old(a[..offset])
    ensures a[offset..offset + |Flatten(rows)|] == Flatten(rows)
  {
    var c := 0;
    var position := offset;
    while c < |rows|
      invariant 0 <= c <= |rows|
      invariant position == offset + |Flatten(rows[..c])| <= a.Length
      invariant a[..offset] == old(a[..offset])
      invariant a[offset..position] == Flatten(rows[..c])
    {
      assert Flatten(rows[..c + 1]) == Flatten(rows[..c]) + rows[c] by {
        assert rows[..c + 1][..c] == rows[..c];
      }
      FlattenPrefixShorter(rows, c + 1);
      ghost var written := a[offset..position];
      WriteRow(a, position, rows[c]);
      assert a[..offset] == a[..position][..offset];
      assert a[offset..position] == a[..position][offset..];
      assert a[offset..position + |rows[c]|] == a[offset..position] + a[position..position + |rows[c]|];
      position := position + |rows[c]|;
      c := c + 1;
    }
    assert rows[..c] == rows;
  }

  /**
   * The gradient packing of `negativeLogLikelihoodGradientOptimize`: the intercept
   * gradients first, then the weight gradient rows, at the offsets the unpacking reads.
   */
  method PackGradients(weightGradients: seq<seq<real>>, interceptGradients: seq<real>) returns (gradients: seq<real>)
    requires |weightGradients| > 0 && Rectangular(weightGradients, |weightGradients[0]|)
    ensures gradients == Packed(weightGradients, interceptGradients)
  {
    var width := |weightGradients[0]|;
    var k := |interceptGradients|;
    FlattenRows(weightGradients, width);
    var a := new real[k + |weightGradients| * width];
    WriteRow(a, 0, interceptGradients);
    assert a[..k] == interceptGradients;
    WriteRows(a, k, weightGradients);
    assert a[..] == a[..k] + a[k..k + |Flatten(weightGradients)|];
    return a[..];
  }

  // ------------------------------------------------------------- callbacks

  /**
   * What `train` hands the optimizer: K > 0 labels, at least one point, every point as
   * wide as the first, and one label id in `[0, K)` per point.
   */
  predicate TrainingData(data: seq<seq<real>>, labels: seq<int>, k: nat) {
    k > 0 && |data| > 0 && Rectangular(data, |data[0]|) && |labels| == |data| && LabelsInRange(labels, k)
  }

  /** A vector of length `K*(1+N)` unpacks into a model that fits the training data. */
  lemma UnpackFits(data: seq<seq<real>>, labels: seq<int>, k: nat, params: seq<real>)
    requires TrainingData(data, labels, k) && |params| == k * (1 + |data[0]|)
    ensures k <= |params|
    ensures ModelFits(Unpack(params, k).0, Unpack(params, k).1, data, labels)
    ensures Rectangular(Unpack(params, k).0, |data[0]|)
  {
    PackedWidth(k, |data[0]|);
  }

  /** Unpacking a vector of length `K*(1+N)` and packing it again gives the vector back. */
  lemma PackedUnpackExact(params: seq<real>, k: nat, n: nat)
    requires k > 0 && |params| == k * (1 + n)
    ensures k <= |params|
    ensures |Unpack(params, k).0| == k && |Unpack(params, k).1| == k
    ensures Rectangular(Unpack(params, k).0, n)
    ensures Packed(Unpack(params, k).0, Unpack(params, k).1) == params
  {
    PackedWidth(k, n);
    PackedUnpack(params, k);
    assert params[..k + k * n] == params;
  }

  /**
   * `negativeLogLikelihoodOptimize`: the objective at the unpacked parameters. The
   * optimizers only evaluate it on vectors of the initial length; on any other length
   * it is 0.
   */
  function ObjectiveAt(data: seq<seq<real>>, labels: seq<int>, k: nat, l2: real, softmax: Softmax,
                       ln: real -> real, params: seq<real>): real
    requires TrainingData(data, labels, k)
  {
    if |params| == k * (1 + |data[0]|) then
      UnpackFits(data, labels, k, params);
      var model := Unpack(params, k);
      NLL(model.0, model.1, l2, data, labels, softmax, ln)
    else 0.0
  }

  /**
   * `negativeLogLikelihoodGradientOptimize`: the gradient at the unpacked parameters,
   * packed in the parameter layout; one entry per parameter. On a vector of another
   * length it is all zeros.
   */
  function GradientAt(data: seq<seq<real>>, labels: seq<int>, k: nat, l2: real, softmax: Softmax,
                      params: seq<real>): (g: seq<real>)
    requires TrainingData(data, labels, k)
    ensures |g| == |params|
  {
    if |params| == k * (1 + |data[0]|) then
      UnpackFits(data, labels, k, params);
      var model := Unpack(params, k);
      var gradient := NLLGradient(model.0, model.1, l2, data, labels, softmax);
      FlattenRows(gradient.0, |data[0]|);
      PackedWidth(k, |data[0]|);
      Packed(gradient.0, gradient.1)
    else RealZeros(|params|)
  }

  /**
   * `negativeLogLikelihoodGradientBatchOptimize`: the gradient over the selected points
   * and their labels only. A batch is never empty and its points are positions of the
   * data; for any other selection it is all zeros.
   */
  function BatchGradientAt(data: seq<seq<real>>, labels: seq<int>, k: nat, l2: real, softmax: Softmax,
                           params: seq<real>, points: seq<int>): (g: seq<real>)
    requires TrainingData(data, labels, k)
    ensures |g| == |params|
  {
    if |points| > 0 && forall i :: 0 <= i < |points| ==> 0 <= points[i] < |data| then
      var batch := SelectIndexes(data, points);
      assert Rectangular(batch, |batch[0]|);
      GradientAt(batch, SelectIndexes(labels, points), k, l2, softmax, params)
    else RealZeros(|params|)
  }

  /** The batch gradient only reads the selected points: data that agree there give the same gradient. */
  lemma BatchGradientReadsSelectedPoints(data: seq<seq<real>>, labels: seq<int>, other: seq<seq<real>>,
                                         otherLabels: seq<int>, k: nat, l2: real, softmax: Softmax,
                                         params: seq<real>, points: seq<int>)
    requires TrainingData(data, labels, k) && TrainingData(other, otherLabels, k) && |data| == |other|
    requires forall i :: 0 <= i < |points| ==>
               && 0 <= points[i] < |data|
               && other[points[i]] == data[points[i]]
               && otherLabels[points[i]] == labels[points[i]]
    ensures BatchGradientAt(data, labels, k, l2, softmax, params, points)
            == BatchGradientAt(other, otherLabels, k, l2, softmax, params, points)
  {
    assert SelectIndexes(data, points) == SelectIndexes(other, points);
    assert SelectIndexes(labels, points) == SelectIndexes(otherLabels, points);
  }

  /** A batch of every point, in order, gives the full gradient. */
  lemma FullBatchIsFullGradient(data: seq<seq<real>>, labels: seq<int>, k: nat, l2: real, softmax: Softmax,
                                params: seq<real>)
    requires TrainingData(data, labels, k)
    ensures BatchGradientAt(data, labels, k, l2, softmax, params, RangeSlice(|data|))
            == GradientAt(data, labels, k, l2, softmax, params)
  {
    var points := RangeSlice(|data|);
    assert SelectIndexes(data, points) == data;
    assert SelectIndexes(labels, points) == labels;
  }

  function ObjectiveCallback(data: seq<seq<real>>, labels: seq<int>, k: nat, l2: real, softmax: Softmax,
                             ln: real -> real): seq<real> -> real
    requires TrainingData(data, labels, k)
  {
    params => ObjectiveAt(data, labels, k, l2, softmax, ln, params)
  }

  function GradientCallback(data: seq<seq<real>>, labels: seq<int>, k: nat, l2: real, softmax: Softmax):
    seq<real> -> seq<real>
    requires TrainingData(data, labels, k)
  {
    params => GradientAt(data, labels, k, l2, softmax, params)
  }

  function BatchGradientCallback(data: seq<seq<real>>, labels: seq<int>, k: nat, l2: real, softmax: Softmax):
    (seq<real>, seq<int>) -> seq<real>
    requires TrainingData(data, labels, k)
  {
    (params, points) => BatchGradientAt(data, labels, k, l2, softmax, params, points)
  }

  /** Both gradient callbacks give one entry per parameter, as the optimizers require. */
  lemma CallbacksDefined(data: seq<seq<real>>, labels: seq<int>, k: nat, l2: real, softmax: Softmax, n: nat)
    requires TrainingData(data, labels, k)
    ensures GradientDefined(GradientCallback(data, labels, k, l2, softmax), n)
    ensures OptimizeSGD.BatchGradientDefined(BatchGradientCallback(data, labels, k, l2, softmax), n)
  {
  }

  // ------------------------------------------------------------- optimizer

  /** The optimizers a model can be configured with. */
  datatype Optimizer = GradientDescentOptimizer(gd: OptimizeGD.GradientDescent) | SGDOptimizer(sgd: OptimizeSGD.SGD)
  {
    /** What running needs: SGD's batches hold at least one point. */
    predicate Valid() {
      SGDOptimizer? ==> sgd.batchSize > 0
    }

    /** Only stochastic gradient descent supports batches. */
    function SupportsBatch(): (b: bool)
      ensures b <==> SGDOptimizer?
    {
      match this
      case GradientDescentOptimizer(gd) => gd.SupportsBatch()
      case SGDOptimizer(sgd) => sgd.SupportsBatch()
    }

    /** `Optimize`: gradient descent runs; SGD panics. */
    method Optimize(initialParams: seq<real>, objective: seq<real> -> real, gradient: seq<real> -> seq<real>)
      returns (r: Result<seq<real>>, ghost steps: nat)
      requires Valid() && GradientDefined(gradient, |initialParams|)
      ensures SGDOptimizer? ==> r.Panic?
      ensures GradientDescentOptimizer? ==>
                && r.Ok?
                && steps == StepsTaken(objective, gradient, gd.alpha, gd.tolerence, initialParams, gd.maxIterations)
                && r.value == Iterate(initialParams, gradient, gd.alpha, steps)
    {
      match this
      case GradientDescentOptimizer(gd) =>
        var params;
        params, steps := gd.Optimize(initialParams, objective, gradient);
        return Ok(params), steps;
      case SGDOptimizer(sgd) =>
        return sgd.Optimize(initialParams, objective, gradient), 0;
    }

    /** `OptimizeBatch`: SGD runs over shuffles of the given points; gradient descent panics. */
    method OptimizeBatch(initialParams: seq<real>, points: seq<int>, objective: seq<real> -> real,
                         gradient: (seq<real>, seq<int>) -> seq<real>)
      returns (r: Result<seq<real>>, ghost orders: seq<seq<int>>)
      requires Valid() && OptimizeSGD.BatchGradientDefined(gradient, |initialParams|)
      ensures GradientDescentOptimizer? ==> r.Panic?
      ensures SGDOptimizer? ==>
                && r.Ok?
                && (forall i :: 0 <= i < |orders| ==> multiset(orders[i]) == multiset(points))
                && OptimizeSGD.StopsAfter(objective, gradient, sgd.alpha, sgd.tolerence, sgd.batchSize,
                                          initialParams, orders, sgd.maxIterations)
                && r.value == OptimizeSGD.Run(initialParams, orders, gradient, sgd.alpha, sgd.batchSize)
    {
      match this
      case GradientDescentOptimizer(gd) =>
        return gd.OptimizeBatch(initialParams, points, objective, gradient), [];
      case SGDOptimizer(sgd) =>
        var params;
        params, orders := sgd.OptimizeBatch(initialParams, points, objective, gradient);
        return Ok(params), orders;
    }
  }

  /**
   * The parameters a training run ends with: gradient descent's iterate after the
   * steps its stopping rule fixes, or SGD's run over shuffles of the points
   * `0..len(data)-1`, both started from the all-zero vector of length `K*(1+N)`.
   */
  ghost predicate Optimized(optimizer: Optimizer, data: seq<seq<real>>, labels: seq<int>, k: nat, l2: real,
                            softmax: Softmax, ln: real -> real, params: seq<real>, orders: seq<seq<int>>)
    requires optimizer.Valid()
  {
    && TrainingData(data, labels, k)
    && var p0 := RealZeros(k * (1 + |data[0]|));
       var objective := ObjectiveCallback(data, labels, k, l2, softmax, ln);
       CallbacksDefined(data, labels, k, l2, softmax, |p0|);
       match optimizer
       case GradientDescentOptimizer(gd) =>
         var gradient := GradientCallback(data, labels, k, l2, softmax);
         params == Iterate(p0, gradient, gd.alpha, StepsTaken(objective, gradient, gd.alpha, gd.tolerence, p0, gd.maxIterations))
       case SGDOptimizer(sgd) =>
         var gradient := BatchGradientCallback(data, labels, k, l2, softmax);
         && (forall i :: 0 <= i < |orders| ==> multiset(orders[i]) == multiset(RangeSlice(|data|)))
         && OptimizeSGD.StopsAfter(objective, gradient, sgd.alpha, sgd.tolerence, sgd.batchSize, p0, orders, sgd.maxIterations)
         && params == OptimizeSGD.Run(p0, orders, gradient, sgd.alpha, sgd.batchSize)
  }

  /**
   * `train`: starts from K*(1+N) zeros, takes the batch path exactly when the optimizer
   * supports batches (with the points `0..len(data)-1`), and unpacks the optimized
   * vector into K weight rows of N features and K intercepts.
   */
  method Fit(optimizer: Optimizer, data: seq<seq<real>>, labels: seq<int>, k: nat, l2: real,
             softmax: Softmax, ln: real -> real)
    returns (weights: seq<seq<real>>, intercepts: seq<real>, ghost orders: seq<seq<int>>)
    requires optimizer.Valid() && TrainingData(data, labels, k)
    ensures |weights| == k && |intercepts| == k && Rectangular(weights, |data[0]|)
    ensures Optimized(optimizer, data, labels, k, l2, softmax, ln, Packed(weights, intercepts), orders)
  {
    var initialParams := RealZeros(k * (1 + |data[0]|));
    var objective := ObjectiveCallback(data, labels, k, l2, softmax, ln);
    CallbacksDefined(data, labels, k, l2, softmax, |initialParams|);
    var params: seq<real>;
    orders := [];
    if optimizer.SupportsBatch() {
      var r;
      r, orders := optimizer.OptimizeBatch(initialParams, RangeSlice(|data|), objective,
                                           BatchGradientCallback(data, labels, k, l2, softmax));
      assert r.Ok?;
      params := r.value;
    } else {
      var r;
      ghost var steps;
      r, steps := optimizer.Optimize(initialParams, objective, GradientCallback(data, labels, k, l2, softmax));
      assert r.Ok?;
      params := r.value;
    }
    assert |params| == |initialParams|;
    PackedUnpackExact(params, k, |data[0]|);
    weights, intercepts := Unpack(params, k).0, Unpack(params, k).1;
  }

  // -------------------------------------------------------------- training

  /** The numbers of each numeric tuple, in order (`ToFloatSlice`). */
  function NumericData(tuples: seq<Tuple>): (data: seq<seq<real>>)
    requires FeaturesReducer.AllNumeric(tuples)
    ensures |data| == |tuples|
    ensures forall i :: 0 <= i < |tuples| ==> data[i] == tuples[i].values
  {
    seq(|tuples|, i requires 0 <= i < |tuples| => tuples[i].values)
  }

  /** Adding the next class to the prefix seen so far: the vocabulary grows only by an unseen label. */
  lemma FirstSeenStep(cs: seq<Label>, i: nat)
    requires i < |cs|
    ensures FirstSeen(cs[..i + 1]) == if cs[i] in FirstSeen(cs[..i]) then FirstSeen(cs[..i]) else FirstSeen(cs[..i]) + [cs[i]]
  {
    assert cs[..i + 1][..i] == cs[..i];
  }

  /** `labelMap` maps exactly the labels seen so far, which are distinct, each to its position among them. */
  ghost predicate IndexesLabels(labelMap: map<Label, int>, labels: seq<Label>) {
    && Distinct(labels)
    && (forall l :: l in labelMap <==> l in labels)
    && (forall l :: l in labelMap ==> 0 <= labelMap[l] < |labels| && labels[labelMap[l]] == l)
  }

  /**
   * The labels of the first i classes are recorded: the labels in first-seen order, the
   * map from each to its position, and one id per class naming its label.
   */
  ghost predicate LabelsRecorded(cs: seq<Label>, i: nat, labels: seq<Label>, labelMap: map<Label, int>, ids: seq<int>) {
    && i <= |cs|
    && labels == FirstSeen(cs[..i])
    && IndexesLabels(labelMap, labels)
    && |ids| == i
    && forall j :: 0 <= j < i ==> 0 <= ids[j] < |labels| && labels[ids[j]] == cs[j]
  }

  /**
   * One label of the loop of `Train`: an unseen label gets the next identifier and is
   * appended; the identifiers of the labels already seen do not change.
   */
  method RecordLabel(labels: seq<Label>, labelMap: map<Label, int>, c: Label, ghost cs: seq<Label>, ghost i: nat,
                     ghost ids: seq<int>)
    returns (newLabels: seq<Label>, newMap: map<Label, int>, id: int)
    requires i < |cs| && cs[i] == c && LabelsRecorded(cs, i, labels, labelMap, ids)
    ensures newLabels == if c in labels then labels else labels + [c]
    ensures LabelsRecorded(cs, i + 1, newLabels, newMap, ids + [id])
  {
    FirstSeenStep(cs, i);
    newLabels, newMap := labels, labelMap;
    if c !in labelMap {
      newMap := labelMap[c := |labels|];
      newLabels := labels + [c];
    }
    id := newMap[c];
  }

  /** The first i tuples are numeric, all have `size` numbers, and `rows` holds their numbers in order. */
  predicate NumericRowsOfSize(tuples: seq<Tuple>, i: nat, size: int, rows: seq<seq<real>>)
    requires i <= |tuples|
  {
    && |rows| == i
    && forall j :: 0 <= j < i ==> tuples[j].NumericTuple? && BaseDiscretize.DataSize(tuples[j]) == size && rows[j] == tuples[j].values
  }

  /** All tuples collected: they are numeric, share the first tuple's size, and the rows are their numbers. */
  lemma NumericRowsAll(tuples: seq<Tuple>, size: int, rows: seq<seq<real>>)
    requires NumericRowsOfSize(tuples, |tuples|, size, rows)
    requires |tuples| > 0 ==> size == BaseDiscretize.DataSize(tuples[0])
    ensures FeaturesReducer.AllNumeric(tuples) && FeaturesReducer.SameDataSize(tuples)
    ensures rows == NumericData(tuples)
  {
  }

  /** Once every class is recorded, the labels and ids are the ones `Train` specifies. */
  lemma CollectedAll(tuples: seq<Tuple>, labels: seq<Label>, labelMap: map<Label, int>, dataLabels: seq<int>)
    requires LabelsRecorded(Classes(tuples), |tuples|, labels, labelMap, dataLabels)
    ensures labels == FirstSeen(Classes(tuples))
    ensures dataLabels == LabelIds(Classes(tuples))
  {
    var cs := Classes(tuples);
    assert cs[..|tuples|] == cs;
    FirstSeenIsVocabulary(cs);
    forall j | 0 <= j < |cs|
      ensures dataLabels[j] == LabelIds(cs)[j]
    {
      assert labels[LabelIds(cs)[j]] == cs[j];
    }
  }

  lemma NumericRowsStep(tuples: seq<Tuple>, i: nat, size: int, rows: seq<seq<real>>)
    requires i < |tuples| && NumericRowsOfSize(tuples, i, size, rows)
    requires tuples[i].NumericTuple? && BaseDiscretize.DataSize(tuples[i]) == size
    ensures NumericRowsOfSize(tuples, i + 1, size, rows + [tuples[i].values])
  {
  }

  /**
   * The loop of `Train`: panics on the first tuple that is not a `NumericTuple` or
   * whose `DataSize` differs from the first tuple's; otherwise returns the labels in
   * the order they are first seen, the numbers of every tuple, and the id of every
   * tuple's label, that is its index among the labels.
   */
  method CollectTrainingData(tuples: seq<Tuple>) returns (r: Result<(seq<Label>, seq<seq<real>>, seq<int>)>)
    ensures r.Ok? <==> FeaturesReducer.AllNumeric(tuples) && FeaturesReducer.SameDataSize(tuples)
    ensures r.Ok? ==> && r.value.0 == FirstSeen(Classes(tuples))
                      && r.value.1 == NumericData(tuples)
                      && r.value.2 == LabelIds(Classes(tuples))
  {
    ghost var cs := Classes(tuples);
    var numFeatures: int := -1;
    var numericData: seq<seq<real>> := [];
    var dataLabels: seq<int> := [];
    var labels: seq<Label> := [];
    var labelMap: map<Label, int> := map[];
    var i := 0;
    while i < |tuples|
      invariant 0 <= i <= |tuples|
      invariant i == 0 <==> numFeatures == -1
      invariant i > 0 ==> numFeatures == BaseDiscretize.DataSize(tuples[0])
      invariant NumericRowsOfSize(tuples, i, numFeatures, numericData)
      invariant LabelsRecorded(cs, i, labels, labelMap, dataLabels)
    {
      var tuple := tuples[i];
      if !tuple.NumericTuple? {
        assert !FeaturesReducer.AllNumeric(tuples) by {
          assert !tuples[i].NumericTuple?;
        }
        return Panic(NOT_NUMERIC_TUPLE);
      }
      var id;
      labels, labelMap, id := RecordLabel(labels, labelMap, tuple.classFeature, cs, i, dataLabels);
      ghost var rows := numericData;
      numericData := numericData + [tuple.values];
      dataLabels := dataLabels + [id];
      if numFeatures == -1 {
        numFeatures := BaseDiscretize.DataSize(tuple);
      } else if numFeatures != BaseDiscretize.DataSize(tuple) {
        assert !FeaturesReducer.SameDataSize(tuples) by {
          assert BaseDiscretize.DataSize(tuples[i]) != BaseDiscretize.DataSize(tuples[0]);
        }
        return Panic(INCONSISTENT_FEATURES);
      }
      NumericRowsStep(tuples, i, numFeatures, rows);
      i := i + 1;
    }
    NumericRowsAll(tuples, numFeatures, numericData);
    CollectedAll(tuples, labels, labelMap, dataLabels);
    return Ok((labels, numericData, dataLabels));
  }

  /** Numeric tuples of one size make training data: at least one label, one row per tuple, ids in range. */
  lemma CollectedIsTrainingData(tuples: seq<Tuple>)
    requires |tuples| > 0 && FeaturesReducer.AllNumeric(tuples) && FeaturesReducer.SameDataSize(tuples)
    ensures TrainingData(NumericData(tuples), LabelIds(Classes(tuples)), |FirstSeen(Classes(tuples))|)
    ensures |NumericData(tuples)[0]| == BaseDiscretize.DataSize(tuples[0])
  {
    var cs := Classes(tuples);
    FirstSeenIsVocabulary(cs);
    assert cs[0] in FirstSeen(cs);
    var data := NumericData(tuples);
    forall i | 0 <= i < |data|
      ensures |data[i]| == |data[0]|
    {
      assert BaseDiscretize.DataSize(tuples[i]) == |tuples[i].values|;
      assert BaseDiscretize.DataSize(tuples[0]) == |tuples[0].values|;
    }
  }

  /** A negative L2 penalty selects the default; 0 and every positive penalty are kept. */
  function DefaultL2Penalty(l2Penalty: real): (p: real)
    ensures p >= 0.0
    ensures l2Penalty >= 0.0 ==> p == l2Penalty
    ensures l2Penalty < 0.0 ==> p == LR_DEFAULT_L2_PENALTY
  {
    if l2Penalty < 0.0 then LR_DEFAULT_L2_PENALTY else l2Penalty
  }

  /** A missing optimizer selects `NewSGD(0, 0, 0, 0)`, SGD with its default settings, which can run. */
  function DefaultOptimizer(optimizer: Option<Optimizer>): (o: Optimizer)
    ensures optimizer.Some? ==> o == optimizer.value
    ensures optimizer.None? ==> o == SGDOptimizer(OptimizeSGD.NewSGD(0, 0.0, 0.0, 0)) && o.SGDOptimizer?
                                 && o.sgd.maxIterations == OptimizeSGD.OPTIMIZER_SGD_DEFAULT_MAX_ITERATIONS
                                 && o.sgd.batchSize == OptimizeSGD.OPTIMIZER_SGD_DEFAULT_BATCH_SIZE
    ensures optimizer.None? || optimizer.value.Valid() ==> o.Valid()
  {
    if optimizer.Some? then optimizer.value else SGDOptimizer(OptimizeSGD.NewSGD(0, 0.0, 0.0, 0))
  }

  // ------------------------------------------------------------ classifying

  /**
   * `classify`: the probabilities of every point, then per point the index of its most
   * probable class (the first, on ties) and that probability. A point whose width
   * differs from a weight row panics in `dot`.
   */
  method ClassifyData(weights: seq<seq<real>>, intercepts: seq<real>, data: seq<seq<real>>, softmax: Softmax)
    returns (r: Result<(seq<nat>, seq<real>)>)
    requires |weights| <= |intercepts| && (|weights| > 0 || |data| == 0)
    ensures r.Ok? <==> AllPointsFit(weights, data)
    ensures r.Ok? ==> |r.value.0| == |data| && |r.value.1| == |data|
    ensures r.Ok? ==> forall n :: 0 <= n < |data| ==>
                        var p := ClassProbabilities(weights, intercepts, data[n], softmax);
                        && r.value.0[n] == ArgMax(p) < |weights|
                        && r.value.1[n] == p[r.value.0[n]]
                        && (forall c :: 0 <= c < |p| ==> p[c] <= r.value.1[n])
  {
    var probabilities := Probabilities(weights, intercepts, data, softmax);
    if probabilities.Panic? {
      return Panic(probabilities.reason);
    }
    var m := probabilities.value;
    var results := new nat[|data|];
    var resultProbabilities := new real[|data|];
    var i := 0;
    while i < |data|
      invariant 0 <= i <= |data|
      invariant forall n :: 0 <= n < i ==> && results[n] == ArgMax(m[n]) < |m[n]|
                                           && resultProbabilities[n] == m[n][results[n]]
    {
      var maxProbabilityIndex := ArgMax(m[i]);
      results[i] := maxProbabilityIndex;
      resultProbabilities[i] := m[i][maxProbabilityIndex];
      i := i + 1;
    }
    return Ok((results[..], resultProbabilities[..]));
  }

  /** A trained classifier: its settings, and for every label one weight row and one intercept. */
  class LogisticRegression {
    const reducer: FeaturesReducer.Reducer
    const optimizer: Optimizer
    const l2Penalty: real

    /** [class][feature] */
    var weights: seq<seq<real>>
    var intercepts: seq<real>
    var labels: seq<Label>

    predicate Valid()
      reads this
    {
      optimizer.Valid() && |weights| == |intercepts| == |labels|
    }

    /** `NewLogisticRegression`: nil settings take their defaults; nothing is trained yet. */
    constructor (reducer: Option<FeaturesReducer.Reducer>, optimizer: Option<Optimizer>, l2Penalty: real)
      requires optimizer.Some? ==> optimizer.value.Valid()
      ensures this.reducer == FeaturesReducer.DefaultReducer(reducer)
      ensures this.optimizer == DefaultOptimizer(optimizer)
      ensures this.l2Penalty == DefaultL2Penalty(l2Penalty)
      ensures weights == [] && intercepts == [] && labels == []
      ensures Valid()
    {
      this.reducer := FeaturesReducer.DefaultReducer(reducer);
      this.optimizer := DefaultOptimizer(optimizer);
      this.l2Penalty := DefaultL2Penalty(l2Penalty);
      weights, intercepts, labels := [], [], [];
    }

    /**
     * `Train`: panics on no tuples, when the reducer's `Init` panics, on a tuple that is
     * not numeric and on tuples of different sizes; otherwise the labels are the distinct
     * classes in first-seen order, there is one weight row of `DataSize` features and one
     * intercept per label, and they are what the optimizer makes of the regularised
     * negative log-likelihood.
     */
    method Train(tuples: seq<Tuple>, softmax: Softmax, ln: real -> real) returns (r: Result<()>, ghost orders: seq<seq<int>>)
      requires Valid()
      modifies this
      ensures r.Ok? <==> |tuples| > 0 && FeaturesReducer.AllNumeric(tuples) && FeaturesReducer.SameDataSize(tuples)
      ensures r.Ok? ==> && Valid()
                        && labels == FirstSeen(Classes(tuples))
                        && Rectangular(weights, BaseDiscretize.DataSize(tuples[0]))
                        && Optimized(optimizer, NumericData(tuples), LabelIds(Classes(tuples)), |labels|, l2Penalty,
                                     softmax, ln, Packed(weights, intercepts), orders)
    {
      orders := [];
      if |tuples| == 0 {
        return Panic(NO_TUPLES), orders;
      }
      var init := FeaturesReducer.Init(reducer, tuples);
      if init.Panic? {
        if FeaturesReducer.AllNumeric(tuples) && FeaturesReducer.SameDataSize(tuples) {
          FeaturesReducer.ConsistentTuplesPassMRMR(tuples);
        }
        return Panic(init.reason), orders;
      }
      var reduced := FeaturesReducer.Reduce(reducer, tuples);
      var collected := CollectTrainingData(reduced);
      if collected.Panic? {
        return Panic(collected.reason), orders;
      }
      CollectedIsTrainingData(tuples);
      var data, dataLabels := collected.value.1, collected.value.2;
      labels := collected.value.0;
      var w, b;
      w, b, orders := Fit(optimizer, data, dataLabels, |labels|, l2Penalty, softmax, ln);
      weights, intercepts := w, b;
      return Ok(()), orders;
    }

    /**
     * `Classify`: panics on a tuple that is not numeric or whose width differs from
     * the weight rows; otherwise, for every tuple in order, the label of its most
     * probable class (the first, on ties) and that probability.
     */
    method Classify(tuples: seq<Tuple>, softmax: Softmax) returns (r: Result<(seq<Label>, seq<real>)>)
      requires Valid() && (|labels| > 0 || |tuples| == 0)
      ensures r.Ok? <==> FeaturesReducer.AllNumeric(tuples) && AllPointsFit(weights, NumericData(tuples))
      ensures r.Ok? ==> |r.value.0| == |tuples| && |r.value.1| == |tuples|
      ensures r.Ok? ==> forall i :: 0 <= i < |tuples| ==>
                          var p := ClassProbabilities(weights, intercepts, tuples[i].values, softmax);
                          && r.value.0[i] == labels[ArgMax(p)]
                          && r.value.1[i] == p[ArgMax(p)]
                          && (forall c :: 0 <= c < |p| ==> p[c] <= r.value.1[i])
    {
      var reduced := FeaturesReducer.Reduce(reducer, tuples);
      var numericData := new seq<real>[|reduced|];
      var i := 0;
      while i < |reduced|
        invariant 0 <= i <= |reduced|
        invariant forall j :: 0 <= j < i ==> reduced[j].NumericTuple? && numericData[j] == reduced[j].values
      {
        if !reduced[i].NumericTuple? {
          return Panic(NOT_NUMERIC_TUPLE);
        }
        numericData[i] := reduced[i].values;
        i := i + 1;
      }
      assert numericData[..] == NumericData(tuples);
      var classified := ClassifyData(weights, intercepts, numericData[..], softmax);
      if classified.Panic? {
        return Panic(classified.reason);
      }
      var classIndexes, probabilities := classified.value.0, classified.value.1;
      var classes := new Label[|classIndexes|];
      var j := 0;
      while j < |classIndexes|
        invariant 0 <= j <= |classIndexes|
        invariant forall n :: 0 <= n < j ==> classes[n] == labels[classIndexes[n]]
      {
        classes[j] := labels[classIndexes[j]];
        j := j + 1;
      }
      return Ok((classes[..], probabilities));
    }
  }
}
