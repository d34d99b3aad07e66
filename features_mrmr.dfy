/**
 * The mRMR feature reducer of the `features` package, as far as it goes:
 * `Init` discretises the training set into NUM_BUCKETS buckets per feature and
 * builds the marginal probability of every bucket of every feature and the
 * joint probability of every pair of buckets of every pair of features;
 * `Reduce` returns its tuple unchanged. `Init` prints the tables and keeps
 * nothing; the model returns them instead.
 */
module FeaturesMRMR {
  import opened Wrappers
  import BaseDiscretize

  /** Panic messages. */
  const EMPTY_TRAINING_SET: string := "Empty training set"
  const INDEX_OUT_OF_RANGE: string := "index out of range"

  const NUM_FEATURES: int := 100
  const NUM_BUCKETS: int := 3

  type IntTuple = BaseDiscretize.IntTuple

  /** One joint table per feature pair: `[f1][f2]` for `f2 < f1`, and nil on the diagonal. */
  type JointTables = seq<seq<Option<seq<seq<real>>>>>

  /** `Reduce`: no reduction is made yet, so the tuple is returned as it is. */
  function Reduce(tuple: BaseDiscretize.Tuple): (r: BaseDiscretize.Tuple)
    ensures r == tuple
  {
    tuple
  }

  /** `tuple.GetIntData(fi)` is a bucket index, so it can be counted in a NUM_BUCKETS table. */
  predicate Countable(t: IntTuple, fi: int) {
    0 <= fi < |t.data| && 0 <= t.data[fi] < NUM_BUCKETS
  }

  predicate AllCountable(rows: seq<IntTuple>, fi: int) {
    forall i :: 0 <= i < |rows| ==> Countable(rows[i], fi)
  }

  function Sum(s: seq<int>): int {
    if |s| == 0 then 0 else Sum(s[..|s| - 1]) + s[|s| - 1]
  }

  function RealSum(s: seq<real>): real {
    if |s| == 0 then 0.0 else RealSum(s[..|s| - 1]) + s[|s| - 1]
  }

  /** The sum of the row sums of a table. */
  function TableSum(t: seq<seq<real>>): real {
    if |t| == 0 then 0.0 else TableSum(t[..|t| - 1]) + RealSum(t[|t| - 1])
  }

  /** The counting loop of the marginal table: one increment per row, at the row's bucket. */
  function Histogram(rows: seq<IntTuple>, fi: int): (h: seq<int>)
    requires AllCountable(rows, fi)
    ensures |h| == NUM_BUCKETS
  {
    if |rows| == 0 then BaseDiscretize.Zeros(NUM_BUCKETS)
    else
      var prefix := rows[..|rows| - 1];
      assert forall i :: 0 <= i < |prefix| ==> prefix[i] == rows[i];
      var h := Histogram(prefix, fi);
      var v := rows[|rows| - 1].data[fi];
      h[v := h[v] + 1]
  }

  /** The counting loop of the joint table: one increment per row, at its pair of buckets. */
  function Histogram2(rows: seq<IntTuple>, f1: int, f2: int): (h: seq<seq<int>>)
    requires AllCountable(rows, f1) && AllCountable(rows, f2)
    ensures |h| == NUM_BUCKETS && forall b :: 0 <= b < NUM_BUCKETS ==> |h[b]| == NUM_BUCKETS
  {
    if |rows| == 0 then [BaseDiscretize.Zeros(NUM_BUCKETS), BaseDiscretize.Zeros(NUM_BUCKETS), BaseDiscretize.Zeros(NUM_BUCKETS)]
    else
      var prefix := rows[..|rows| - 1];
      assert forall i :: 0 <= i < |prefix| ==> prefix[i] == rows[i];
      var h := Histogram2(prefix, f1, f2);
      var v1 := rows[|rows| - 1].data[f1];
      var v2 := rows[|rows| - 1].data[f2];
      h[v1 := h[v1][v2 := h[v1][v2] + 1]]
  }

  /** The rows whose feature fi falls in bucket b. */
  function RowsIn(rows: seq<IntTuple>, fi: int, b: int): set<int>
    requires AllCountable(rows, fi)
  {
    set i | 0 <= i < |rows| && rows[i].data[fi] == b
  }

  /** The count of bucket b is the number of rows whose feature fi is b. */
  lemma {:induction false} HistogramCounts(rows: seq<IntTuple>, fi: int, b: int)
    requires AllCountable(rows, fi) && 0 <= b < NUM_BUCKETS
    ensures Histogram(rows, fi)[b] == |RowsIn(rows, fi, b)|
  {
    if |rows| > 0 {
      var n := |rows| - 1;
      var prefix := rows[..n];
      assert forall i :: 0 <= i < n ==> prefix[i] == rows[i];
      HistogramCounts(prefix, fi, b);
      RowsInSnoc(rows, fi, b);
    }
  }

  /** The last row adds its own index to the rows in its bucket, and to no other bucket's. */
  lemma RowsInSnoc(rows: seq<IntTuple>, fi: int, b: int)
    requires AllCountable(rows, fi) && |rows| > 0
    ensures AllCountable(rows[..|rows| - 1], fi)
    ensures |RowsIn(rows, fi, b)| == |RowsIn(rows[..|rows| - 1], fi, b)| + if rows[|rows| - 1].data[fi] == b then 1 else 0
  {
    var n := |rows| - 1;
    var prefix := rows[..n];
    assert forall i :: 0 <= i < n ==> prefix[i] == rows[i];
    var before := RowsIn(prefix, fi, b);
    assert n !in before;
    if rows[n].data[fi] == b {
      assert RowsIn(rows, fi, b) == before + {n};
    } else {
      assert RowsIn(rows, fi, b) == before;
    }
  }

  /** Adding d to one entry adds d to the sum. */
  lemma {:induction false} SumUpdate(s: seq<int>, v: int, d: int)
    requires 0 <= v < |s|
    ensures Sum(s[v := s[v] + d]) == Sum(s) + d
  {
    var t := s[v := s[v] + d];
    var n := |s| - 1;
    assert t[..n] == if v < n then s[..n][v := s[v] + d] else s[..n];
    if v < n {
      SumUpdate(s[..n], v, d);
    }
  }

  lemma ZerosSum(n: nat)
    ensures Sum(BaseDiscretize.Zeros(n)) == 0
  {
    if n > 0 {
      assert BaseDiscretize.Zeros(n)[..n - 1] == BaseDiscretize.Zeros(n - 1);
    }
  }

  /** Every row adds exactly one count, so the counts of a feature add up to the number of rows. */
  lemma {:induction false} HistogramTotal(rows: seq<IntTuple>, fi: int)
    requires AllCountable(rows, fi)
    ensures Sum(Histogram(rows, fi)) == |rows|
  {
    if |rows| == 0 {
      ZerosSum(NUM_BUCKETS);
    } else {
      var prefix := rows[..|rows| - 1];
      assert forall i :: 0 <= i < |prefix| ==> prefix[i] == rows[i];
      HistogramTotal(prefix, fi);
      var v := rows[|rows| - 1].data[fi];
      SumUpdate(Histogram(prefix, fi), v, 1);
    }
  }

  /** Summing the joint counts over the buckets of f2 gives the counts of f1. */
  lemma {:induction false} Histogram2RowSums(rows: seq<IntTuple>, f1: int, f2: int, b1: int)
    requires AllCountable(rows, f1) && AllCountable(rows, f2) && 0 <= b1 < NUM_BUCKETS
    ensures Sum(Histogram2(rows, f1, f2)[b1]) == Histogram(rows, f1)[b1]
  {
    if |rows| == 0 {
      ZerosSum(NUM_BUCKETS);
    } else {
      var prefix := rows[..|rows| - 1];
      assert forall i :: 0 <= i < |prefix| ==> prefix[i] == rows[i];
      Histogram2RowSums(prefix, f1, f2, b1);
      var v1 := rows[|rows| - 1].data[f1];
      var v2 := rows[|rows| - 1].data[f2];
      if v1 == b1 {
        SumUpdate(Histogram2(prefix, f1, f2)[b1], v2, 1);
      }
    }
  }

  /** The sum of a list divided entry by entry by n is its sum divided by n. */
  lemma {:induction false} RealSumDivided(s: seq<int>, p: seq<real>, n: real)
    requires n > 0.0 && |p| == |s|
    requires forall i :: 0 <= i < |s| ==> p[i] == s[i] as real / n
    ensures RealSum(p) == Sum(s) as real / n
  {
    if |s| > 0 {
      var k := |s| - 1;
      RealSumDivided(s[..k], p[..k], n);
      assert RealSum(p) == Sum(s[..k]) as real / n + s[k] as real / n;
    }
  }

  /** `p` is the marginal table of feature fi: count over N for every bucket. */
  predicate IsMarginal(rows: seq<IntTuple>, fi: int, p: seq<real>)
    requires |rows| > 0
  {
    AllCountable(rows, fi) && |p| == NUM_BUCKETS
    && forall b :: 0 <= b < NUM_BUCKETS ==> p[b] == Histogram(rows, fi)[b] as real / |rows| as real
  }

  /** `p` is the joint table of features f1 and f2: pair count over N for every pair of buckets. */
  predicate IsJoint(rows: seq<IntTuple>, f1: int, f2: int, p: seq<seq<real>>)
    requires |rows| > 0
  {
    AllCountable(rows, f1) && AllCountable(rows, f2)
    && |p| == NUM_BUCKETS
    && (forall b1 :: 0 <= b1 < NUM_BUCKETS ==> |p[b1]| == NUM_BUCKETS)
    && forall b1, b2 :: 0 <= b1 < NUM_BUCKETS && 0 <= b2 < NUM_BUCKETS ==>
         p[b1][b2] == Histogram2(rows, f1, f2)[b1][b2] as real / |rows| as real
  }

  /** A marginal table is a probability distribution: its entries add up to 1. */
  lemma MarginalSumsToOne(rows: seq<IntTuple>, fi: int, p: seq<real>)
    requires |rows| > 0 && IsMarginal(rows, fi, p)
    ensures RealSum(p) == 1.0
  {
    RealSumDivided(Histogram(rows, fi), p, |rows| as real);
    HistogramTotal(rows, fi);
  }

  /**
   * A joint table agrees with the marginal table of its first feature: summing over
   * the second feature's buckets gives f1's marginal, and all its entries add up to 1.
   */
  lemma JointAgreesWithMarginal(rows: seq<IntTuple>, f1: int, f2: int, joint: seq<seq<real>>, marginal: seq<real>)
    requires |rows| > 0 && IsJoint(rows, f1, f2, joint) && IsMarginal(rows, f1, marginal)
    ensures forall b1 :: 0 <= b1 < NUM_BUCKETS ==> RealSum(joint[b1]) == marginal[b1]
    ensures TableSum(joint) == 1.0
  {
    var n := |rows| as real;
    forall b1 | 0 <= b1 < NUM_BUCKETS
      ensures RealSum(joint[b1]) == marginal[b1]
    {
      RealSumDivided(Histogram2(rows, f1, f2)[b1], joint[b1], n);
      Histogram2RowSums(rows, f1, f2, b1);
    }
    MarginalSumsToOne(rows, f1, marginal);
    TableSumOfRows(joint, marginal);
  }

  /** A table whose row sums are the entries of p sums to the sum of p. */
  lemma {:induction false} TableSumOfRows(t: seq<seq<real>>, p: seq<real>)
    requires |t| == |p| && forall i :: 0 <= i < |t| ==> RealSum(t[i]) == p[i]
    ensures TableSum(t) == RealSum(p)
  {
    if |t| > 0 {
      var k := |t| - 1;
      TableSumOfRows(t[..k], p[..k]);
    }
  }

  /**
   * `calcFeatureMarginalProbabilities`: count the rows per bucket of feature fi, then
   * divide every count by the number of rows. A row without feature fi, or whose value
   * is not a bucket index, panics.
   */
  method CalcFeatureMarginalProbabilities(discreteData: seq<IntTuple>, featureIndex: int) returns (r: Result<seq<real>>)
    requires |discreteData| > 0
    ensures r.Ok? <==> AllCountable(discreteData, featureIndex)
    ensures r.Ok? ==> IsMarginal(discreteData, featureIndex, r.value)
  {
    var probabilities := new real[NUM_BUCKETS](_ => 0.0);
    var i := 0;
    while i < |discreteData|
      invariant 0 <= i <= |discreteData|
      invariant AllCountable(discreteData[..i], featureIndex)
      invariant forall b :: 0 <= b < NUM_BUCKETS ==>
                  probabilities[b] == Histogram(discreteData[..i], featureIndex)[b] as real
    {
      var tuple := discreteData[i];
      if !Countable(tuple, featureIndex) {
        return Panic(INDEX_OUT_OF_RANGE);
      }
      assert discreteData[..i + 1][..i] == discreteData[..i];
      var v := tuple.data[featureIndex];
      probabilities[v] := probabilities[v] + 1.0;
      i := i + 1;
    }
    assert discreteData[..i] == discreteData;
    DivideAll(probabilities, Histogram(discreteData, featureIndex), |discreteData| as real);
    return Ok(probabilities[..]);
  }

  /** The division loop of `calcFeatureMarginalProbabilities`: every count divided by n, in place. */
  method DivideAll(probabilities: array<real>, ghost counts: seq<int>, n: real)
    requires n > 0.0 && probabilities.Length == |counts|
    requires forall b :: 0 <= b < |counts| ==> probabilities[b] == counts[b] as real
    modifies probabilities
    ensures forall b :: 0 <= b < |counts| ==> probabilities[b] == counts[b] as real / n
  {
    var b := 0;
    while b < probabilities.Length
      invariant 0 <= b <= probabilities.Length
      invariant forall k :: 0 <= k < probabilities.Length ==>
                  probabilities[k] == if k < b then counts[k] as real / n else counts[k] as real
    {
      probabilities[b] := probabilities[b] / n;
      b := b + 1;
    }
  }

  /** `calcAllMarginalProbabilities`: one marginal table per feature of the first row. */
  method CalcAllMarginalProbabilities(discreteData: seq<IntTuple>) returns (r: Result<seq<seq<real>>>)
    ensures |discreteData| == 0 ==> r.Panic?
    ensures r.Ok? <==> |discreteData| > 0
                       && forall fi :: 0 <= fi < |discreteData[0].data| ==> AllCountable(discreteData, fi)
    ensures r.Ok? ==> |r.value| == |discreteData[0].data|
                      && forall fi :: 0 <= fi < |r.value| ==> IsMarginal(discreteData, fi, r.value[fi])
  {
    if |discreteData| == 0 {
      return Panic(INDEX_OUT_OF_RANGE);
    }
    var probabilities := new seq<real>[|discreteData[0].data|];
    var featureIndex := 0;
    while featureIndex < |discreteData[0].data|
      invariant 0 <= featureIndex <= |discreteData[0].data|
      invariant forall fi :: 0 <= fi < featureIndex ==> AllCountable(discreteData, fi)
      invariant forall fi :: 0 <= fi < featureIndex ==> IsMarginal(discreteData, fi, probabilities[fi])
    {
      var marginal := CalcFeatureMarginalProbabilities(discreteData, featureIndex);
      if marginal.Panic? {
        return Panic(marginal.reason);
      }
      probabilities[featureIndex] := marginal.value;
      featureIndex := featureIndex + 1;
    }
    return Ok(probabilities[..]);
  }

  /**
   * `calcFeatureJointProbabilities`: count the rows per pair of buckets of features f1
   * and f2 in a NUM_BUCKETS by NUM_BUCKETS table, then divide every count by the number
   * of rows. A row missing either feature, or with a value that is not a bucket index,
   * panics.
   */
  method CalcFeatureJointProbabilities(discreteData: seq<IntTuple>, featureIndex1: int, featureIndex2: int)
    returns (r: Result<seq<seq<real>>>)
    requires |discreteData| > 0
    ensures r.Ok? <==> AllCountable(discreteData, featureIndex1) && AllCountable(discreteData, featureIndex2)
    ensures r.Ok? ==> IsJoint(discreteData, featureIndex1, featureIndex2, r.value)
  {
    var counts := CountPairs(discreteData, featureIndex1, featureIndex2);
    if counts.Panic? {
      return Panic(counts.reason);
    }
    var probabilities := DivideTable(counts.value, Histogram2(discreteData, featureIndex1, featureIndex2),
                                     |discreteData| as real);
    return Ok(probabilities);
  }

  /** The counting loop of `calcFeatureJointProbabilities`. */
  method CountPairs(discreteData: seq<IntTuple>, featureIndex1: int, featureIndex2: int) returns (r: Result<seq<seq<real>>>)
    ensures r.Ok? <==> AllCountable(discreteData, featureIndex1) && AllCountable(discreteData, featureIndex2)
    ensures r.Ok? ==> |r.value| == NUM_BUCKETS
                      && (forall b1 :: 0 <= b1 < NUM_BUCKETS ==> |r.value[b1]| == NUM_BUCKETS)
                      && forall b1, b2 :: 0 <= b1 < NUM_BUCKETS && 0 <= b2 < NUM_BUCKETS ==>
                           r.value[b1][b2] == Histogram2(discreteData, featureIndex1, featureIndex2)[b1][b2] as real
  {
    var probabilities: seq<seq<real>> := [[0.0, 0.0, 0.0], [0.0, 0.0, 0.0], [0.0, 0.0, 0.0]];
    var i := 0;
    while i < |discreteData|
      invariant 0 <= i <= |discreteData|
      invariant AllCountable(discreteData[..i], featureIndex1) && AllCountable(discreteData[..i], featureIndex2)
      invariant |probabilities| == NUM_BUCKETS
      invariant forall b1 :: 0 <= b1 < NUM_BUCKETS ==> |probabilities[b1]| == NUM_BUCKETS
      invariant forall b1, b2 :: 0 <= b1 < NUM_BUCKETS && 0 <= b2 < NUM_BUCKETS ==>
                  probabilities[b1][b2] == Histogram2(discreteData[..i], featureIndex1, featureIndex2)[b1][b2] as real
    {
      var tuple := discreteData[i];
      if !Countable(tuple, featureIndex1) || !Countable(tuple, featureIndex2) {
        return Panic(INDEX_OUT_OF_RANGE);
      }
      assert discreteData[..i + 1][..i] == discreteData[..i];
      var v1 := tuple.data[featureIndex1];
      var v2 := tuple.data[featureIndex2];
      probabilities := probabilities[v1 := probabilities[v1][v2 := probabilities[v1][v2] + 1.0]];
      i := i + 1;
    }
    assert discreteData[..i] == discreteData;
    return Ok(probabilities);
  }

  /** The division loop of `calcFeatureJointProbabilities`: every entry divided by n. */
  method DivideTable(table: seq<seq<real>>, ghost counts: seq<seq<int>>, n: real) returns (r: seq<seq<real>>)
    requires n > 0.0 && |table| == NUM_BUCKETS && |counts| == NUM_BUCKETS
    requires forall b1 :: 0 <= b1 < NUM_BUCKETS ==> |table[b1]| == NUM_BUCKETS && |counts[b1]| == NUM_BUCKETS
    requires forall b1, b2 :: 0 <= b1 < NUM_BUCKETS && 0 <= b2 < NUM_BUCKETS ==> table[b1][b2] == counts[b1][b2] as real
    ensures |r| == NUM_BUCKETS && forall b1 :: 0 <= b1 < NUM_BUCKETS ==> |r[b1]| == NUM_BUCKETS
    ensures forall b1, b2 :: 0 <= b1 < NUM_BUCKETS && 0 <= b2 < NUM_BUCKETS ==> r[b1][b2] == counts[b1][b2] as real / n
  {
    r := table;
    var i := 0;
    while i < NUM_BUCKETS
      invariant 0 <= i <= NUM_BUCKETS
      invariant |r| == NUM_BUCKETS && forall b1 :: 0 <= b1 < NUM_BUCKETS ==> |r[b1]| == NUM_BUCKETS
      invariant forall b1, b2 :: 0 <= b1 < NUM_BUCKETS && 0 <= b2 < NUM_BUCKETS ==>
                  r[b1][b2] == if b1 < i then counts[b1][b2] as real / n else counts[b1][b2] as real
    {
      var j := 0;
      while j < NUM_BUCKETS
        invariant 0 <= j <= NUM_BUCKETS
        invariant |r| == NUM_BUCKETS && forall b1 :: 0 <= b1 < NUM_BUCKETS ==> |r[b1]| == NUM_BUCKETS
        invariant forall b1, b2 :: 0 <= b1 < NUM_BUCKETS && 0 <= b2 < NUM_BUCKETS ==>
                    r[b1][b2] == if b1 < i || (b1 == i && b2 < j) then counts[b1][b2] as real / n
                                 else counts[b1][b2] as real
      {
        r := r[i := r[i][j := r[i][j] / n]];
        j := j + 1;
      }
      i := i + 1;
    }
  }

  /** The joint tables: row f1 has f1 + 1 entries, nil at f1 and the joint table of (f1, f2) at every f2 < f1. */
  predicate IsJointTables(discreteData: seq<IntTuple>, tables: JointTables)
    requires |discreteData| > 0
  {
    |tables| == |discreteData[0].data|
    && forall f1 :: 0 <= f1 < |tables| ==>
         |tables[f1]| == f1 + 1 && tables[f1][f1] == None
         && forall f2 :: 0 <= f2 < f1 ==> tables[f1][f2].Some? && IsJoint(discreteData, f1, f2, tables[f1][f2].value)
  }

  /** Row f1 of `calcAllJointProbabilities`: nil on the diagonal and the joint table for every f2 < f1. */
  method JointRow(discreteData: seq<IntTuple>, featureIndex1: nat) returns (r: Result<seq<Option<seq<seq<real>>>>>)
    requires |discreteData| > 0
    ensures r.Ok? <==> featureIndex1 == 0
                       || (AllCountable(discreteData, featureIndex1)
                           && forall f :: 0 <= f < featureIndex1 ==> AllCountable(discreteData, f))
    ensures r.Ok? ==> |r.value| == featureIndex1 + 1 && r.value[featureIndex1] == None
                      && forall f2 :: 0 <= f2 < featureIndex1 ==>
                           r.value[f2].Some? && IsJoint(discreteData, featureIndex1, f2, r.value[f2].value)
  {
    var row := new Option<seq<seq<real>>>[featureIndex1 + 1](_ => None);
    row[featureIndex1] := None;
    var featureIndex2 := 0;
    while featureIndex2 < featureIndex1
      invariant 0 <= featureIndex2 <= featureIndex1
      invariant row[featureIndex1] == None
      invariant featureIndex2 > 0 ==> AllCountable(discreteData, featureIndex1)
      invariant forall f :: 0 <= f < featureIndex2 ==> AllCountable(discreteData, f)
      invariant forall f2 :: 0 <= f2 < featureIndex2 ==>
                  row[f2].Some? && IsJoint(discreteData, featureIndex1, f2, row[f2].value)
    {
      var joint := CalcFeatureJointProbabilities(discreteData, featureIndex1, featureIndex2);
      if joint.Panic? {
        return Panic(joint.reason);
      }
      row[featureIndex2] := Some(joint.value);
      featureIndex2 := featureIndex2 + 1;
    }
    return Ok(row[..]);
  }

  /**
   * `calcAllJointProbabilities`: a triangular table over the features of the first row.
   * It panics exactly when there are at least two features and some feature is not a
   * bucket index in every row.
   */
  method CalcAllJointProbabilities(discreteData: seq<IntTuple>) returns (r: Result<JointTables>)
    ensures |discreteData| == 0 ==> r.Panic?
    ensures r.Ok? <==> |discreteData| > 0
                       && (|discreteData[0].data| <= 1
                           || forall fi :: 0 <= fi < |discreteData[0].data| ==> AllCountable(discreteData, fi))
    ensures r.Ok? ==> IsJointTables(discreteData, r.value)
  {
    if |discreteData| == 0 {
      return Panic(INDEX_OUT_OF_RANGE);
    }
    var numFeatures := |discreteData[0].data|;
    var probabilities := new seq<Option<seq<seq<real>>>>[numFeatures];
    var featureIndex1 := 0;
    while featureIndex1 < numFeatures
      invariant 0 <= featureIndex1 <= numFeatures
      invariant featureIndex1 >= 2 ==> forall f :: 0 <= f < featureIndex1 ==> AllCountable(discreteData, f)
      invariant forall f1 :: 0 <= f1 < featureIndex1 ==>
                  |probabilities[f1]| == f1 + 1 && probabilities[f1][f1] == None
                  && forall f2 :: 0 <= f2 < f1 ==>
                       probabilities[f1][f2].Some? && IsJoint(discreteData, f1, f2, probabilities[f1][f2].value)
    {
      var row := JointRow(discreteData, featureIndex1);
      if row.Panic? {
        return Panic(row.reason);
      }
      probabilities[featureIndex1] := row.value;
      featureIndex1 := featureIndex1 + 1;
    }
    assert numFeatures >= 2 ==> forall f :: 0 <= f < numFeatures ==> AllCountable(discreteData, f);
    return Ok(probabilities[..]);
  }

  /**
   * A discretised column j is a bucket index in every row exactly when every row has
   * a column j.
   */
  lemma DiscreteCountable(data: seq<BaseDiscretize.Tuple>, rows: seq<IntTuple>, fi: int)
    requires |data| > 0 && BaseDiscretize.ShapeKept(data, rows)
    requires forall i, j :: 0 <= i < |data| && 0 <= j < |rows[i].data| ==>
               rows[i].data[j] == BaseDiscretize.CellAfter(data, NUM_BUCKETS, |rows[i].data|, i, j)
    ensures AllCountable(rows, fi) <==> 0 <= fi && forall i :: 0 <= i < |data| ==> fi < BaseDiscretize.DataSize(data[i])
  {
    if AllCountable(rows, fi) {
      assert Countable(rows[0], fi);
      forall i | 0 <= i < |data|
        ensures fi < BaseDiscretize.DataSize(data[i])
      {
        assert Countable(rows[i], fi);
      }
    }
    forall i | 0 <= i < |data| && 0 <= fi < |rows[i].data|
      ensures Countable(rows[i], fi)
    {
      BaseDiscretize.CellAfterInRange(data, NUM_BUCKETS, |rows[i].data|, i, fi);
    }
  }

  /** Every feature of the first row is countable exactly when no row is shorter than the first. */
  lemma DiscreteAllCountable(data: seq<BaseDiscretize.Tuple>, rows: seq<IntTuple>)
    requires |data| > 0 && BaseDiscretize.ShapeKept(data, rows)
    requires forall i, j :: 0 <= i < |data| && 0 <= j < |rows[i].data| ==>
               rows[i].data[j] == BaseDiscretize.CellAfter(data, NUM_BUCKETS, |rows[i].data|, i, j)
    ensures (forall fi :: 0 <= fi < |rows[0].data| ==> AllCountable(rows, fi))
            <==> forall i :: 0 <= i < |data| ==> BaseDiscretize.DataSize(data[0]) <= BaseDiscretize.DataSize(data[i])
  {
    var n := |rows[0].data|;
    if forall fi :: 0 <= fi < n ==> AllCountable(rows, fi) {
      forall i | 0 <= i < |data|
        ensures n <= BaseDiscretize.DataSize(data[i])
      {
        if n > 0 {
          DiscreteCountable(data, rows, n - 1);
        }
      }
    } else {
      var fi :| 0 <= fi < n && !AllCountable(rows, fi);
      DiscreteCountable(data, rows, fi);
    }
    forall fi | 0 <= fi < n && forall i :: 0 <= i < |data| ==> n <= BaseDiscretize.DataSize(data[i])
      ensures AllCountable(rows, fi)
    {
      DiscreteCountable(data, rows, fi);
    }
  }

  /**
   * `Init`: an empty training set panics; otherwise the set is discretised into
   * NUM_BUCKETS buckets per feature and the marginal and joint tables are built from
   * it. It panics exactly when a numeric column of the first row cannot be read in
   * every row or a row is shorter than the first. Every marginal table sums to 1, and
   * every joint table sums to 1 and agrees with the marginal table of its first feature.
   */
  method Init(data: seq<BaseDiscretize.Tuple>)
    returns (r: Result<(seq<seq<real>>, JointTables)>, ghost discreteData: seq<IntTuple>)
    ensures |data| == 0 ==> r.Panic?
    ensures r.Ok? <==> |data| > 0 && BaseDiscretize.NumericColumnsReadable(data)
                       && forall i :: 0 <= i < |data| ==> BaseDiscretize.DataSize(data[0]) <= BaseDiscretize.DataSize(data[i])
    ensures r.Ok? ==> BaseDiscretize.ShapeKept(data, discreteData)
                      && forall i, j :: 0 <= i < |data| && 0 <= j < |discreteData[i].data| ==>
                           discreteData[i].data[j] == BaseDiscretize.CellAfter(data, NUM_BUCKETS, |discreteData[i].data|, i, j)
    ensures r.Ok? ==> |r.value.0| == BaseDiscretize.DataSize(data[0])
                      && forall fi :: 0 <= fi < |r.value.0| ==>
                           IsMarginal(discreteData, fi, r.value.0[fi]) && RealSum(r.value.0[fi]) == 1.0
    ensures r.Ok? ==> IsJointTables(discreteData, r.value.1)
    ensures r.Ok? ==> forall fi :: 0 <= fi < |r.value.0| ==> |r.value.0[fi]| == NUM_BUCKETS
    ensures r.Ok? ==> forall f1, f2, b1 :: 0 <= f2 < f1 < |r.value.1| && f1 < |r.value.0| && 0 <= b1 < NUM_BUCKETS ==>
                        TableSum(r.value.1[f1][f2].value) == 1.0
                        && RealSum(r.value.1[f1][f2].value[b1]) == r.value.0[f1][b1]
  {
    discreteData := [];
    if |data| == 0 {
      return Panic(EMPTY_TRAINING_SET), discreteData;
    }
    var discrete := BaseDiscretize.DiscretizeNumericFeatures(data, NUM_BUCKETS);
    if discrete.Panic? {
      return Panic(discrete.reason), discreteData;
    }
    var rows := discrete.value;
    discreteData := rows;
    DiscreteAllCountable(data, rows);
    var marginal := CalcAllMarginalProbabilities(rows);
    if marginal.Panic? {
      return Panic(marginal.reason), discreteData;
    }
    var joint := CalcAllJointProbabilities(rows);
    assert joint.Ok?;
    forall fi | 0 <= fi < |marginal.value|
      ensures RealSum(marginal.value[fi]) == 1.0
    {
      MarginalSumsToOne(discreteData, fi, marginal.value[fi]);
    }
    forall f1, f2 | 0 <= f2 < f1 < |joint.value|
      ensures TableSum(joint.value[f1][f2].value) == 1.0
      ensures forall b1 :: 0 <= b1 < NUM_BUCKETS ==> RealSum(joint.value[f1][f2].value[b1]) == marginal.value[f1][b1]
    {
      JointAgreesWithMarginal(discreteData, f1, f2, joint.value[f1][f2].value, marginal.value[f1]);
    }
    return Ok((marginal.value, joint.value)), discreteData;
  }
}
