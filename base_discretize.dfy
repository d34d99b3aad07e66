/**
 * Equal-width discretisation of the `base` package: every numeric column is cut
 * into numBuckets buckets between its own minimum and maximum. The input tuples
 * are either plain tuples of features or numeric tuples of numbers; the output
 * rows are int tuples that the operations update in place.
 */
module BaseDiscretize {
  import opened Wrappers
  import opened GoValues
  import opened UtilHelpers
  import BaseFeatures

  const NOT_READABLE: string := "GetNumericData: not a numeric tuple, or index out of range"
  const INDEX_OUT_OF_RANGE: string := "index out of range"

  /** An input row: either a plain tuple of features or a `NumericTuple` of numbers. */
  datatype Tuple =
    | PlainTuple(data: seq<Feature>, classFeature: Option<Feature>)
    | NumericTuple(values: seq<real>, classFeature: Option<Feature>)

  /** An output row: an `IntTuple`. */
  datatype IntTuple = IntTuple(data: seq<int>, classFeature: Option<Feature>)

  function DataSize(t: Tuple): nat {
    match t
    case PlainTuple(data, _) => |data|
    case NumericTuple(values, _) => |values|
  }

  /** `GetData(i).IsNumeric()`: a numeric tuple holds numbers only. */
  predicate DataIsNumeric(t: Tuple, i: nat)
    requires i < DataSize(t)
  {
    match t
    case PlainTuple(data, _) => BaseFeatures.IsNumeric(data[i])
    case NumericTuple(_, _) => true
  }

  /** `tuple.(NumericTuple).GetNumericData(i)`: panics unless the row is numeric and i is one of its positions. */
  function GetNumericData(t: Tuple, i: int): (r: Result<real>)
    ensures r.Ok? <==> t.NumericTuple? && 0 <= i < |t.values|
    ensures r.Ok? ==> r.value == t.values[i]
  {
    if t.NumericTuple? && 0 <= i < |t.values| then Ok(t.values[i])
    else Panic(NOT_READABLE)
  }

  /** Every row yields a number at column fi. */
  predicate Readable(data: seq<Tuple>, fi: int) {
    forall i :: 0 <= i < |data| ==> GetNumericData(data[i], fi).Ok?
  }

  /** Column fi, one number per row. */
  function Column(data: seq<Tuple>, fi: int): (column: seq<real>)
    requires Readable(data, fi)
    ensures |column| == |data|
    ensures forall i :: 0 <= i < |data| ==> column[i] == GetNumericData(data[i], fi).value
  {
    if |data| == 0 then []
    else
      var prefix := data[..|data| - 1];
      assert forall i :: 0 <= i < |prefix| ==> prefix[i] == data[i];
      Column(prefix, fi) + [GetNumericData(data[|data| - 1], fi).value]
  }

  /** The least entry, folding from the left as the source's running minimum does. */
  function SeqMin(s: seq<real>): (m: real)
    requires |s| > 0
    ensures forall i :: 0 <= i < |s| ==> m <= s[i]
    ensures exists i :: 0 <= i < |s| && s[i] == m
  {
    if |s| == 1 then s[0]
    else
      var prefix := s[..|s| - 1];
      var m := MinReal(SeqMin(prefix), s[|s| - 1]);
      assert forall i :: 0 <= i < |s| - 1 ==> s[i] == prefix[i];
      m
  }

  /** The greatest entry, folding from the left as the source's running maximum does. */
  function SeqMax(s: seq<real>): (m: real)
    requires |s| > 0
    ensures forall i :: 0 <= i < |s| ==> s[i] <= m
    ensures exists i :: 0 <= i < |s| && s[i] == m
  {
    if |s| == 1 then s[0]
    else
      var prefix := s[..|s| - 1];
      var m := MaxReal(SeqMax(prefix), s[|s| - 1]);
      assert forall i :: 0 <= i < |s| - 1 ==> s[i] == prefix[i];
      m
  }

  /**
   * `int(math.Min(math.Max(val - min, 0) / bucketSize, float64(numBuckets - 1)))`: the
   * clamped bucket of a value. With at least one bucket it lies in `[0, numBuckets-1]`,
   * and values at or below min fall in bucket 0.
   */
  function Bucket(val: real, min: real, bucketSize: real, numBuckets: int): (bucket: int)
    requires bucketSize > 0.0
    ensures numBuckets >= 1 ==> 0 <= bucket < numBuckets
    ensures numBuckets >= 1 && val <= min ==> bucket == 0
  {
    TruncateToInt(MinReal(MaxReal(val - min, 0.0) / bucketSize, (numBuckets - 1) as real))
  }

  /** `Discretize`: a degenerate range (`max == min`) puts every value in bucket 0; otherwise Bucket. */
  function Discretize(val: real, min: real, max: real, bucketSize: real, numBuckets: int): (bucket: int)
    requires max != min ==> bucketSize > 0.0
    ensures max == min ==> bucket == 0
    ensures max != min ==> bucket == Bucket(val, min, bucketSize, numBuckets)
    ensures numBuckets >= 1 ==> 0 <= bucket < numBuckets
  {
    if max == min then 0 else Bucket(val, min, bucketSize, numBuckets)
  }

  /** Buckets are monotone in the value. */
  lemma BucketMonotone(v1: real, v2: real, min: real, bucketSize: real, numBuckets: int)
    requires bucketSize > 0.0 && v1 <= v2
    ensures Bucket(v1, min, bucketSize, numBuckets) <= Bucket(v2, min, bucketSize, numBuckets)
  {
    var x1 := MaxReal(v1 - min, 0.0);
    var x2 := MaxReal(v2 - min, 0.0);
    assert x1 <= x2;
    DivideMonotone(x1, x2, bucketSize);
    var y1 := MinReal(x1 / bucketSize, (numBuckets - 1) as real);
    var y2 := MinReal(x2 / bucketSize, (numBuckets - 1) as real);
    assert y1 <= y2;
    TruncateMonotone(y1, y2);
  }

  lemma DivideMonotone(a: real, b: real, c: real)
    requires a <= b && c > 0.0
    ensures a / c <= b / c
  {
    assert b / c - a / c == (b - a) / c;
  }

  lemma TruncateMonotone(x: real, y: real)
    requires x <= y
    ensures TruncateToInt(x) <= TruncateToInt(y)
  {
    if x < 0.0 && y >= 0.0 {
    } else if x < 0.0 {
      assert (-y).Floor <= (-x).Floor;
    }
  }

  /**
   * With the bucket width `(max - min) / numBuckets` of a non-degenerate range, the
   * minimum falls in bucket 0 and the maximum in the last bucket.
   */
  lemma DiscretizeEndpoints(min: real, max: real, numBuckets: int)
    requires min < max && numBuckets >= 1
    ensures Discretize(min, min, max, (max - min) / numBuckets as real, numBuckets) == 0
    ensures Discretize(max, min, max, (max - min) / numBuckets as real, numBuckets) == numBuckets - 1
  {
    var bucketSize := (max - min) / numBuckets as real;
    assert (max - min) / bucketSize == numBuckets as real;
    assert MinReal(numBuckets as real, (numBuckets - 1) as real) == (numBuckets - 1) as real;
  }

  /** Row `row` with column fi set to the bucket of v. */
  function BucketedRow(row: IntTuple, v: real, fi: nat, min: real, max: real, numBuckets: int): (r: IntTuple)
    requires fi < |row.data| && min <= max && numBuckets >= 1
    ensures |r.data| == |row.data| && r.classFeature == row.classFeature
    ensures r.data[fi] == Discretize(v, min, max, (max - min) / numBuckets as real, numBuckets)
    ensures forall j :: 0 <= j < |row.data| && j != fi ==> r.data[j] == row.data[j]
  {
    row.(data := row.data[fi := Discretize(v, min, max, (max - min) / numBuckets as real, numBuckets)])
  }

  /** The output rows have room for column fi of every input row. */
  predicate RowsFit(data: seq<Tuple>, rows: seq<IntTuple>, fi: int) {
    |data| <= |rows| && forall i :: 0 <= i < |data| ==> 0 <= fi < |rows[i].data|
  }

  /**
   * One row of `DiscretizeNumericFeatureWithBounds`: read the value at column fi and
   * write its bucket into the same column of the output row; panics when the input
   * row cannot be read there or the output row has no such column.
   */
  function UpdateRow(t: Tuple, row: IntTuple, fi: int, min: real, max: real, numBuckets: int): (r: Result<IntTuple>)
    requires min <= max && numBuckets >= 1
    ensures r.Ok? <==> GetNumericData(t, fi).Ok? && 0 <= fi < |row.data|
    ensures r.Ok? ==> r.value == BucketedRow(row, GetNumericData(t, fi).value, fi, min, max, numBuckets)
  {
    var value := GetNumericData(t, fi);
    if value.Panic? then Panic(value.reason)
    else if !(0 <= fi < |row.data|) then Panic(INDEX_OUT_OF_RANGE)
    else Ok(row.(data := row.data[fi := Discretize(value.value, min, max, (max - min) / numBuckets as real, numBuckets)]))
  }

  /** Every row can be updated: the column is readable and the output rows have room for it. */
  lemma UpdatableIffReadableAndFit(data: seq<Tuple>, rows: seq<IntTuple>, fi: int, min: real, max: real, numBuckets: int)
    requires min <= max && numBuckets >= 1
    ensures (|data| <= |rows| && forall i :: 0 <= i < |data| ==> UpdateRow(data[i], rows[i], fi, min, max, numBuckets).Ok?)
            <==> Readable(data, fi) && RowsFit(data, rows, fi)
  {
    if Readable(data, fi) && RowsFit(data, rows, fi) {
      forall i | 0 <= i < |data|
        ensures UpdateRow(data[i], rows[i], fi, min, max, numBuckets).Ok?
      {
        assert GetNumericData(data[i], fi).Ok?;
      }
    }
    if |data| <= |rows| && forall i :: 0 <= i < |data| ==> UpdateRow(data[i], rows[i], fi, min, max, numBuckets).Ok? {
      forall i | 0 <= i < |data|
        ensures GetNumericData(data[i], fi).Ok? && 0 <= fi < |rows[i].data|
      {
        assert UpdateRow(data[i], rows[i], fi, min, max, numBuckets).Ok?;
      }
      assert Readable(data, fi) && RowsFit(data, rows, fi);
    }
  }

  /**
   * `DiscretizeNumericFeatureWithBounds`: with fewer than one bucket or `min > max` it
   * does nothing; otherwise it writes the bucket of every row's value at column fi
   * into the same column of the matching output row, and changes nothing else. A row
   * that is not numeric, or an index out of range, panics.
   */
  method DiscretizeNumericFeatureWithBounds(data: seq<Tuple>, discreteData: array<IntTuple>, numBuckets: int,
                                            featureIndex: int, min: real, max: real) returns (r: Result<()>)
    modifies discreteData
    ensures (numBuckets < 1 || min > max) ==> r.Ok? && discreteData[..] == old(discreteData[..])
    ensures !(numBuckets < 1 || min > max) ==>
              (r.Ok? <==> |data| <= discreteData.Length &&
                          forall i :: 0 <= i < |data| ==>
                            UpdateRow(data[i], old(discreteData[i]), featureIndex, min, max, numBuckets).Ok?)
    ensures r.Ok? && !(numBuckets < 1 || min > max) ==>
              forall i :: 0 <= i < discreteData.Length ==>
                discreteData[i] == if i < |data|
                                   then UpdateRow(data[i], old(discreteData[i]), featureIndex, min, max, numBuckets).value
                                   else old(discreteData[i])
  {
    if numBuckets < 1 || min > max {
      return Ok(());
    }
    var i := 0;
    while i < |data|
      invariant 0 <= i <= |data| && i <= discreteData.Length
      invariant forall k :: 0 <= k < i ==>
                  UpdateRow(data[k], old(discreteData[k]), featureIndex, min, max, numBuckets).Ok?
                  && discreteData[k] == UpdateRow(data[k], old(discreteData[k]), featureIndex, min, max, numBuckets).value
      invariant forall k :: i <= k < discreteData.Length ==> discreteData[k] == old(discreteData[k])
    {
      if i == discreteData.Length {
        return Panic(INDEX_OUT_OF_RANGE);
      }
      var updated := UpdateRow(data[i], discreteData[i], featureIndex, min, max, numBuckets);
      if updated.Panic? {
        return Panic(updated.reason);
      }
      discreteData[i] := updated.value;
      i := i + 1;
    }
    return Ok(());
  }

  /** The guard of `DiscretizeNumericFeature` as written: `len(data) == 0 || data[0].DataSize() < featureIndex`. */
  predicate SkipsFeatureAsWritten(data: seq<Tuple>, featureIndex: int) {
    |data| == 0 || DataSize(data[0]) < featureIndex
  }

  /** The guard as intended: a feature index at or past the end of the first row is skipped. */
  predicate SkipsFeature(data: seq<Tuple>, featureIndex: int) {
    |data| == 0 || DataSize(data[0]) <= featureIndex
  }

  /** As written, the index one past the last column passes the guard and reaches `GetData` out of range. */
  lemma AsWrittenGuardAdmitsIndexPastEnd()
    ensures var data := [NumericTuple([1.0], None)];
            !SkipsFeatureAsWritten(data, 1) && !(1 < DataSize(data[0]))
  {
  }

  /**
   * As written, for any non-empty data the index one past the end of the first row
   * passes the guard, and reading the first row at that index panics.
   */
  lemma AsWrittenGuardReachesReadPastEnd(data: seq<Tuple>)
    requires |data| > 0
    ensures !SkipsFeatureAsWritten(data, DataSize(data[0]))
    ensures GetNumericData(data[0], DataSize(data[0])).Panic?
  {
  }

  /** As intended, every non-negative index that passes the guard is a position of the first row. */
  lemma GuardKeepsIndexInRange(data: seq<Tuple>, featureIndex: nat)
    requires !SkipsFeature(data, featureIndex)
    ensures featureIndex < DataSize(data[0])
  {
  }

  /** The feature is left alone: no rows, an index past the first row, or a non-numeric first value. */
  predicate FeatureSkipped(data: seq<Tuple>, featureIndex: int) {
    SkipsFeature(data, featureIndex)
    || (0 <= featureIndex && !DataIsNumeric(data[0], featureIndex))
  }

  /**
   * `DiscretizeNumericFeature`: skips the feature as FeatureSkipped says; otherwise
   * reads the column (a negative index, a row that is not numeric or too short
   * panics), finds its minimum and maximum, and discretises it between them.
   */
  method DiscretizeNumericFeature(data: seq<Tuple>, discreteData: array<IntTuple>, numBuckets: int, featureIndex: int)
    returns (r: Result<()>)
    modifies discreteData
    ensures FeatureSkipped(data, featureIndex) ==> r.Ok? && discreteData[..] == old(discreteData[..])
    ensures !FeatureSkipped(data, featureIndex) ==>
              (r.Ok? <==> Readable(data, featureIndex)
                          && (numBuckets < 1 || RowsFit(data, old(discreteData[..]), featureIndex)))
    ensures r.Ok? && !FeatureSkipped(data, featureIndex) && numBuckets < 1 ==> discreteData[..] == old(discreteData[..])
    ensures r.Ok? && !FeatureSkipped(data, featureIndex) && numBuckets >= 1 ==>
              forall i :: 0 <= i < discreteData.Length ==>
                discreteData[i] == if i < |data|
                                   then BucketedRow(old(discreteData[i]), Column(data, featureIndex)[i], featureIndex,
                                                    SeqMin(Column(data, featureIndex)), SeqMax(Column(data, featureIndex)),
                                                    numBuckets)
                                   else old(discreteData[i])
  {
    if SkipsFeature(data, featureIndex) {
      return Ok(());
    }
    if featureIndex < 0 {
      return Panic(INDEX_OUT_OF_RANGE);
    }
    if !DataIsNumeric(data[0], featureIndex) {
      return Ok(());
    }
    r := DiscretizeColumn(data, discreteData, numBuckets, featureIndex);
  }

  /** The part of `DiscretizeNumericFeature` after its guards: scan the column for its bounds, then discretise it. */
  method DiscretizeColumn(data: seq<Tuple>, discreteData: array<IntTuple>, numBuckets: int, featureIndex: int)
    returns (r: Result<()>)
    requires |data| > 0
    modifies discreteData
    ensures r.Ok? <==> Readable(data, featureIndex)
                       && (numBuckets < 1 || RowsFit(data, old(discreteData[..]), featureIndex))
    ensures r.Ok? && numBuckets < 1 ==> discreteData[..] == old(discreteData[..])
    ensures r.Ok? && numBuckets >= 1 ==>
              forall i :: 0 <= i < discreteData.Length ==>
                discreteData[i] == if i < |data|
                                   then BucketedRow(old(discreteData[i]), Column(data, featureIndex)[i], featureIndex,
                                                    SeqMin(Column(data, featureIndex)), SeqMax(Column(data, featureIndex)),
                                                    numBuckets)
                                   else old(discreteData[i])
  {
    var bounds := ColumnBounds(data, featureIndex);
    if bounds.Panic? {
      return Panic(bounds.reason);
    }
    var (min, max) := bounds.value;
    ghost var rows := discreteData[..];
    r := DiscretizeNumericFeatureWithBounds(data, discreteData, numBuckets, featureIndex, min, max);
    if numBuckets >= 1 {
      UpdatableIffReadableAndFit(data, rows, featureIndex, min, max, numBuckets);
    }
  }

  /** One step of the running scan: `if val < min { min = val } else if val > max { max = val }`. */
  method Widen(min: real, max: real, val: real) returns (newMin: real, newMax: real)
    requires min <= max
    ensures newMin == MinReal(min, val) && newMax == MaxReal(max, val)
  {
    newMin, newMax := min, max;
    if val < min {
      newMin := val;
    } else if val > max {
      newMax := val;
    }
  }

  /** The extremes of a list extended by one value. */
  lemma SeqMinMaxSnoc(s: seq<real>, v: real)
    requires |s| > 0
    ensures SeqMin(s + [v]) == MinReal(SeqMin(s), v) && SeqMax(s + [v]) == MaxReal(SeqMax(s), v)
  {
    assert (s + [v])[..|s|] == s;
  }

  /** Reading one more row extends the column by that row's value. */
  lemma ColumnSnoc(data: seq<Tuple>, i: nat, fi: int)
    requires i < |data| && Readable(data[..i], fi) && GetNumericData(data[i], fi).Ok?
    ensures Readable(data[..i + 1], fi)
    ensures Column(data[..i + 1], fi) == Column(data[..i], fi) + [GetNumericData(data[i], fi).value]
  {
    assert data[..i + 1][..i] == data[..i];
  }

  /**
   * The scan of `DiscretizeNumericFeature`: the running minimum and maximum of column
   * fi, starting from the first row's value; a row that cannot be read panics.
   */
  method ColumnBounds(data: seq<Tuple>, featureIndex: int) returns (r: Result<(real, real)>)
    requires |data| > 0
    ensures r.Ok? <==> Readable(data, featureIndex)
    ensures r.Ok? ==> r.value.0 == SeqMin(Column(data, featureIndex)) && r.value.1 == SeqMax(Column(data, featureIndex))
    ensures r.Ok? ==> r.value.0 <= r.value.1
  {
    var first := GetNumericData(data[0], featureIndex);
    if first.Panic? {
      return Panic(first.reason);
    }
    var min := first.value;
    var max := min;
    ghost var seen: seq<real> := [];
    var i := 0;
    while i < |data|
      invariant 0 <= i <= |data|
      invariant Readable(data[..i], featureIndex) && seen == Column(data[..i], featureIndex)
      invariant i == 0 ==> min == max == first.value
      invariant i > 0 ==> min == SeqMin(seen) && max == SeqMax(seen)
      invariant min <= max
    {
      var value := GetNumericData(data[i], featureIndex);
      if value.Panic? {
        return Panic(value.reason);
      }
      ColumnSnoc(data, i, featureIndex);
      if i > 0 {
        SeqMinMaxSnoc(seen, value.value);
      }
      seen := seen + [value.value];
      min, max := Widen(min, max, value.value);
      i := i + 1;
    }
    assert data[..i] == data;
    return Ok((min, max));
  }

  /** `make([]int, n)`: n zeros. */
  function Zeros(n: nat): (z: seq<int>)
    ensures |z| == n && forall j :: 0 <= j < n ==> z[j] == 0
  {
    if n == 0 then [] else Zeros(n - 1) + [0]
  }

  /** The bucket `DiscretizeNumericFeatures` gives row i at a readable column j. */
  function DiscretizedCell(data: seq<Tuple>, numBuckets: int, i: nat, j: int): int
    requires i < |data| && numBuckets >= 1 && Readable(data, j)
  {
    var column := Column(data, j);
    var min := SeqMin(column);
    var max := SeqMax(column);
    Discretize(column[i], min, max, (max - min) / numBuckets as real, numBuckets)
  }

  /** The tuple-by-tuple shape of the output: one int per feature, and the same class. */
  predicate ShapeKept(data: seq<Tuple>, rows: seq<IntTuple>) {
    |rows| == |data|
    && forall i :: 0 <= i < |data| ==>
         |rows[i].data| == DataSize(data[i]) && rows[i].classFeature == data[i].classFeature
  }

  /** Column j is one that the feature loop discretises, among the first n columns of row 0. */
  predicate Discretised(data: seq<Tuple>, numBuckets: int, n: int, j: int) {
    |data| > 0 && numBuckets >= 1 && 0 <= j < n && j < DataSize(data[0])
    && DataIsNumeric(data[0], j) && Readable(data, j)
  }

  /** Cell (i, j) once the first n columns are done: its bucket if column j was discretised, else 0. */
  function CellAfter(data: seq<Tuple>, numBuckets: int, n: int, i: nat, j: int): int
    requires i < |data|
  {
    if Discretised(data, numBuckets, n, j) then DiscretizedCell(data, numBuckets, i, j) else 0
  }

  /** The rows hold CellAfter for the first n columns. */
  predicate DoneUpTo(data: seq<Tuple>, rows: seq<IntTuple>, numBuckets: int, n: int)
    requires ShapeKept(data, rows)
  {
    forall i, j :: 0 <= i < |data| && 0 <= j < |rows[i].data| ==> rows[i].data[j] == CellAfter(data, numBuckets, n, i, j)
  }

  /** Every numeric column of the first row can be read in every row. */
  predicate NumericColumnsReadable(data: seq<Tuple>)
    requires |data| > 0
  {
    forall j :: 0 <= j < DataSize(data[0]) && DataIsNumeric(data[0], j) ==> Readable(data, j)
  }

  /** The zeroed int tuples `DiscretizeNumericFeatures` starts from: the input's shape and classes. */
  function ZeroRows(data: seq<Tuple>): (rows: seq<IntTuple>)
    ensures |rows| == |data|
    ensures forall i :: 0 <= i < |data| ==> rows[i] == IntTuple(Zeros(DataSize(data[i])), data[i].classFeature)
  {
    if |data| == 0 then []
    else
      var prefix := data[..|data| - 1];
      assert forall i :: 0 <= i < |prefix| ==> prefix[i] == data[i];
      ZeroRows(prefix) + [IntTuple(Zeros(DataSize(data[|data| - 1])), data[|data| - 1].classFeature)]
  }

  /** The zeroed rows have the input's shape, and no column has been discretised yet. */
  lemma ZeroRowsDone(data: seq<Tuple>, numBuckets: int)
    ensures ShapeKept(data, ZeroRows(data)) && DoneUpTo(data, ZeroRows(data), numBuckets, 0)
  {
  }

  /** The first loop of `DiscretizeNumericFeatures`: one zeroed int tuple per input tuple. */
  method NewZeroRows(data: seq<Tuple>) returns (discreteData: array<IntTuple>)
    ensures fresh(discreteData) && discreteData[..] == ZeroRows(data)
  {
    discreteData := new IntTuple[|data|];
    var i := 0;
    while i < |data|
      invariant 0 <= i <= |data|
      invariant forall k :: 0 <= k < i ==> discreteData[k] == IntTuple(Zeros(DataSize(data[k])), data[k].classFeature)
    {
      discreteData[i] := IntTuple(Zeros(DataSize(data[i])), data[i].classFeature);
      i := i + 1;
    }
  }

  /**
   * `DiscretizeNumericFeatures`: zeroed int tuples of the input's shape and classes,
   * then, for every column of the first row, DiscretizeNumericFeature. Without rows or
   * with fewer than one bucket the zeros are returned. It panics exactly when some
   * numeric column of the first row cannot be read in every row; otherwise every cell
   * of a numeric column of the first row holds its bucket on that column's own scale,
   * and every other cell is 0.
   */
  method DiscretizeNumericFeatures(data: seq<Tuple>, numBuckets: int) returns (r: Result<seq<IntTuple>>)
    ensures (|data| == 0 || numBuckets <= 0) ==> r.Ok?
    ensures |data| > 0 && numBuckets > 0 ==> (r.Ok? <==> NumericColumnsReadable(data))
    ensures r.Ok? ==> ShapeKept(data, r.value)
    ensures r.Ok? ==> forall i, j :: 0 <= i < |data| && 0 <= j < |r.value[i].data| ==>
              r.value[i].data[j] == CellAfter(data, numBuckets, |r.value[i].data|, i, j)
  {
    var discreteData := NewZeroRows(data);
    ZeroRowsDone(data, numBuckets);
    if |data| == 0 || numBuckets <= 0 {
      DoneUpToNothing(data, discreteData[..], numBuckets);
      return Ok(discreteData[..]);
    }
    var fi := 0;
    while fi < DataSize(data[0])
      invariant 0 <= fi <= DataSize(data[0])
      invariant ShapeKept(data, discreteData[..]) && DoneUpTo(data, discreteData[..], numBuckets, fi)
      invariant forall j :: 0 <= j < fi && DataIsNumeric(data[0], j) ==> Readable(data, j)
    {
      var step := FeaturePass(data, discreteData, numBuckets, fi);
      if step.Panic? {
        return Panic(step.reason);
      }
      fi := fi + 1;
    }
    DoneUpToAll(data, discreteData[..], numBuckets, fi);
    return Ok(discreteData[..]);
  }

  /** With no rows or no buckets, no column is discretised at all. */
  lemma DoneUpToNothing(data: seq<Tuple>, rows: seq<IntTuple>, numBuckets: int)
    requires |data| == 0 || numBuckets <= 0
    requires ShapeKept(data, rows) && DoneUpTo(data, rows, numBuckets, 0)
    ensures forall i, j :: 0 <= i < |data| && 0 <= j < |rows[i].data| ==>
              rows[i].data[j] == CellAfter(data, numBuckets, |rows[i].data|, i, j)
  {
  }

  /** One iteration of the feature loop: DiscretizeNumericFeature on column fi, and what it extends. */
  method FeaturePass(data: seq<Tuple>, discreteData: array<IntTuple>, numBuckets: int, fi: nat) returns (r: Result<()>)
    requires |data| > 0 && numBuckets >= 1 && fi < DataSize(data[0])
    requires ShapeKept(data, discreteData[..]) && DoneUpTo(data, discreteData[..], numBuckets, fi)
    modifies discreteData
    ensures r.Ok? <==> (DataIsNumeric(data[0], fi) ==> Readable(data, fi))
    ensures r.Ok? ==> ShapeKept(data, discreteData[..]) && DoneUpTo(data, discreteData[..], numBuckets, fi + 1)
  {
    ghost var rows := discreteData[..];
    r := DiscretizeNumericFeature(data, discreteData, numBuckets, fi);
    if r.Ok? {
      FeatureStepDone(data, rows, discreteData[..], numBuckets, fi);
    }
  }

  /** One column step of the feature loop keeps the shape and extends DoneUpTo by column fi. */
  lemma FeatureStepDone(data: seq<Tuple>, rows: seq<IntTuple>, rows': seq<IntTuple>, numBuckets: int, fi: nat)
    requires |data| > 0 && numBuckets >= 1 && fi < DataSize(data[0])
    requires ShapeKept(data, rows) && DoneUpTo(data, rows, numBuckets, fi)
    requires FeatureSkipped(data, fi) ==> rows' == rows
    requires !FeatureSkipped(data, fi) ==> Readable(data, fi) && |rows'| == |data|
    requires !FeatureSkipped(data, fi) ==>
               forall i :: 0 <= i < |data| ==>
                 rows'[i] == BucketedRow(rows[i], Column(data, fi)[i], fi,
                                         SeqMin(Column(data, fi)), SeqMax(Column(data, fi)), numBuckets)
    ensures ShapeKept(data, rows') && DoneUpTo(data, rows', numBuckets, fi + 1)
  {
    if FeatureSkipped(data, fi) {
      forall i, j | 0 <= i < |data| && 0 <= j < |rows[i].data|
        ensures rows[i].data[j] == CellAfter(data, numBuckets, fi + 1, i, j)
      {
        CellAfterStep(data, numBuckets, fi, i, j);
      }
    } else {
      forall i | 0 <= i < |data|
        ensures |rows'[i].data| == DataSize(data[i]) && rows'[i].classFeature == data[i].classFeature
        ensures forall j :: 0 <= j < |rows'[i].data| ==> rows'[i].data[j] == CellAfter(data, numBuckets, fi + 1, i, j)
      {
        forall j | 0 <= j < |rows'[i].data|
          ensures rows'[i].data[j] == CellAfter(data, numBuckets, fi + 1, i, j)
        {
          CellAfterStep(data, numBuckets, fi, i, j);
        }
      }
    }
  }

  /** What finishing column fi changes about the expected cells: column fi only. */
  lemma CellAfterStep(data: seq<Tuple>, numBuckets: int, fi: nat, i: nat, j: int)
    requires i < |data|
    ensures j != fi ==> CellAfter(data, numBuckets, fi + 1, i, j) == CellAfter(data, numBuckets, fi, i, j)
    ensures j == fi && !Discretised(data, numBuckets, fi + 1, j) ==> CellAfter(data, numBuckets, fi + 1, i, j) == 0
    ensures j == fi && Discretised(data, numBuckets, fi + 1, j) ==>
              CellAfter(data, numBuckets, fi + 1, i, j) == DiscretizedCell(data, numBuckets, i, j)
    ensures CellAfter(data, numBuckets, fi, i, fi) == 0
  {
  }

  /** Once every column of the first row is done, the row's own length bounds the columns that count. */
  lemma DoneUpToAll(data: seq<Tuple>, rows: seq<IntTuple>, numBuckets: int, n: nat)
    requires |data| > 0 && n == DataSize(data[0])
    requires ShapeKept(data, rows) && DoneUpTo(data, rows, numBuckets, n)
    ensures forall i, j :: 0 <= i < |data| && 0 <= j < |rows[i].data| ==>
              rows[i].data[j] == CellAfter(data, numBuckets, |rows[i].data|, i, j)
  {
    forall i, j | 0 <= i < |data| && 0 <= j < |rows[i].data|
      ensures rows[i].data[j] == CellAfter(data, numBuckets, |rows[i].data|, i, j)
    {
      assert Discretised(data, numBuckets, n, j) == Discretised(data, numBuckets, |rows[i].data|, j);
    }
  }

  /** Every cell of the output is a bucket number in `[0, numBuckets - 1]`. */
  lemma CellAfterInRange(data: seq<Tuple>, numBuckets: int, n: int, i: nat, j: int)
    requires i < |data| && numBuckets >= 1
    ensures 0 <= CellAfter(data, numBuckets, n, i, j) < numBuckets
  {
  }

  /** Every discretised cell is a bucket number in `[0, numBuckets - 1]`. */
  lemma DiscretizedCellInRange(data: seq<Tuple>, numBuckets: int, i: nat, j: int)
    requires i < |data| && numBuckets >= 1 && Readable(data, j)
    ensures 0 <= DiscretizedCell(data, numBuckets, i, j) < numBuckets
  {
  }

  /**
   * Discretize with the width `(max - min) / numBuckets` keeps the order of values, puts
   * min in bucket 0 and, for a non-degenerate range, max in the last bucket.
   */
  lemma DiscretizeOrder(v1: real, v2: real, min: real, max: real, numBuckets: int)
    requires min <= max && numBuckets >= 1
    ensures v1 <= v2 ==>
              Discretize(v1, min, max, (max - min) / numBuckets as real, numBuckets)
              <= Discretize(v2, min, max, (max - min) / numBuckets as real, numBuckets)
    ensures v1 == min ==> Discretize(v1, min, max, (max - min) / numBuckets as real, numBuckets) == 0
    ensures v1 == max && min < max ==>
              Discretize(v1, min, max, (max - min) / numBuckets as real, numBuckets) == numBuckets - 1
  {
    if min != max {
      if v1 <= v2 {
        BucketMonotone(v1, v2, min, (max - min) / numBuckets as real, numBuckets);
      }
      DiscretizeEndpoints(min, max, numBuckets);
    }
  }

  /**
   * Within a column the buckets keep the order of the values, the column's minimum
   * falls in bucket 0, and, when the column is not constant, its maximum in the last.
   */
  lemma DiscretizedCellOrder(data: seq<Tuple>, numBuckets: int, i1: nat, i2: nat, j: int)
    requires i1 < |data| && i2 < |data| && numBuckets >= 1 && Readable(data, j)
    ensures Column(data, j)[i1] <= Column(data, j)[i2] ==>
              DiscretizedCell(data, numBuckets, i1, j) <= DiscretizedCell(data, numBuckets, i2, j)
    ensures Column(data, j)[i1] == SeqMin(Column(data, j)) ==> DiscretizedCell(data, numBuckets, i1, j) == 0
    ensures Column(data, j)[i1] == SeqMax(Column(data, j)) && SeqMin(Column(data, j)) < SeqMax(Column(data, j)) ==>
              DiscretizedCell(data, numBuckets, i1, j) == numBuckets - 1
  {
    var column := Column(data, j);
    assert SeqMin(column) <= column[0] <= SeqMax(column);
    DiscretizeOrder(column[i1], column[i2], SeqMin(column), SeqMax(column), numBuckets);
  }
}
