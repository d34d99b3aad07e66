/**
 * k-nearest-neighbour classification of the `classification` package. A point
 * is measured against every training tuple, the distances are sorted, the k
 * nearest vote with their class, and the class with the most votes wins.
 *
 * The distances are computed one worker range after another instead of by
 * goroutines; `math.Sqrt` of the Euclidean distance and the confidence score
 * (`calculateScore`) are parameters (`sqrt`, `score`).
 */
module ClassificationKNN {
  import opened Wrappers
  import opened GoValues
  import opened UtilHelpers
  import BaseDiscretize
  import FeaturesReducer

  /** Panic messages. */
  const K_TOO_SMALL: string := "k must be >= 1"
  const NOT_NUMERIC_TRAINING: string := "KNN only supports taining on NumericTuple."
  const NOT_NUMERIC_TUPLE: string := "KNN only supports classifying NumericTuple"
  const INDEX_OUT_OF_RANGE: string := "index out of range"

  const KNN_MIN_WORK_PER_WORKER: int := 1000

  type Tuple = BaseDiscretize.Tuple

  /** A class label: the tuple's class feature, `None` for a nil class. */
  type Label = Option<Feature>

  /** `base.Distancer`: the Euclidean distance, or a distance the caller supplies. */
  datatype Distancer = Euclidean | CustomDistancer(distance: (seq<real>, seq<real>) -> real)

  /** A nil distancer selects `Euclidean`. */
  function DefaultDistancer(distancer: Option<Distancer>): (d: Distancer)
    ensures distancer.Some? ==> d == distancer.value
    ensures distancer.None? ==> d == Euclidean
  {
    if distancer.Some? then distancer.value else Euclidean
  }

  // -------------------------------------------------------------- distance

  /** The sum of the squared differences of the first n positions. */
  function SquaredDistance(x: seq<real>, y: seq<real>, n: nat): real
    requires n <= |x| && n <= |y|
  {
    if n == 0 then 0.0
    else SquaredDistance(x, y, n - 1) + (x[n - 1] - y[n - 1]) * (x[n - 1] - y[n - 1])
  }

  /** The squared distance is symmetric, never negative, and zero from a point to itself. */
  lemma {:induction false} SquaredDistanceIsMetricLike(x: seq<real>, y: seq<real>, n: nat)
    requires n <= |x| && n <= |y|
    ensures SquaredDistance(x, y, n) == SquaredDistance(y, x, n)
    ensures SquaredDistance(x, y, n) >= 0.0
    ensures SquaredDistance(x, x, n) == 0.0
  {
    if n > 0 {
      SquaredDistanceIsMetricLike(x, y, n - 1);
      var d := x[n - 1] - y[n - 1];
      assert y[n - 1] - x[n - 1] == -d;
      assert (-d) * (-d) == d * d;
      SquareSign(d);
    }
  }

  /** Euclidean can measure x against y when y has every position of x; a custom distancer always can. */
  predicate CanMeasure(distancer: Distancer, x: seq<real>, y: seq<real>) {
    distancer.Euclidean? ==> |x| <= |y|
  }

  /**
   * `Distance` of the distancer: Euclidean reads position i of y for every position i
   * of x and panics when y is shorter; a custom distancer is taken to be total.
   */
  function Measure(distancer: Distancer, x: seq<real>, y: seq<real>, sqrt: real -> real): (r: Result<real>)
    ensures r.Ok? <==> CanMeasure(distancer, x, y)
    ensures distancer.CustomDistancer? ==> r == Ok(distancer.distance(x, y))
  {
    match distancer
    case Euclidean => if |x| <= |y| then Ok(sqrt(SquaredDistance(x, y, |x|))) else Panic(INDEX_OUT_OF_RANGE)
    case CustomDistancer(distance) => Ok(distance(x, y))
  }

  /** `Euclidean.Distance`: the square root of the summed squared differences. */
  method EuclideanDistance(x: seq<real>, y: seq<real>, sqrt: real -> real) returns (r: Result<real>)
    ensures r.Ok? <==> |x| <= |y|
    ensures r == Measure(Euclidean, x, y, sqrt)
  {
    var sum := 0.0;
    var i := 0;
    while i < |x|
      invariant 0 <= i <= |x|
      invariant i <= |y| && sum == SquaredDistance(x, y, i)
    {
      if i >= |y| {
        return Panic(INDEX_OUT_OF_RANGE);
      }
      sum := sum + (x[i] - y[i]) * (x[i] - y[i]);
      i := i + 1;
    }
    return Ok(sqrt(sum));
  }

  method Distance(distancer: Distancer, x: seq<real>, y: seq<real>, sqrt: real -> real) returns (r: Result<real>)
    ensures r == Measure(distancer, x, y, sqrt)
  {
    match distancer
    case Euclidean =>
      r := EuclideanDistance(x, y, sqrt);
    case CustomDistancer(distance) =>
      r := Ok(distance(x, y));
  }

  // ------------------------------------------------------------- distances

  /** `DistanceRecord`: a distance and the position of the training tuple it was measured to. */
  datatype DistanceRecord = DistanceRecord(distance: real, index: int)

  /** Every training tuple can be measured against x (Euclidean needs x at least as long). */
  predicate Measurable(distancer: Distancer, training: seq<Tuple>, x: seq<real>)
    requires FeaturesReducer.AllNumeric(training)
  {
    forall i :: 0 <= i < |training| ==> CanMeasure(distancer, training[i].values, x)
  }

  /** The records `calculateDistances` produces: one per training tuple, naming its position. */
  function Distances(distancer: Distancer, training: seq<Tuple>, x: seq<real>, sqrt: real -> real): (ds: seq<DistanceRecord>)
    requires FeaturesReducer.AllNumeric(training) && Measurable(distancer, training, x)
    ensures |ds| == |training|
    ensures forall i :: 0 <= i < |training| ==>
              ds[i] == DistanceRecord(Measure(distancer, training[i].values, x, sqrt).value, i)
  {
    seq(|training|, i requires 0 <= i < |training| => DistanceRecord(Measure(distancer, training[i].values, x, sqrt).value, i))
  }

  /** The worker count as written: `min(max(1, n / 1000), GetMaxProcs())`. */
  function NumWorkersAsWritten(n: nat, maxProcs: nat): int {
    MinInt(MaxInt(1, n / KNN_MIN_WORK_PER_WORKER), maxProcs)
  }

  /** With `GetMaxProcs() == 0` (after `SetMaxProcs(0)`) no worker is started, yet every distance is awaited. */
  lemma NoWorkerWhenMaxProcsIsZero(n: nat)
    ensures NumWorkersAsWritten(n, 0) == 0
  {
  }

  /**
   * As written, with `GetMaxProcs() == 0` no started worker covers any training position:
   * none of the n records the receive loop awaits is ever sent.
   */
  lemma AsWrittenNoRecordSent(n: nat, tpw: nat, i: int)
    requires 0 <= i < n
    ensures forall w :: 0 <= w < NumWorkersAsWritten(n, 0) ==> !InWorkerRange(w, tpw, n, i)
  {
    NoWorkerWhenMaxProcsIsZero(n);
  }

  /** The worker count with at least one worker; it agrees with the code whenever `GetMaxProcs() >= 1`. */
  function NumWorkers(n: nat, maxProcs: nat): (w: int)
    ensures w >= 1
    ensures maxProcs >= 1 ==> w == NumWorkersAsWritten(n, maxProcs)
    ensures w <= MaxInt(1, maxProcs)
  {
    MaxInt(1, NumWorkersAsWritten(n, maxProcs))
  }

  /** `ceil(n / workers)`: enough tuples per worker to reach n, and less than one worker's more. */
  function TuplesPerWorker(n: nat, workers: int): (t: nat)
    requires workers >= 1
    ensures n <= t * workers < n + workers
  {
    var t := (n + workers - 1) / workers;
    assert n + workers - 1 == t * workers + (n + workers - 1) % workers;
    t
  }

  /** Worker w handles the positions `[w * tpw, min((w + 1) * tpw, n))`. */
  predicate InWorkerRange(w: int, tpw: nat, n: nat, i: int) {
    w * tpw <= i < MinInt(w * tpw + tpw, n)
  }

  /** Every training position falls in the range of the worker `i / tpw`, one of the started workers. */
  lemma WorkerRangesCover(n: nat, workers: int, i: int)
    requires workers >= 1 && 0 <= i < n
    ensures TuplesPerWorker(n, workers) > 0
    ensures 0 <= i / TuplesPerWorker(n, workers) < workers
    ensures InWorkerRange(i / TuplesPerWorker(n, workers), TuplesPerWorker(n, workers), n, i)
  {
    var tpw := TuplesPerWorker(n, workers);
    var w := i / tpw;
    assert i == w * tpw + i % tpw;
    if w >= workers {
      MultiplyMonotone(workers, w, tpw);
      assert false;
    }
  }

  /** No position falls in the ranges of two different workers. */
  lemma WorkerRangesDisjoint(tpw: nat, n: nat, w1: int, w2: int, i: int)
    requires 0 <= w1 && 0 <= w2
    requires InWorkerRange(w1, tpw, n, i) && InWorkerRange(w2, tpw, n, i)
    ensures w1 == w2
  {
    if w1 < w2 {
      MultiplyMonotone(w1 + 1, w2, tpw);
    } else if w2 < w1 {
      MultiplyMonotone(w2 + 1, w1, tpw);
    }
  }

  /**
   * `calculateDistances`, one worker range after another: every training position is
   * measured once, and the records come out in position order.
   */
  method CalculateDistances(distancer: Distancer, training: seq<Tuple>, x: seq<real>, sqrt: real -> real,
                            maxProcs: nat)
    returns (r: Result<seq<DistanceRecord>>)
    requires FeaturesReducer.AllNumeric(training)
    ensures r.Ok? <==> Measurable(distancer, training, x)
    ensures r.Ok? ==> r.value == Distances(distancer, training, x, sqrt)
  {
    var n := |training|;
    var numWorkers := NumWorkers(n, maxProcs);
    var tuplesPerWorker := TuplesPerWorker(n, numWorkers);
    var distances: seq<DistanceRecord> := [];
    var worker := 0;
    while worker < numWorkers
      invariant 0 <= worker <= numWorkers
      invariant |distances| == MinInt(worker * tuplesPerWorker, n)
      invariant forall i :: 0 <= i < |distances| ==> CanMeasure(distancer, training[i].values, x)
      invariant forall i :: 0 <= i < |distances| ==>
                  distances[i] == DistanceRecord(Measure(distancer, training[i].values, x, sqrt).value, i)
    {
      var start := worker * tuplesPerWorker;
      distances := RunWorker(distancer, training, x, sqrt, start, tuplesPerWorker, distances);
      if |distances| < MinInt(start + tuplesPerWorker, n) {
        return Panic(INDEX_OUT_OF_RANGE);
      }
      assert (worker + 1) * tuplesPerWorker == start + tuplesPerWorker;
      worker := worker + 1;
    }
    assert |distances| == n;
    assert distances == Distances(distancer, training, x, sqrt);
    return Ok(distances);
  }

  /**
   * `classifyWorker`: the records of the positions `start .. start + count - 1` that
   * exist, appended to those before `start`; it stops early, at the first position
   * the distancer cannot measure.
   */
  method RunWorker(distancer: Distancer, training: seq<Tuple>, x: seq<real>, sqrt: real -> real, start: int,
                   count: nat, done: seq<DistanceRecord>)
    returns (distances: seq<DistanceRecord>)
    requires FeaturesReducer.AllNumeric(training)
    requires |done| == MinInt(start, |training|)
    requires forall i :: 0 <= i < |done| ==> CanMeasure(distancer, training[i].values, x)
    requires forall i :: 0 <= i < |done| ==>
               done[i] == DistanceRecord(Measure(distancer, training[i].values, x, sqrt).value, i)
    ensures |done| <= |distances| <= MinInt(start + count, |training|)
    ensures |distances| < MinInt(start + count, |training|) ==>
              !CanMeasure(distancer, training[|distances|].values, x)
    ensures forall i :: 0 <= i < |distances| ==> CanMeasure(distancer, training[i].values, x)
    ensures forall i :: 0 <= i < |distances| ==>
              distances[i] == DistanceRecord(Measure(distancer, training[i].values, x, sqrt).value, i)
  {
    distances := done;
    var trainingIndex := start;
    while trainingIndex - start < count && trainingIndex < |training|
      invariant start <= trainingIndex || |training| <= start
      invariant |distances| == MinInt(trainingIndex, |training|)
      invariant trainingIndex <= MaxInt(start + count, start)
      invariant forall i :: 0 <= i < |distances| ==> CanMeasure(distancer, training[i].values, x)
      invariant forall i :: 0 <= i < |distances| ==>
                  distances[i] == DistanceRecord(Measure(distancer, training[i].values, x, sqrt).value, i)
      decreases |training| - trainingIndex
    {
      var d := Distance(distancer, training[trainingIndex].values, x, sqrt);
      if d.Panic? {
        return distances;
      }
      distances := distances + [DistanceRecord(d.value, trainingIndex)];
      trainingIndex := trainingIndex + 1;
    }
  }

  // ------------------------------------------------------------------ sort

  /** `ByDistance`: ascending distance. */
  predicate SortedByDistance(s: seq<DistanceRecord>) {
    forall p, q :: 0 <= p < q < |s| ==> s[p].distance <= s[q].distance
  }

  /** `sort.Sort(ByDistance(distances))`, as an insertion sort by `Less` and `Swap`. */
  method SortByDistance(a: array<DistanceRecord>)
    modifies a
    ensures SortedByDistance(a[..])
    ensures multiset(a[..]) == multiset(old(a[..]))
  {
    var i := 0;
    while i < a.Length
      invariant 0 <= i <= a.Length
      invariant SortedByDistance(a[..i])
      invariant multiset(a[..]) == multiset(old(a[..]))
    {
      InsertLast(a, i);
      i := i + 1;
    }
  }

  /** One insertion step: moves `a[i]` down past every larger distance, keeping the prefix sorted. */
  method InsertLast(a: array<DistanceRecord>, i: nat)
    requires i < a.Length && SortedByDistance(a[..i])
    modifies a
    ensures SortedByDistance(a[..i + 1])
    ensures a[i + 1..] == old(a[i + 1..])
    ensures multiset(a[..]) == multiset(old(a[..]))
  {
    var j := i;
    while j > 0 && Less(a[..], j, j - 1)
      invariant 0 <= j <= i
      invariant forall p, q :: 0 <= p < q <= i && p != j && q != j ==> a[p].distance <= a[q].distance
      invariant forall q :: j < q <= i ==> a[j].distance < a[q].distance
      invariant a[i + 1..] == old(a[i + 1..])
      invariant multiset(a[..]) == multiset(old(a[..]))
    {
      Swap(a, j - 1, j);
      j := j - 1;
    }
  }

  /** `ByDistance.Less`. */
  function Less(s: seq<DistanceRecord>, i: nat, j: nat): (b: bool)
    requires i < |s| && j < |s|
    ensures b <==> s[i].distance < s[j].distance
  {
    s[i].distance < s[j].distance
  }

  /** `ByDistance.Swap`: exchanges two entries and leaves the others; the records stay the same multiset. */
  method Swap(a: array<DistanceRecord>, i: nat, j: nat)
    requires i < j < a.Length
    modifies a
    ensures a[..] == old(a[..])[i := old(a[j])][j := old(a[i])]
    ensures multiset(a[..]) == multiset(old(a[..]))
  {
    a[i], a[j] := a[j], a[i];
  }

  /**
   * After sorting, the first k records are k nearest: no record left out of them is
   * nearer than any record in them.
   */
  lemma SortedPrefixIsNearest(ds: seq<DistanceRecord>, sorted: seq<DistanceRecord>, k: nat)
    requires SortedByDistance(sorted) && multiset(sorted) == multiset(ds) && k <= |sorted|
    ensures forall i, r :: 0 <= i < k && r in multiset(ds) - multiset(sorted[..k]) ==> sorted[i].distance <= r.distance
  {
    assert sorted == sorted[..k] + sorted[k..];
    assert multiset(sorted) == multiset(sorted[..k]) + multiset(sorted[k..]);
    forall i, r | 0 <= i < k && r in multiset(ds) - multiset(sorted[..k])
      ensures sorted[i].distance <= r.distance
    {
      assert r in multiset(sorted[k..]);
      var q :| 0 <= q < |sorted[k..]| && sorted[k..][q] == r;
      assert sorted[k + q] == r;
    }
  }

  // ---------------------------------------------------------------- voting

  /** Every record names a training position. */
  predicate IndicesIn(records: seq<DistanceRecord>, n: nat) {
    forall i :: 0 <= i < |records| ==> 0 <= records[i].index < n
  }

  /** The class each record votes for: the class of the training tuple it names. */
  function Ballots(records: seq<DistanceRecord>, training: seq<Tuple>): (b: seq<Label>)
    requires IndicesIn(records, |training|)
    ensures |b| == |records|
    ensures forall i :: 0 <= i < |records| ==> b[i] == training[records[i].index].classFeature
  {
    seq(|records|, i requires 0 <= i < |records| => training[records[i].index].classFeature)
  }

  /** `{class -> [distance, ...]}`: the records grouped by the class they vote for, each list in record order. */
  function Votes(records: seq<DistanceRecord>, training: seq<Tuple>): map<Label, seq<real>>
    requires IndicesIn(records, |training|)
  {
    if |records| == 0 then map[]
    else
      var classes := Votes(records[..|records| - 1], training);
      var last := records[|records| - 1];
      var c := training[last.index].classFeature;
      classes[c := (if c in classes then classes[c] else []) + [last.distance]]
  }

  /**
   * Every one of the records is grouped exactly once: the classes are exactly those
   * voted for, and each class holds as many distances as it has votes.
   */
  lemma {:induction false} VotesCountBallots(records: seq<DistanceRecord>, training: seq<Tuple>)
    requires IndicesIn(records, |training|)
    ensures forall c :: c in Votes(records, training) <==> c in Ballots(records, training)
    ensures forall c :: c in Votes(records, training) ==>
              |Votes(records, training)[c]| == multiset(Ballots(records, training))[c]
  {
    if |records| > 0 {
      var front := records[..|records| - 1];
      VotesCountBallots(front, training);
      var b := Ballots(records, training);
      assert b == Ballots(front, training) + [b[|b| - 1]];
    }
  }

  /** Grouping the nearest k: exactly k distances are grouped, whatever the classes. */
  lemma GroupedVotesTotal(records: seq<DistanceRecord>, training: seq<Tuple>)
    requires IndicesIn(records, |training|)
    ensures |multiset(Ballots(records, training))| == |records|
    ensures forall c :: c in Votes(records, training) ==> |Votes(records, training)[c]| <= |records|
  {
    VotesCountBallots(records, training);
    var b := Ballots(records, training);
    forall c | c in Votes(records, training)
      ensures |Votes(records, training)[c]| <= |records|
    {
      assert multiset(b)[c] <= |multiset(b)| by {
        MultiplicityBelowSize(multiset(b), c);
      }
    }
  }

  lemma MultiplicityBelowSize(m: multiset<Label>, c: Label)
    ensures m[c] <= |m|
  {
    var rest := m[c := 0];
    assert m == rest + multiset{}[c := m[c]];
  }

  /**
   * The voting loop of `classifySingle`: for each of the first k records, the class
   * of its training tuple gets the record's distance appended.
   */
  method GroupNearest(sorted: seq<DistanceRecord>, training: seq<Tuple>, k: nat) returns (classes: map<Label, seq<real>>)
    requires k <= |sorted| && IndicesIn(sorted, |training|)
    ensures classes == Votes(sorted[..k], training)
  {
    classes := map[];
    var i := 0;
    while i < k
      invariant 0 <= i <= k
      invariant classes == Votes(sorted[..i], training)
    {
      var c := training[sorted[i].index].classFeature;
      var classDistances := if c in classes then classes[c] else [];
      assert sorted[..i + 1][..i] == sorted[..i];
      classes := classes[c := classDistances + [sorted[i].distance]];
      i := i + 1;
    }
  }

  /** A class with at least as many votes as every other. */
  predicate MostVoted(classes: map<Label, seq<real>>, best: Label) {
    best in classes && forall c :: c in classes ==> |classes[c]| <= |classes[best]|
  }

  /**
   * `findBestClass`: walks the map in an arbitrary order and keeps the first class
   * with the longest list; nil (`None`) for an empty map.
   */
  method FindBestClass(classes: map<Label, seq<real>>) returns (best: Label)
    ensures classes == map[] ==> best == None
    ensures classes != map[] ==> MostVoted(classes, best)
  {
    var bestCount := -1;
    best := None;
    var remaining := classes.Keys;
    while remaining != {}
      invariant remaining <= classes.Keys
      invariant bestCount == -1 <==> remaining == classes.Keys
      invariant bestCount == -1 ==> best == None
      invariant bestCount != -1 ==> best in classes && bestCount == |classes[best]|
      invariant forall c :: c in classes.Keys - remaining ==> |classes[c]| <= bestCount
      decreases |remaining|
    {
      var value :| value in remaining;
      if bestCount == -1 || |classes[value]| > bestCount {
        bestCount := |classes[value]|;
        best := value;
      }
      remaining := remaining - {value};
    }
    if classes != map[] {
      assert classes.Keys != {};
    }
  }

  // -------------------------------------------------------------- classify

  /** The sorted records measured from x: a permutation of its distances in ascending order. */
  predicate NearestFirst(sorted: seq<DistanceRecord>, distancer: Distancer, training: seq<Tuple>, x: seq<real>,
                         sqrt: real -> real)
    requires FeaturesReducer.AllNumeric(training) && Measurable(distancer, training, x)
  {
    && SortedByDistance(sorted)
    && multiset(sorted) == multiset(Distances(distancer, training, x, sqrt))
  }

  /** The records of a permutation of the distances all name training positions. */
  lemma PermutedIndicesIn(ds: seq<DistanceRecord>, sorted: seq<DistanceRecord>, n: nat)
    requires multiset(sorted) == multiset(ds) && IndicesIn(ds, n)
    ensures IndicesIn(sorted, n) && |sorted| == |ds|
  {
    assert |multiset(sorted)| == |multiset(ds)|;
    forall i | 0 <= i < |sorted|
      ensures 0 <= sorted[i].index < n
    {
      assert sorted[i] in multiset(ds);
    }
  }

  /**
   * `classifySingle`: sorts the distances from x, lets the k nearest vote, and returns
   * the most voted class with its score. It panics when a distance cannot be measured
   * and when there are fewer than k training tuples.
   */
  method ClassifyPoint(k: nat, distancer: Distancer, training: seq<Tuple>, x: seq<real>, sqrt: real -> real,
                       score: (Label, map<Label, seq<real>>) -> real, maxProcs: nat)
    returns (r: Result<(Label, real)>, ghost sorted: seq<DistanceRecord>)
    requires k >= 1 && FeaturesReducer.AllNumeric(training)
    ensures r.Ok? <==> Measurable(distancer, training, x) && k <= |training|
    ensures r.Ok? ==> && NearestFirst(sorted, distancer, training, x, sqrt)
                      && k <= |sorted| && IndicesIn(sorted, |training|)
                      && MostVoted(Votes(sorted[..k], training), r.value.0)
                      && r.value.1 == score(r.value.0, Votes(sorted[..k], training))
  {
    sorted := [];
    var distances := CalculateDistances(distancer, training, x, sqrt, maxProcs);
    if distances.Panic? {
      return Panic(distances.reason), sorted;
    }
    var ds := distances.value;
    var a := new DistanceRecord[|ds|](i requires 0 <= i < |ds| => ds[i]);
    assert a[..] == ds;
    SortByDistance(a);
    var records := a[..];
    sorted := records;
    PermutedIndicesIn(ds, records, |training|);
    if k > |records| {
      return Panic(INDEX_OUT_OF_RANGE), sorted;
    }
    var classes := GroupNearest(records, training, k);
    VotesCountBallots(sorted[..k], training);
    assert Ballots(sorted[..k], training)[0] in classes;
    var bestClass := FindBestClass(classes);
    return Ok((bestClass, score(bestClass, classes))), sorted;
  }

  /** A kNN classifier: k, its reducer and distancer, and the tuples it was trained on. */
  class Knn {
    const k: int
    const reducer: FeaturesReducer.Reducer
    const distancer: Distancer
    var trainingData: seq<Tuple>

    predicate Valid()
      reads this
    {
      k >= 1 && FeaturesReducer.AllNumeric(trainingData)
    }

    constructor (k: int, reducer: FeaturesReducer.Reducer, distancer: Distancer)
      requires k >= 1
      ensures this.k == k && this.reducer == reducer && this.distancer == distancer
      ensures trainingData == [] && Valid()
    {
      this.k := k;
      this.reducer := reducer;
      this.distancer := distancer;
      trainingData := [];
    }

    /**
     * `Train`: panics when the reducer's `Init` does or on a tuple that is not a
     * `NumericTuple`; otherwise keeps exactly the reduced tuples, in order.
     */
    method Train(data: seq<Tuple>) returns (r: Result<()>)
      requires Valid()
      modifies this
      ensures r.Ok? <==> FeaturesReducer.Accepts(reducer, data) && FeaturesReducer.AllNumeric(data)
      ensures r.Ok? ==> trainingData == data && Valid()
    {
      var init := FeaturesReducer.Init(reducer, data);
      if init.Panic? {
        return Panic(init.reason);
      }
      var reduced := FeaturesReducer.Reduce(reducer, data);
      var stored: seq<Tuple> := [];
      var i := 0;
      while i < |reduced|
        invariant 0 <= i <= |reduced|
        invariant stored == reduced[..i] && FeaturesReducer.AllNumeric(stored)
      {
        if !reduced[i].NumericTuple? {
          return Panic(NOT_NUMERIC_TRAINING);
        }
        stored := stored + [reduced[i]];
        i := i + 1;
      }
      assert stored == data;
      trainingData := stored;
      return Ok(());
    }

    /**
     * `Classify`: one label and one confidence per tuple, in order, each from the k
     * nearest training tuples; panics on a tuple that is not numeric and wherever
     * `classifySingle` does.
     */
    method Classify(tuples: seq<Tuple>, sqrt: real -> real, score: (Label, map<Label, seq<real>>) -> real,
                    maxProcs: nat)
      returns (r: Result<(seq<Label>, seq<real>)>, ghost neighbours: seq<seq<DistanceRecord>>)
      requires Valid()
      ensures r.Ok? <==> && (forall i :: 0 <= i < |tuples| ==>
                                tuples[i].NumericTuple? && Measurable(distancer, trainingData, tuples[i].values))
                         && (|tuples| == 0 || k <= |trainingData|)
      ensures r.Ok? ==> |r.value.0| == |tuples| && |r.value.1| == |tuples| && |neighbours| == |tuples|
      ensures r.Ok? ==> forall i :: 0 <= i < |tuples| ==>
                          && NearestFirst(neighbours[i], distancer, trainingData, tuples[i].values, sqrt)
                          && k <= |neighbours[i]| && IndicesIn(neighbours[i], |trainingData|)
                          && MostVoted(Votes(neighbours[i][..k], trainingData), r.value.0[i])
                          && r.value.1[i] == score(r.value.0[i], Votes(neighbours[i][..k], trainingData))
    {
      neighbours := [];
      var reduced := FeaturesReducer.Reduce(reducer, tuples);
      var results: seq<Label> := [];
      var confidences: seq<real> := [];
      var training := trainingData;
      var i := 0;
      while i < |reduced|
        invariant 0 <= i <= |reduced|
        invariant |results| == i && |confidences| == i && |neighbours| == i
        invariant i > 0 ==> k <= |training|
        invariant forall j :: 0 <= j < i ==> tuples[j].NumericTuple? && Measurable(distancer, training, tuples[j].values)
        invariant forall j :: 0 <= j < i ==>
                    && NearestFirst(neighbours[j], distancer, training, tuples[j].values, sqrt)
                    && k <= |neighbours[j]| && IndicesIn(neighbours[j], |training|)
                    && MostVoted(Votes(neighbours[j][..k], training), results[j])
                    && confidences[j] == score(results[j], Votes(neighbours[j][..k], training))
      {
        if !reduced[i].NumericTuple? {
          return Panic(NOT_NUMERIC_TUPLE), neighbours;
        }
        var single;
        ghost var sorted;
        single, sorted := ClassifyPoint(k, distancer, training, reduced[i].values, sqrt, score, maxProcs);
        if single.Panic? {
          return Panic(single.reason), neighbours;
        }
        results := results + [single.value.0];
        confidences := confidences + [single.value.1];
        neighbours := neighbours + [sorted];
        i := i + 1;
      }
      return Ok((results, confidences)), neighbours;
    }
  }

  /**
   * `NewKnn`: panics when k < 1; a nil reducer selects `NoReducer` and a nil distancer
   * `Euclidean`; nothing is trained yet.
   */
  method NewKnn(k: int, reducer: Option<FeaturesReducer.Reducer>, distancer: Option<Distancer>)
    returns (r: Result<Knn>)
    ensures r.Panic? <==> k <= 0
    ensures r.Ok? ==> && fresh(r.value) && r.value.Valid()
                      && r.value.k == k
                      && r.value.reducer == FeaturesReducer.DefaultReducer(reducer)
                      && r.value.distancer == DefaultDistancer(distancer)
                      && r.value.trainingData == []
  {
    if k <= 0 {
      return Panic(K_TOO_SMALL);
    }
    var knn := new Knn(k, FeaturesReducer.DefaultReducer(reducer), DefaultDistancer(distancer));
    return Ok(knn);
  }
}
