/**
 * Mini-batch stochastic gradient descent of the `optimize` package. Every
 * iteration shuffles the point ids, cuts them into consecutive batches of at
 * most batchSize ids, and takes one descent step per batch.
 */
module OptimizeSGD {
  import opened Wrappers
  import opened UtilHelpers
  import opened DescentSpec
  import opened UtilSlice

  /** Panic messages. */
  const NO_FULL_BATCH_SUPPORT: string := "StochasticGradientDescent does not support non batches."

  const OPTIMIZER_SGD_DEFAULT_MAX_ITERATIONS: int := 2000
  const OPTIMIZER_SGD_DEFAULT_ALPHA: real := 0.0001
  const OPTIMIZER_SGD_DEFAULT_TOLERENCE: real := 0.0001
  const OPTIMIZER_SGD_DEFAULT_BATCH_SIZE: int := 128

  /** On every parameter vector of length n, and any batch, the gradient has an entry per parameter. */
  ghost predicate BatchGradientDefined(gradient: (seq<real>, seq<int>) -> seq<real>, n: nat) {
    forall p: seq<real>, points: seq<int> | |p| == n :: |gradient(p, points)| >= n
  }

  /** `int(math.Ceil(float64(n) / float64(batchSize)))`: the number of batches per iteration. */
  function NumBatches(n: nat, batchSize: int): nat
    requires batchSize > 0
  {
    CeilQuotientIsIntegerCeiling(n, batchSize);
    CeilQuotient(n, batchSize)
  }

  /** The batch count is the integer ceiling of n / batchSize: the batches cover n ids, one fewer would not. */
  lemma NumBatchesIsCeiling(n: nat, batchSize: int)
    requires batchSize > 0
    ensures NumBatches(n, batchSize) == (n + batchSize - 1) / batchSize
    ensures NumBatches(n, batchSize) * batchSize >= n
    ensures n > 0 ==> (NumBatches(n, batchSize) - 1) * batchSize < n
  {
    CeilQuotientIsIntegerCeiling(n, batchSize);
  }

  /** A batch index below the batch count starts inside the point list. */
  lemma BatchStartInRange(n: nat, batchSize: int, k: nat)
    requires batchSize > 0 && k < NumBatches(n, batchSize)
    ensures k * batchSize < n
  {
    var q := NumBatches(n, batchSize);
    NumBatchesIsCeiling(n, batchSize);
    assert n > 0;
    MultiplyMonotone(k, q - 1, batchSize);
  }

  /** `(k+1)*batchSize` is where batch k ends and batch k+1 starts. */
  lemma NextBatchStart(batchSize: int, k: nat)
    ensures (k + 1) * batchSize == k * batchSize + batchSize
  {
  }

  /** Batch k: `points[k*batchSize : min(len(points), (k+1)*batchSize)]`. */
  function Batch(points: seq<int>, batchSize: int, k: nat): (batch: seq<int>)
    requires batchSize > 0 && k < NumBatches(|points|, batchSize)
  {
    BatchStartInRange(|points|, batchSize, k);
    NextBatchStart(batchSize, k);
    points[k * batchSize .. MinInt(|points|, (k + 1) * batchSize)]
  }

  /** Every batch is non-empty, holds at most batchSize ids, and is the slice the source cuts. */
  lemma BatchShape(points: seq<int>, batchSize: int, k: nat)
    requires batchSize > 0 && k < NumBatches(|points|, batchSize)
    ensures 0 < |Batch(points, batchSize, k)| <= batchSize
    ensures forall i :: 0 <= i < |Batch(points, batchSize, k)| ==>
              k * batchSize + i < |points| && Batch(points, batchSize, k)[i] == points[k * batchSize + i]
  {
    BatchStartInRange(|points|, batchSize, k);
    NextBatchStart(batchSize, k);
    var start := k * batchSize;
    var end := MinInt(|points|, (k + 1) * batchSize);
    assert Batch(points, batchSize, k) == points[start..end];
    assert start < end <= start + batchSize;
  }

  /** The batches from index k on, concatenated. */
  function BatchesFrom(points: seq<int>, batchSize: int, k: nat): (flat: seq<int>)
    requires batchSize > 0 && k <= NumBatches(|points|, batchSize)
    decreases NumBatches(|points|, batchSize) - k
  {
    if k == NumBatches(|points|, batchSize) then []
    else Batch(points, batchSize, k) + BatchesFrom(points, batchSize, k + 1)
  }

  /** The batches from k on concatenate to the points from `k*batchSize` on. */
  lemma {:induction false} BatchesFromAreSuffix(points: seq<int>, batchSize: int, k: nat)
    requires batchSize > 0 && k <= NumBatches(|points|, batchSize)
    ensures BatchesFrom(points, batchSize, k) == points[MinInt(|points|, k * batchSize)..]
    decreases NumBatches(|points|, batchSize) - k
  {
    var q := NumBatches(|points|, batchSize);
    if k == q {
      NumBatchesIsCeiling(|points|, batchSize);
      assert MinInt(|points|, k * batchSize) == |points|;
    } else {
      var start := k * batchSize;
      var end := MinInt(|points|, (k + 1) * batchSize);
      BatchStartInRange(|points|, batchSize, k);
      NextBatchStart(batchSize, k);
      assert 0 <= start < end <= |points|;
      BatchesFromAreSuffix(points, batchSize, k + 1);
      assert BatchesFrom(points, batchSize, k + 1) == points[end..];
      assert Batch(points, batchSize, k) == points[start..end];
      SuffixSplit(points, start, end);
      assert MinInt(|points|, start) == start;
    }
  }

  lemma SuffixSplit(s: seq<int>, i: nat, j: nat)
    requires i <= j <= |s|
    ensures s[i..] == s[i..j] + s[j..]
  {
  }

  /** All batches of one iteration, concatenated, give back the whole point list. */
  lemma BatchesPartitionPoints(points: seq<int>, batchSize: int)
    requires batchSize > 0
    ensures BatchesFrom(points, batchSize, 0) == points
  {
    BatchesFromAreSuffix(points, batchSize, 0);
  }

  /** The parameters after the descent steps for batches k, k+1, ... of one iteration. */
  function EpochFrom(params: seq<real>, points: seq<int>, gradient: (seq<real>, seq<int>) -> seq<real>,
                     alpha: real, batchSize: int, k: nat): (next: seq<real>)
    requires batchSize > 0 && k <= NumBatches(|points|, batchSize)
    requires BatchGradientDefined(gradient, |params|)
    ensures |next| == |params|
    decreases NumBatches(|points|, batchSize) - k
  {
    if k == NumBatches(|points|, batchSize) then params
    else
      var p := Descend(params, gradient(params, Batch(points, batchSize, k)), alpha);
      EpochFrom(p, points, gradient, alpha, batchSize, k + 1)
  }

  /** The parameters after whole iterations over the point orders `orders[0]`, `orders[1]`, .... */
  function Run(p0: seq<real>, orders: seq<seq<int>>, gradient: (seq<real>, seq<int>) -> seq<real>,
               alpha: real, batchSize: int): (p: seq<real>)
    requires batchSize > 0
    requires BatchGradientDefined(gradient, |p0|)
    ensures |p| == |p0|
    decreases |orders|
  {
    if |orders| == 0 then p0
    else
      var prev := Run(p0, orders[..|orders| - 1], gradient, alpha, batchSize);
      EpochFrom(prev, orders[|orders| - 1], gradient, alpha, batchSize, 0)
  }

  /**
   * After the t-th iteration (orders has length t) the tolerance test fires: it is
   * never the first iteration, and the objective moved by less than the tolerance.
   */
  ghost predicate ConvergedAfter(objective: seq<real> -> real, gradient: (seq<real>, seq<int>) -> seq<real>,
                                 alpha: real, tolerence: real, batchSize: int, p0: seq<real>, orders: seq<seq<int>>)
    requires batchSize > 0
    requires BatchGradientDefined(gradient, |p0|)
  {
    && |orders| >= 2
    && Abs(objective(Run(p0, orders, gradient, alpha, batchSize))
           - objective(Run(p0, orders[..|orders| - 1], gradient, alpha, batchSize))) < tolerence
  }

  /** The test fired after none of the iterations recorded in orders. */
  ghost predicate NoneConvergedSGD(objective: seq<real> -> real, gradient: (seq<real>, seq<int>) -> seq<real>,
                                   alpha: real, tolerence: real, batchSize: int, p0: seq<real>, orders: seq<seq<int>>)
    requires batchSize > 0
    requires BatchGradientDefined(gradient, |p0|)
  {
    forall t :: 1 <= t <= |orders| ==> !ConvergedAfter(objective, gradient, alpha, tolerence, batchSize, p0, orders[..t])
  }

  /**
   * The iterations recorded in orders are exactly the ones a run performs: none for a
   * non-positive limit; otherwise at least one and at most maxIterations, the test did
   * not fire before the last one, and it fired after the last one unless the limit was reached.
   */
  ghost predicate StopsAfter(objective: seq<real> -> real, gradient: (seq<real>, seq<int>) -> seq<real>,
                             alpha: real, tolerence: real, batchSize: int, p0: seq<real>,
                             orders: seq<seq<int>>, maxIterations: int)
    requires batchSize > 0
    requires BatchGradientDefined(gradient, |p0|)
  {
    && (maxIterations <= 0 ==> |orders| == 0)
    && (maxIterations > 0 ==> 1 <= |orders| <= maxIterations)
    && (|orders| > 0 ==> NoneConvergedSGD(objective, gradient, alpha, tolerence, batchSize, p0, orders[..|orders| - 1]))
    && (0 < |orders| < maxIterations ==> ConvergedAfter(objective, gradient, alpha, tolerence, batchSize, p0, orders))
  }

  /** The tolerance stop is never taken on the first iteration: with a limit above one, at least two iterations run. */
  lemma NeverStopsAfterFirstIteration(objective: seq<real> -> real, gradient: (seq<real>, seq<int>) -> seq<real>,
                                      alpha: real, tolerence: real, batchSize: int, p0: seq<real>,
                                      orders: seq<seq<int>>, maxIterations: int)
    requires batchSize > 0
    requires BatchGradientDefined(gradient, |p0|)
    requires StopsAfter(objective, gradient, alpha, tolerence, batchSize, p0, orders, maxIterations)
    requires maxIterations >= 2
    ensures |orders| >= 2
  {
  }

  /** With no points there are no batches, so an iteration leaves the parameters as they are. */
  lemma EmptyPointsEpochIsIdentity(params: seq<real>, gradient: (seq<real>, seq<int>) -> seq<real>,
                                   alpha: real, batchSize: int)
    requires batchSize > 0
    requires BatchGradientDefined(gradient, |params|)
    ensures EpochFrom(params, [], gradient, alpha, batchSize, 0) == params
  {
    NumBatchesIsCeiling(0, batchSize);
  }

  /** With an empty point list, any number of iterations returns the initial parameters. */
  lemma {:induction false} EmptyPointsKeepParams(p0: seq<real>, orders: seq<seq<int>>,
                                                 gradient: (seq<real>, seq<int>) -> seq<real>,
                                                 alpha: real, batchSize: int)
    requires batchSize > 0
    requires BatchGradientDefined(gradient, |p0|)
    requires forall i :: 0 <= i < |orders| ==> orders[i] == []
    ensures Run(p0, orders, gradient, alpha, batchSize) == p0
    decreases |orders|
  {
    if |orders| > 0 {
      var prefix := orders[..|orders| - 1];
      EmptyPointsKeepParams(p0, prefix, gradient, alpha, batchSize);
      EmptyPointsEpochIsIdentity(p0, gradient, alpha, batchSize);
    }
  }

  /** One more iteration runs one more epoch on top of the previous parameters. */
  lemma RunSnoc(p0: seq<real>, orders: seq<seq<int>>, order: seq<int>,
                gradient: (seq<real>, seq<int>) -> seq<real>, alpha: real, batchSize: int)
    requires batchSize > 0
    requires BatchGradientDefined(gradient, |p0|)
    ensures Run(p0, orders + [order], gradient, alpha, batchSize)
            == EpochFrom(Run(p0, orders, gradient, alpha, batchSize), order, gradient, alpha, batchSize, 0)
  {
    assert (orders + [order])[..|orders|] == orders;
  }

  /**
   * What the loop learns from the objective after iteration |orders|: if the test
   * fires, the recorded iterations meet the stopping rule; otherwise the test has
   * fired after none of them.
   */
  lemma IterationOutcome(objective: seq<real> -> real, gradient: (seq<real>, seq<int>) -> seq<real>,
                         alpha: real, tolerence: real, batchSize: int, p0: seq<real>,
                         orders: seq<seq<int>>, maxIterations: int, firstRun: bool, value: real, nextValue: real)
    requires batchSize > 0
    requires BatchGradientDefined(gradient, |p0|)
    requires 1 <= |orders| <= maxIterations
    requires NoneConvergedSGD(objective, gradient, alpha, tolerence, batchSize, p0, orders[..|orders| - 1])
    requires firstRun == (|orders| == 1)
    requires !firstRun ==> value == objective(Run(p0, orders[..|orders| - 1], gradient, alpha, batchSize))
    requires nextValue == objective(Run(p0, orders, gradient, alpha, batchSize))
    ensures (!firstRun && Abs(nextValue - value) < tolerence)
            ==> StopsAfter(objective, gradient, alpha, tolerence, batchSize, p0, orders, maxIterations)
    ensures !(!firstRun && Abs(nextValue - value) < tolerence)
            ==> NoneConvergedSGD(objective, gradient, alpha, tolerence, batchSize, p0, orders)
  {
    var k := |orders|;
    assert orders[..k] == orders;
    if !(!firstRun && Abs(nextValue - value) < tolerence) {
      forall t | 1 <= t <= k
        ensures !ConvergedAfter(objective, gradient, alpha, tolerence, batchSize, p0, orders[..t])
      {
        if t < k {
          assert orders[..t] == orders[..k - 1][..t];
        }
      }
    }
  }

  /** Running out of iterations without the test firing meets the stopping rule. */
  lemma StopsAfterLimit(objective: seq<real> -> real, gradient: (seq<real>, seq<int>) -> seq<real>,
                        alpha: real, tolerence: real, batchSize: int, p0: seq<real>,
                        orders: seq<seq<int>>, maxIterations: int)
    requires batchSize > 0
    requires BatchGradientDefined(gradient, |p0|)
    requires |orders| == MaxInt(maxIterations, 0)
    requires NoneConvergedSGD(objective, gradient, alpha, tolerence, batchSize, p0, orders)
    ensures StopsAfter(objective, gradient, alpha, tolerence, batchSize, p0, orders, maxIterations)
  {
    if |orders| > 0 {
      var prefix := orders[..|orders| - 1];
      forall t | 1 <= t <= |prefix|
        ensures !ConvergedAfter(objective, gradient, alpha, tolerence, batchSize, p0, prefix[..t])
      {
        assert prefix[..t] == orders[..t];
      }
    }
  }

  /**
   * The descent steps of one iteration: for every batch in order, one gradient
   * evaluation on that batch and the update of every parameter.
   */
  method RunEpoch(params: seq<real>, points: seq<int>, gradient: (seq<real>, seq<int>) -> seq<real>,
                  alpha: real, batchSize: int) returns (next: seq<real>)
    requires batchSize > 0
    requires BatchGradientDefined(gradient, |params|)
    ensures next == EpochFrom(params, points, gradient, alpha, batchSize, 0)
  {
    next := params;
    var batch := 0;
    var count := NumBatches(|points|, batchSize);
    while batch < count
      invariant 0 <= batch <= count
      invariant |next| == |params|
      invariant EpochFrom(next, points, gradient, alpha, batchSize, batch)
                == EpochFrom(params, points, gradient, alpha, batchSize, 0)
      decreases count - batch
    {
      BatchStartInRange(|points|, batchSize, batch);
      var batchStart := batch * batchSize;
      var batchEnd := MinInt(|points|, (batch + 1) * batchSize);
      var batchPoints := points[batchStart..batchEnd];
      var gradients := gradient(next, batchPoints);
      next := Step(next, gradients, alpha);
      batch := batch + 1;
    }
  }

  /**
   * One iteration of the optimizer loop: shuffle the point ids, run the epoch over
   * their batches, evaluate the objective, and apply the tolerance test (never on
   * the first iteration).
   */
  method IterationPass(params: seq<real>, points: seq<int>, objective: seq<real> -> real,
                       gradient: (seq<real>, seq<int>) -> seq<real>, alpha: real, tolerence: real,
                       batchSize: int, maxIterations: int, firstRun: bool, value: real,
                       ghost p0: seq<real>, ghost orders: seq<seq<int>>)
    returns (next: seq<real>, shuffled: seq<int>, nextValue: real, stop: bool, ghost nextOrders: seq<seq<int>>)
    requires batchSize > 0
    requires BatchGradientDefined(gradient, |p0|)
    requires |orders| < maxIterations
    requires params == Run(p0, orders, gradient, alpha, batchSize)
    requires firstRun == (|orders| == 0)
    requires !firstRun ==> value == objective(params)
    requires NoneConvergedSGD(objective, gradient, alpha, tolerence, batchSize, p0, orders)
    ensures multiset(shuffled) == multiset(points)
    ensures nextOrders == orders + [shuffled]
    ensures next == Run(p0, nextOrders, gradient, alpha, batchSize)
    ensures nextValue == objective(next)
    ensures stop == (!firstRun && Abs(nextValue - value) < tolerence)
    ensures stop ==> StopsAfter(objective, gradient, alpha, tolerence, batchSize, p0, nextOrders, maxIterations)
    ensures !stop ==> NoneConvergedSGD(objective, gradient, alpha, tolerence, batchSize, p0, nextOrders)
  {
    ghost var choices;
    shuffled, choices := ShuffleIntSlice(points);
    RunSnoc(p0, orders, shuffled, gradient, alpha, batchSize);
    nextOrders := orders + [shuffled];
    assert nextOrders[..|nextOrders| - 1] == orders;
    next := RunEpoch(params, shuffled, gradient, alpha, batchSize);
    nextValue := objective(next);
    stop := !firstRun && Abs(nextValue - value) < tolerence;
    IterationOutcome(objective, gradient, alpha, tolerence, batchSize, p0,
                     nextOrders, maxIterations, firstRun, value, nextValue);
  }

  datatype SGD = SGD(maxIterations: int, alpha: real, tolerence: real, batchSize: int) {

    /** A configuration built by NewSGD: every setting positive. */
    predicate Valid() {
      maxIterations > 0 && alpha > 0.0 && tolerence > 0.0 && batchSize > 0
    }

    /** Full-batch optimisation is not supported: the call always panics. */
    function Optimize(initialParams: seq<real>, objective: seq<real> -> real,
                      gradient: seq<real> -> seq<real>): (r: Result<seq<real>>)
      ensures r.Panic?
    {
      Panic(NO_FULL_BATCH_SUPPORT)
    }

    /**
     * Runs mini-batch descent on copies of the parameters and point ids (the caller's
     * are never modified). `orders` records the point order each iteration used:
     * each is a permutation of the initial ids, the iterations meet the stopping
     * rule, and the result is the parameters after exactly those iterations.
     */
    method OptimizeBatch(initialParams: seq<real>, initialPoints: seq<int>, objective: seq<real> -> real,
                         gradient: (seq<real>, seq<int>) -> seq<real>)
      returns (params: seq<real>, ghost orders: seq<seq<int>>)
      requires batchSize > 0
      requires BatchGradientDefined(gradient, |initialParams|)
      ensures forall i :: 0 <= i < |orders| ==> multiset(orders[i]) == multiset(initialPoints)
      ensures StopsAfter(objective, gradient, alpha, tolerence, batchSize, initialParams, orders, maxIterations)
      ensures params == Run(initialParams, orders, gradient, alpha, batchSize)
    {
      params := initialParams;
      var points := initialPoints;
      var firstRun := true;
      var value: real := 0.0;
      orders := [];
      var iteration := 0;
      while iteration < maxIterations
        invariant 0 <= iteration <= MaxInt(maxIterations, 0)
        invariant |orders| == iteration
        invariant multiset(points) == multiset(initialPoints)
        invariant forall i :: 0 <= i < |orders| ==> multiset(orders[i]) == multiset(initialPoints)
        invariant params == Run(initialParams, orders, gradient, alpha, batchSize)
        invariant firstRun == (iteration == 0)
        invariant !firstRun ==> value == objective(params)
        invariant NoneConvergedSGD(objective, gradient, alpha, tolerence, batchSize, initialParams, orders)
        decreases maxIterations - iteration
      {
        var nextValue, stop;
        params, points, nextValue, stop, orders :=
          IterationPass(params, points, objective, gradient, alpha, tolerence, batchSize, maxIterations,
                        firstRun, value, initialParams, orders);
        if stop {
          return;
        }
        firstRun := false;
        value := nextValue;
        iteration := iteration + 1;
      }
      StopsAfterLimit(objective, gradient, alpha, tolerence, batchSize, initialParams, orders, maxIterations);
    }

    function SupportsBatch(): (b: bool)
      ensures b
    {
      true
    }
  }

  /** Non-positive settings are replaced by the defaults 2000 / 1e-4 / 1e-4 / 128; positive ones are kept. */
  function NewSGD(maxIterations: int, alpha: real, tolerence: real, batchSize: int): (sgd: SGD)
    ensures sgd.Valid()
    ensures sgd.maxIterations == if maxIterations <= 0 then OPTIMIZER_SGD_DEFAULT_MAX_ITERATIONS else maxIterations
    ensures sgd.alpha == if alpha <= 0.0 then OPTIMIZER_SGD_DEFAULT_ALPHA else alpha
    ensures sgd.tolerence == if tolerence <= 0.0 then OPTIMIZER_SGD_DEFAULT_TOLERENCE else tolerence
    ensures sgd.batchSize == if batchSize <= 0 then OPTIMIZER_SGD_DEFAULT_BATCH_SIZE else batchSize
  {
    SGD(
      if maxIterations <= 0 then OPTIMIZER_SGD_DEFAULT_MAX_ITERATIONS else maxIterations,
      if alpha <= 0.0 then OPTIMIZER_SGD_DEFAULT_ALPHA else alpha,
      if tolerence <= 0.0 then OPTIMIZER_SGD_DEFAULT_TOLERENCE else tolerence,
      if batchSize <= 0 then OPTIMIZER_SGD_DEFAULT_BATCH_SIZE else batchSize)
  }
}
