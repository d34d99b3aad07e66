/** Full-batch gradient descent of the `optimize` package. */
module OptimizeGD {
  import opened Wrappers
  import opened UtilHelpers
  import opened DescentSpec

  /** Panic messages. */
  const NO_BATCH_SUPPORT: string := "GradientDescent does not support batches."

  const DEFAULT_MAX_ITERATIONS: int := 1000
  const DEFAULT_ALPHA: real := 0.0001
  const DEFAULT_TOLERENCE: real := 0.0001

  datatype GradientDescent = GradientDescent(maxIterations: int, alpha: real, tolerence: real) {

    /** A configuration built by NewGradientDescent: every setting positive. */
    predicate Valid() {
      maxIterations > 0 && alpha > 0.0 && tolerence > 0.0
    }

    /**
     * Runs gradient descent from initialParams (the caller's slice is copied, never
     * modified): the result is the iterate reached after `steps` steps, and `steps`
     * is the number the stopping rule fixes.
     */
    method Optimize(initialParams: seq<real>, objective: seq<real> -> real, gradient: seq<real> -> seq<real>)
      returns (params: seq<real>, ghost steps: nat)
      requires GradientDefined(gradient, |initialParams|)
      ensures steps == StepsTaken(objective, gradient, alpha, tolerence, initialParams, maxIterations)
      ensures params == Iterate(initialParams, gradient, alpha,
                                StepsTaken(objective, gradient, alpha, tolerence, initialParams, maxIterations))
    {
      params := initialParams;
      var value := objective(params);
      var iteration := 0;
      while iteration < maxIterations
        invariant 0 <= iteration <= MaxInt(maxIterations, 0)
        invariant params == Iterate(initialParams, gradient, alpha, iteration)
        invariant value == objective(params)
        invariant NoneConverged(objective, gradient, alpha, tolerence, initialParams, iteration)
        decreases maxIterations - iteration
      {
        var nextValue, converged;
        params, nextValue, converged :=
          DescentPass(params, objective, gradient, alpha, tolerence, maxIterations, value, initialParams, iteration);
        if converged {
          return params, iteration + 1;
        }
        value := nextValue;
        iteration := iteration + 1;
      }
      StepsTakenLimit(objective, gradient, alpha, tolerence, initialParams, maxIterations, iteration);
      return params, iteration;
    }

    /** Batches are not supported: the call always panics. */
    function OptimizeBatch(initialParams: seq<real>, points: seq<int>, objective: seq<real> -> real,
                           gradient: (seq<real>, seq<int>) -> seq<real>): (r: Result<seq<real>>)
      ensures r.Panic?
    {
      Panic(NO_BATCH_SUPPORT)
    }

    function SupportsBatch(): (b: bool)
      ensures !b
    {
      false
    }
  }

  /** Non-positive settings are replaced by the defaults 1000 / 1e-4 / 1e-4; positive ones are kept. */
  function NewGradientDescent(maxIterations: int, alpha: real, tolerence: real): (gd: GradientDescent)
    ensures gd.Valid()
    ensures gd.maxIterations == if maxIterations <= 0 then DEFAULT_MAX_ITERATIONS else maxIterations
    ensures gd.alpha == if alpha <= 0.0 then DEFAULT_ALPHA else alpha
    ensures gd.tolerence == if tolerence <= 0.0 then DEFAULT_TOLERENCE else tolerence
  {
    GradientDescent(
      if maxIterations <= 0 then DEFAULT_MAX_ITERATIONS else maxIterations,
      if alpha <= 0.0 then DEFAULT_ALPHA else alpha,
      if tolerence <= 0.0 then DEFAULT_TOLERENCE else tolerence)
  }

  /** A configuration built by NewGradientDescent takes at least one and at most maxIterations steps. */
  lemma StepBounds(gd: GradientDescent, objective: seq<real> -> real, gradient: seq<real> -> seq<real>, p0: seq<real>)
    requires gd.Valid()
    requires GradientDefined(gradient, |p0|)
    ensures 1 <= StepsTaken(objective, gradient, gd.alpha, gd.tolerence, p0, gd.maxIterations) <= gd.maxIterations
  {
  }
}
