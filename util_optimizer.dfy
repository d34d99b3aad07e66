/**
 * The older copy of gradient descent in the `util` package: the same defaults
 * and the same loop as the `optimize` package, behind the single-method
 * `Optimizer` interface.
 */
module UtilOptimizer {
  import opened UtilHelpers
  import opened DescentSpec
  import OptimizeGD

  const OPTIMIZER_GD_DEFAULT_MAX_ITERATIONS: int := 1000
  const OPTIMIZER_GD_DEFAULT_ALPHA: real := 0.0001
  const OPTIMIZER_GD_DEFAULT_TOLERENCE: real := 0.0001

  datatype GradientDescent = GradientDescent(maxIterations: int, alpha: real, tolerence: real) {

    /**
     * Runs gradient descent from initialParams (the caller's slice is copied, never
     * modified) and returns the iterate reached after the number of steps the
     * stopping rule fixes.
     */
    method Optimize(initialParams: seq<real>, objective: seq<real> -> real, gradient: seq<real> -> seq<real>)
      returns (params: seq<real>, ghost steps: nat)
      requires GradientDefined(gradient, |initialParams|)
      ensures steps == StepsTaken(objective, gradient, alpha, tolerence, initialParams, maxIterations)
      ensures params == Iterate(initialParams, gradient, alpha,
                                StepsTaken(objective, gradient, alpha, tolerence, initialParams, maxIterations))
    {
      params := initialParams;
      var value := objective(params);
      var iteration := 0;
      while iteration < maxIterations
        invariant 0 <= iteration <= MaxInt(maxIterations, 0)
        invariant params == Iterate(initialParams, gradient, alpha, iteration)
        invariant value == objective(params)
        invariant NoneConverged(objective, gradient, alpha, tolerence, initialParams, iteration)
        decreases maxIterations - iteration
      {
        var nextValue, converged;
        params, nextValue, converged :=
          DescentPass(params, objective, gradient, alpha, tolerence, maxIterations, value, initialParams, iteration);
        if converged {
          return params, iteration + 1;
        }
        value := nextValue;
        iteration := iteration + 1;
      }
      StepsTakenLimit(objective, gradient, alpha, tolerence, initialParams, maxIterations, iteration);
      return params, iteration;
    }
  }

  /** Non-positive settings are replaced by the defaults 1000 / 1e-4 / 1e-4; positive ones are kept. */
  function NewGradientDescent(maxIterations: int, alpha: real, tolerence: real): (gd: GradientDescent)
    ensures gd.maxIterations == if maxIterations <= 0 then OPTIMIZER_GD_DEFAULT_MAX_ITERATIONS else maxIterations
    ensures gd.alpha == if alpha <= 0.0 then OPTIMIZER_GD_DEFAULT_ALPHA else alpha
    ensures gd.tolerence == if tolerence <= 0.0 then OPTIMIZER_GD_DEFAULT_TOLERENCE else tolerence
  {
    GradientDescent(
      if maxIterations <= 0 then OPTIMIZER_GD_DEFAULT_MAX_ITERATIONS else maxIterations,
      if alpha <= 0.0 then OPTIMIZER_GD_DEFAULT_ALPHA else alpha,
      if tolerence <= 0.0 then OPTIMIZER_GD_DEFAULT_TOLERENCE else tolerence)
  }

  /**
   * Both copies build the same configuration from the same arguments, so (their
   * loops being proved against the same iterates and stopping rule) they compute
   * the same parameters.
   */
  lemma SameConfigurationAsOptimizePackage(maxIterations: int, alpha: real, tolerence: real)
    ensures var u := NewGradientDescent(maxIterations, alpha, tolerence);
            var o := OptimizeGD.NewGradientDescent(maxIterations, alpha, tolerence);
            u.maxIterations == o.maxIterations && u.alpha == o.alpha && u.tolerence == o.tolerence
  {
  }
}
