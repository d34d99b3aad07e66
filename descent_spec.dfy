/**
 * Reference definitions shared by the optimizers: one gradient step, the
 * sequence of iterates of plain gradient descent, and its stopping rule.
 * Objectives and gradients are callbacks (total functions); a gradient
 * callback is required to return at least one entry per parameter.
 */
module DescentSpec {
  import opened UtilHelpers

  /** On every parameter vector of length n the gradient callback returns an entry per parameter. */
  ghost predicate GradientDefined(gradient: seq<real> -> seq<real>, n: nat) {
    forall p: seq<real> | |p| == n :: |gradient(p)| >= n
  }

  /** One descent step: every parameter moves against its gradient entry, scaled by alpha. */
  function Descend(params: seq<real>, gradients: seq<real>, alpha: real): (next: seq<real>)
    requires |gradients| >= |params|
    ensures |next| == |params|
    ensures forall i :: 0 <= i < |params| ==> next[i] == params[i] - alpha * gradients[i]
  {
    seq(|params|, i requires 0 <= i < |params| => params[i] - alpha * gradients[i])
  }

  /**
   * The loop `params[i] -= alpha * gradients[i]` over every index of `params`. The
   * optimizers run it on their own private copy of the parameters, so updating a
   * local sequence entry by entry has the same effect as updating the slice in place.
   */
  method Step(params: seq<real>, gradients: seq<real>, alpha: real) returns (next: seq<real>)
    requires |gradients| >= |params|
    ensures next == Descend(params, gradients, alpha)
  {
    next := params;
    var i := 0;
    while i < |next|
      invariant 0 <= i <= |next| == |params|
      invariant forall j :: 0 <= j < i ==> next[j] == params[j] - alpha * gradients[j]
      invariant forall j :: i <= j < |next| ==> next[j] == params[j]
    {
      next := next[i := next[i] - alpha * gradients[i]];
      i := i + 1;
    }
  }

  /** The parameters after k full-gradient steps from p0. */
  function Iterate(p0: seq<real>, gradient: seq<real> -> seq<real>, alpha: real, k: nat): (p: seq<real>)
    requires GradientDefined(gradient, |p0|)
    ensures |p| == |p0|
  {
    if k == 0 then p0
    else
      var q := Iterate(p0, gradient, alpha, k - 1);
      Descend(q, gradient(q), alpha)
  }

  /** Step t (t >= 1) changed the objective by less than the tolerance. */
  ghost predicate Converged(objective: seq<real> -> real, gradient: seq<real> -> seq<real>,
                            alpha: real, tolerence: real, p0: seq<real>, t: nat)
    requires GradientDefined(gradient, |p0|)
    requires t >= 1
  {
    Abs(objective(Iterate(p0, gradient, alpha, t)) - objective(Iterate(p0, gradient, alpha, t - 1))) < tolerence
  }

  /** None of the first k steps converged. */
  ghost predicate NoneConverged(objective: seq<real> -> real, gradient: seq<real> -> seq<real>,
                                alpha: real, tolerence: real, p0: seq<real>, k: nat)
    requires GradientDefined(gradient, |p0|)
  {
    forall t :: 1 <= t <= k ==> !Converged(objective, gradient, alpha, tolerence, p0, t)
  }

  /**
   * Declarative stopping rule: a run takes exactly k steps when there are none for a
   * non-positive iteration limit, and otherwise it stops right after the first step
   * whose objective change is below the tolerance, or after maxIterations steps.
   */
  ghost predicate StopsAt(objective: seq<real> -> real, gradient: seq<real> -> seq<real>,
                          alpha: real, tolerence: real, p0: seq<real>, maxIterations: int, k: nat)
    requires GradientDefined(gradient, |p0|)
  {
    && (maxIterations <= 0 ==> k == 0)
    && (maxIterations > 0 ==> 1 <= k <= maxIterations)
    && (forall t :: 1 <= t < k ==> !Converged(objective, gradient, alpha, tolerence, p0, t))
    && (0 < k < maxIterations ==> Converged(objective, gradient, alpha, tolerence, p0, k))
  }

  /** The first step from t on that converges, or maxIterations when none before it does. */
  ghost function FirstStop(objective: seq<real> -> real, gradient: seq<real> -> seq<real>,
                           alpha: real, tolerence: real, p0: seq<real>, maxIterations: int, t: nat): (k: nat)
    requires GradientDefined(gradient, |p0|)
    requires 1 <= t <= maxIterations
    ensures t <= k <= maxIterations
    decreases maxIterations - t
  {
    if t == maxIterations || Converged(objective, gradient, alpha, tolerence, p0, t) then t
    else FirstStop(objective, gradient, alpha, tolerence, p0, maxIterations, t + 1)
  }

  /** The number of steps a run takes, searched step by step as the loop does. */
  ghost function StepsTaken(objective: seq<real> -> real, gradient: seq<real> -> seq<real>,
                            alpha: real, tolerence: real, p0: seq<real>, maxIterations: int): (k: nat)
    requires GradientDefined(gradient, |p0|)
  {
    if maxIterations <= 0 then 0 else FirstStop(objective, gradient, alpha, tolerence, p0, maxIterations, 1)
  }

  /** FirstStop finds the first converging step at or after t. */
  lemma {:induction false} FirstStopIsFirst(objective: seq<real> -> real, gradient: seq<real> -> seq<real>,
                                            alpha: real, tolerence: real, p0: seq<real>, maxIterations: int, t: nat)
    requires GradientDefined(gradient, |p0|)
    requires 1 <= t <= maxIterations
    ensures var k := FirstStop(objective, gradient, alpha, tolerence, p0, maxIterations, t);
            && (forall s :: t <= s < k ==> !Converged(objective, gradient, alpha, tolerence, p0, s))
            && (k < maxIterations ==> Converged(objective, gradient, alpha, tolerence, p0, k))
    decreases maxIterations - t
  {
    if t < maxIterations && !Converged(objective, gradient, alpha, tolerence, p0, t) {
      FirstStopIsFirst(objective, gradient, alpha, tolerence, p0, maxIterations, t + 1);
    }
  }

  /** The step-by-step search meets the declarative stopping rule. */
  lemma StepsTakenStopsAt(objective: seq<real> -> real, gradient: seq<real> -> seq<real>,
                          alpha: real, tolerence: real, p0: seq<real>, maxIterations: int)
    requires GradientDefined(gradient, |p0|)
    ensures StopsAt(objective, gradient, alpha, tolerence, p0, maxIterations,
                    StepsTaken(objective, gradient, alpha, tolerence, p0, maxIterations))
  {
    if maxIterations > 0 {
      FirstStopIsFirst(objective, gradient, alpha, tolerence, p0, maxIterations, 1);
    }
  }

  /** The stopping rule determines the number of steps. */
  lemma StopsAtUnique(objective: seq<real> -> real, gradient: seq<real> -> seq<real>,
                      alpha: real, tolerence: real, p0: seq<real>, maxIterations: int, k1: nat, k2: nat)
    requires GradientDefined(gradient, |p0|)
    requires StopsAt(objective, gradient, alpha, tolerence, p0, maxIterations, k1)
    requires StopsAt(objective, gradient, alpha, tolerence, p0, maxIterations, k2)
    ensures k1 == k2
  {
  }

  /** The declarative rule singles out StepsTaken: it holds of k exactly when k is StepsTaken. */
  lemma StopsAtIffStepsTaken(objective: seq<real> -> real, gradient: seq<real> -> seq<real>,
                             alpha: real, tolerence: real, p0: seq<real>, maxIterations: int, k: nat)
    requires GradientDefined(gradient, |p0|)
    ensures StopsAt(objective, gradient, alpha, tolerence, p0, maxIterations, k)
            <==> k == StepsTaken(objective, gradient, alpha, tolerence, p0, maxIterations)
  {
    StepsTakenStopsAt(objective, gradient, alpha, tolerence, p0, maxIterations);
    if StopsAt(objective, gradient, alpha, tolerence, p0, maxIterations, k) {
      StopsAtUnique(objective, gradient, alpha, tolerence, p0, maxIterations, k,
                    StepsTaken(objective, gradient, alpha, tolerence, p0, maxIterations));
    }
  }

  /** A run that reaches a converging step k, after k-1 steps that did not converge, takes k steps. */
  lemma StepsTakenEarly(objective: seq<real> -> real, gradient: seq<real> -> seq<real>,
                        alpha: real, tolerence: real, p0: seq<real>, maxIterations: int, k: nat)
    requires GradientDefined(gradient, |p0|)
    requires 1 <= k <= maxIterations
    requires NoneConverged(objective, gradient, alpha, tolerence, p0, k - 1)
    requires Converged(objective, gradient, alpha, tolerence, p0, k)
    ensures StepsTaken(objective, gradient, alpha, tolerence, p0, maxIterations) == k
  {
    StopsAtIffStepsTaken(objective, gradient, alpha, tolerence, p0, maxIterations, k);
  }

  /** A run that uses up its iteration limit without converging takes maxIterations steps (none if it is not positive). */
  lemma StepsTakenLimit(objective: seq<real> -> real, gradient: seq<real> -> seq<real>,
                        alpha: real, tolerence: real, p0: seq<real>, maxIterations: int, k: nat)
    requires GradientDefined(gradient, |p0|)
    requires k == if maxIterations > 0 then maxIterations else 0
    requires NoneConverged(objective, gradient, alpha, tolerence, p0, k)
    ensures StepsTaken(objective, gradient, alpha, tolerence, p0, maxIterations) == k
  {
    StopsAtIffStepsTaken(objective, gradient, alpha, tolerence, p0, maxIterations, k);
  }

  /** When the very first step already converges, a run with a positive limit takes exactly one step. */
  lemma FirstStepConvergedTakesOne(objective: seq<real> -> real, gradient: seq<real> -> seq<real>,
                                   alpha: real, tolerence: real, p0: seq<real>, maxIterations: int)
    requires GradientDefined(gradient, |p0|)
    requires maxIterations > 0
    requires Converged(objective, gradient, alpha, tolerence, p0, 1)
    ensures StepsTaken(objective, gradient, alpha, tolerence, p0, maxIterations) == 1
  {
    StepsTakenEarly(objective, gradient, alpha, tolerence, p0, maxIterations, 1);
  }

  /** A step that did not converge extends a run of non-converged steps by one. */
  lemma NoneConvergedExtend(objective: seq<real> -> real, gradient: seq<real> -> seq<real>,
                            alpha: real, tolerence: real, p0: seq<real>, k: nat)
    requires GradientDefined(gradient, |p0|)
    requires NoneConverged(objective, gradient, alpha, tolerence, p0, k)
    requires !(Abs(objective(Iterate(p0, gradient, alpha, k + 1)) - objective(Iterate(p0, gradient, alpha, k))) < tolerence)
    ensures NoneConverged(objective, gradient, alpha, tolerence, p0, k + 1)
  {
  }

  /**
   * What the loop learns from comparing the objective before and after step k+1:
   * a change below the tolerance means the run takes k+1 steps; otherwise none of
   * the first k+1 steps converged.
   */
  lemma StepOutcome(objective: seq<real> -> real, gradient: seq<real> -> seq<real>,
                    alpha: real, tolerence: real, p0: seq<real>, maxIterations: int,
                    k: nat, value: real, nextValue: real)
    requires GradientDefined(gradient, |p0|)
    requires k < maxIterations
    requires NoneConverged(objective, gradient, alpha, tolerence, p0, k)
    requires value == objective(Iterate(p0, gradient, alpha, k))
    requires nextValue == objective(Iterate(p0, gradient, alpha, k + 1))
    ensures Abs(nextValue - value) < tolerence
            ==> StepsTaken(objective, gradient, alpha, tolerence, p0, maxIterations) == k + 1
    ensures !(Abs(nextValue - value) < tolerence)
            ==> NoneConverged(objective, gradient, alpha, tolerence, p0, k + 1)
  {
    if Abs(nextValue - value) < tolerence {
      StepsTakenEarly(objective, gradient, alpha, tolerence, p0, maxIterations, k + 1);
    } else {
      NoneConvergedExtend(objective, gradient, alpha, tolerence, p0, k);
    }
  }

  /**
   * One pass of the descent loop: the k-th iterate becomes the (k+1)-th, the
   * objective is evaluated there and compared with the previous value.
   */
  method DescentPass(params: seq<real>, objective: seq<real> -> real, gradient: seq<real> -> seq<real>,
                     alpha: real, tolerence: real, maxIterations: int, value: real,
                     ghost p0: seq<real>, ghost k: nat)
    returns (next: seq<real>, nextValue: real, converged: bool)
    requires GradientDefined(gradient, |p0|)
    requires k < maxIterations
    requires params == Iterate(p0, gradient, alpha, k)
    requires value == objective(params)
    requires NoneConverged(objective, gradient, alpha, tolerence, p0, k)
    ensures next == Iterate(p0, gradient, alpha, k + 1)
    ensures nextValue == objective(next)
    ensures converged == (Abs(nextValue - value) < tolerence)
    ensures converged ==> StepsTaken(objective, gradient, alpha, tolerence, p0, maxIterations) == k + 1
    ensures !converged ==> NoneConverged(objective, gradient, alpha, tolerence, p0, k + 1)
  {
    var gradients := gradient(params);
    next := Step(params, gradients, alpha);
    nextValue := objective(next);
    converged := Abs(nextValue - value) < tolerence;
    StepOutcome(objective, gradient, alpha, tolerence, p0, maxIterations, k, value, nextValue);
  }
}
