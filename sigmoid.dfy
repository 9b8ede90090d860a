/**
 * The sigmoid of the sigmoid gate.
 *
 * The gate itself only needs some function `sig` from reals to reals; the
 * program fixes it to the logistic function `1 / (1 + exp(-arg))`. The
 * exponential is a library call whose floating-point behaviour is not
 * modelled: it is a parameter `exp`, and what a proof needs of it is stated
 * as a precondition (positive; for monotonicity, strictly increasing).
 */
module Sigmoid {

  /** The exponential never returns zero or a negative number. */
  ghost predicate ExpPositive(exp: real -> real)
  {
    forall t :: exp(t) > 0.0
  }

  /** The exponential is strictly increasing. */
  ghost predicate ExpIncreasing(exp: real -> real)
  {
    forall s, t :: s < t ==> exp(s) < exp(t)
  }

  /** A squashing function: every value lies strictly between 0 and 1. */
  ghost predicate Squashing(sig: real -> real)
  {
    forall t :: 0.0 < sig(t) < 1.0
  }

  /** A strictly increasing function. */
  ghost predicate Increasing(sig: real -> real)
  {
    forall s, t :: s < t ==> sig(s) < sig(t)
  }

  /** SigmoidGate.sig: the logistic function, strictly between 0 and 1. */
  function Logistic(exp: real -> real, arg: real): (r: real)
    requires ExpPositive(exp)
    ensures 0.0 < r < 1.0
  {
    1.0 / (1.0 + exp(-arg))
  }

  /** The local derivative the sigmoid gate's backward uses, `s * (1 - s)`
      for a sigmoid output `s`: positive and at most 1/4 when `s` is
      strictly between 0 and 1. */
  function LocalDerivative(s: real): (r: real)
    ensures 0.0 < s < 1.0 ==> 0.0 < r <= 0.25
  {
    assert 0.25 - s * (1.0 - s) == (s - 0.5) * (s - 0.5);
    s * (1.0 - s)
  }

  /** For the logistic function, `s * (1 - s)` is the slope the quotient
      rule gives when exp is its own derivative:
      `exp(-arg) / (1 + exp(-arg))^2`. */
  lemma LocalDerivativeIsSlope(exp: real -> real, arg: real)
    requires ExpPositive(exp)
    ensures LocalDerivative(Logistic(exp, arg))
         == exp(-arg) / ((1.0 + exp(-arg)) * (1.0 + exp(-arg)))
  {
    var e := exp(-arg);
    var p := 1.0 + e;
    var s := Logistic(exp, arg);
    assert s * p == 1.0;
    assert 1.0 - s == e / p by {
      assert (1.0 - s) * p == p - 1.0;
    }
    assert s * (1.0 - s) * (p * p) == e;
  }

  /** With an increasing exponential the logistic function is strictly
      increasing. */
  lemma LogisticIncreasing(exp: real -> real, u: real, w: real)
    requires ExpPositive(exp) && ExpIncreasing(exp)
    requires u < w
    ensures Logistic(exp, u) < Logistic(exp, w)
  {
    var p, q := 1.0 + exp(-w), 1.0 + exp(-u);
    assert p < q;
    ReciprocalDecreasing(p, q);
  }

  /** On positive numbers, taking the reciprocal reverses the order. */
  lemma ReciprocalDecreasing(p: real, q: real)
    requires 0.0 < p < q
    ensures 1.0 / q < 1.0 / p
  {
    assert (1.0 / q) * q == 1.0 && (1.0 / p) * p == 1.0;
    assert (1.0 / q) * p < (1.0 / q) * q;
  }

  /** The logistic function, as the function value a sigmoid gate is given,
      is a squashing function, and an increasing one when exp is. */
  lemma LogisticIsSigmoid(exp: real -> real)
    requires ExpPositive(exp)
    ensures Squashing(t => Logistic(exp, t))
    ensures ExpIncreasing(exp) ==> Increasing(t => Logistic(exp, t))
  {
    if ExpIncreasing(exp) {
      forall s, t | s < t
        ensures Logistic(exp, s) < Logistic(exp, t)
      {
        LogisticIncreasing(exp, s, t);
      }
    }
  }
}
