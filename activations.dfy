/** The LeakyReLU activation: its element-wise forward rule and the rule its
    backward pass applies to each output and output gradient. */
module Activations {

  /** The slope the constructor uses when none is given. */
  const DefaultSlope: real := 0.2

  /** A LeakyReLU unit: the slope is fixed when the unit is built and never changes. */
  datatype LeakyReLU = LeakyReLU(slope: real)

  /** The unit built without an explicit slope. */
  function Standard(): (u: LeakyReLU)
    ensures u.slope == DefaultSlope
  {
    LeakyReLU(DefaultSlope)
  }

  /** ForwardActivate: the identity on non-negative inputs, the input scaled by
      the slope on negative ones. With a positive slope the sign is kept. */
  function Forward(u: LeakyReLU, x: real): (y: real)
    ensures 0.0 <= x ==> y == x
    ensures 0.0 < u.slope ==> (y < 0.0 <==> x < 0.0)
  {
    if x < 0.0 then x * u.slope else x
  }

  /** The derivative of Forward at x, taking the slope side at 0 as the backward
      rule's y <= 0 test does. */
  function Derivative(u: LeakyReLU, x: real): real
  {
    if x <= 0.0 then u.slope else 1.0
  }

  /** BackwardActivate as written: the output gradient passes through where the
      output is positive; elsewhere the result is the OUTPUT scaled by the slope. */
  function BackwardAsWritten(u: LeakyReLU, gy: real, y: real): (gx: real)
    ensures 0.0 < y ==> gx == gy
  {
    if y <= 0.0 then y * u.slope else gy
  }

  /** The backward rule the chain rule asks for: the output gradient times the slope
      where the output is not positive. */
  function Backward(u: LeakyReLU, gy: real, y: real): (gx: real)
    ensures 0.0 < y ==> gx == gy
  {
    if y <= 0.0 then gy * u.slope else gy
  }

  /** Forward is piecewise linear: its value is its derivative times its input. */
  lemma ForwardIsDerivativeTimesInput(u: LeakyReLU, x: real)
    ensures Forward(u, x) == Derivative(u, x) * x
  {
    if x == 0.0 {
      assert Derivative(u, x) * x == 0.0;
    }
  }

  /** For a slope in [0, 1] Forward is the larger of x and slope*x. */
  lemma ForwardIsMax(u: LeakyReLU, x: real)
    requires 0.0 <= u.slope <= 1.0
    ensures Forward(u, x) == if x < u.slope * x then u.slope * x else x
  {
    if x < 0.0 {
      assert (1.0 - u.slope) * x <= 0.0 by { NonnegTimesNonpos(1.0 - u.slope, x); }
    } else {
      assert (1.0 - u.slope) * x >= 0.0 by { NonnegTimesNonneg(1.0 - u.slope, x); }
    }
  }

  /** Forward scales with any positive factor. */
  lemma ForwardPositivelyHomogeneous(u: LeakyReLU, s: real, x: real)
    requires 0.0 < s
    ensures Forward(u, s * x) == s * Forward(u, x)
  {
    if x < 0.0 {
      assert s * x < 0.0 by { PositiveTimesNegative(s, x); }
      assert (s * x) * u.slope == s * (x * u.slope);
    } else {
      assert s * x >= 0.0 by { NonnegTimesNonneg(s, x); }
    }
  }

  /** The output of Forward is not positive exactly when its input is not, for a non-negative slope. */
  lemma OutputSignFollowsInput(u: LeakyReLU, x: real)
    requires 0.0 <= u.slope
    ensures Forward(u, x) <= 0.0 <==> x <= 0.0
  {
    if x < 0.0 {
      NonnegTimesNonpos(u.slope, x);
      assert x * u.slope == u.slope * x;
    }
  }

  /** The corrected rule is the chain rule: at the output of Forward, the input
      gradient is the output gradient times the derivative at the input. */
  lemma BackwardIsChainRule(u: LeakyReLU, gy: real, x: real)
    requires 0.0 <= u.slope
    ensures Backward(u, gy, Forward(u, x)) == gy * Derivative(u, x)
  {
    OutputSignFollowsInput(u, x);
  }

  /** The corrected rule is linear in the output gradient. */
  lemma BackwardLinear(u: LeakyReLU, s: real, gy: real, y: real)
    ensures Backward(u, s * gy, y) == s * Backward(u, gy, y)
  {
    if y <= 0.0 {
      assert (s * gy) * u.slope == s * (gy * u.slope);
    }
  }

  /** As written, the rule ignores the output gradient wherever the output is not
      positive, and returns zero at y = 0 whatever gradient arrives. */
  lemma BackwardAsWrittenIgnoresGradient(u: LeakyReLU, gy1: real, gy2: real, y: real)
    requires y <= 0.0
    ensures BackwardAsWritten(u, gy1, y) == BackwardAsWritten(u, gy2, y) == y * u.slope
    ensures y == 0.0 ==> BackwardAsWritten(u, gy1, y) == 0.0
  {
  }

  /** With the default slope, an output gradient of 1 at the input -5 (output -1)
      should come back as 0.2; the rule as written returns -0.2. */
  lemma BackwardAsWrittenBreaksChainRule()
    ensures var u := Standard();
      && Forward(u, -5.0) == -1.0
      && 1.0 * Derivative(u, -5.0) == 0.2
      && BackwardAsWritten(u, 1.0, Forward(u, -5.0)) == -0.2
      && Backward(u, 1.0, Forward(u, -5.0)) == 0.2
  {
  }

  lemma NonnegTimesNonneg(a: real, b: real)
    requires 0.0 <= a && 0.0 <= b
    ensures 0.0 <= a * b
  {
  }

  lemma NonnegTimesNonpos(a: real, b: real)
    requires 0.0 <= a && b <= 0.0
    ensures a * b <= 0.0
  {
    NonnegTimesNonneg(a, -b);
  }

  lemma PositiveTimesNegative(a: real, b: real)
    requires 0.0 < a && b < 0.0
    ensures a * b < 0.0
  {
    assert 0.0 < a * -b by { NonnegTimesNonneg(a, -b); assert a * -b != 0.0; }
  }
}
