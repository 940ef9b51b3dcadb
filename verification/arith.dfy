/** Monotonicity of multiplication by a positive factor, the nonlinear steps the solver
    does not take unaided. */
module Arith {

  lemma MulMonotone(m: int, a: int, b: int)
    requires m > 0 && a <= b
    ensures m * a <= m * b
  {
  }

  lemma MulStrict(m: int, a: int, b: int)
    requires m > 0 && a < b
    ensures m * a < m * b
  {
  }

  lemma MulMonotoneStrict(m: int, a: int, b: int)
    requires m > 0 && m * a < m * b
    ensures a < b
  {
  }

  lemma RealMulMonotone(a: real, b: real, w: real)
    requires a <= b && w > 0.0
    ensures a * w <= b * w
  {
  }
}
