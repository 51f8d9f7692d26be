/**
 * Polynomials over the reals, given by their coefficients in ascending
 * powers of x. Eval is the reference meaning of the two fixed-degree
 * evaluators of the correction (PMuCorrection.Poly2 and PMuCorrection.Poly3).
 */
module Polynomial {

  /** Value at x of cs[0] + cs[1]*x + cs[2]*x^2 + ..., by Horner's rule. */
  function Eval(cs: seq<real>, x: real): real
    decreases |cs|
  {
    if |cs| == 0 then 0.0 else cs[0] + x * Eval(cs[1..], x)
  }
}
