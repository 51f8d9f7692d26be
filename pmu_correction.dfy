/**
 * Muon-momentum correction of the CC0pi selection (class PMuCorrection).
 *
 * The correction is a piecewise polynomial in the reconstructed momentum p
 * (GeV). Contained tracks use four pieces, the lowest of which also depends
 * on the muon-quality flag; uncontained tracks use four other pieces. Each
 * region function is an ordered if/else chain, first match wins, with a
 * final branch that aborts. Arithmetic is exact over `real`.
 */
module PMuCorrection {
  import Polynomial

  datatype Option<T> = None | Some(value: T)

  /** The momentum sub-ranges: R0..R3 for contained tracks, U0..U3 for uncontained ones. */
  datatype Region = R0 | R1 | R2 | R3 | U0 | U1 | U2 | U3 {
    predicate IsContained() { this in {R0, R1, R2, R3} }
  }

  /**
   * What a region function produces: a correction, or the aborting branch
   * reached when no guard of the chain holds.
   */
  datatype Outcome = Value(v: real) | OutOfRange

  /** Coefficients A, B, C of A + B*x + C*x^2. */
  datatype Quadratic = Quadratic(a: real, b: real, c: real)

  /** Coefficients A, B, C, D of A + B*x + C*x^2 + D*x^3. */
  datatype Cubic = Cubic(a: real, b: real, c: real, d: real)

  /** One complete set of fit parameters, named as the constants of the class. */
  datatype Fits = Fits(
    cR1: Quadratic, cR2: Quadratic, cR3: Cubic,
    uR1: Quadratic, uR2: Quadratic, uR3: Quadratic, uR4: Quadratic)

  /** The fit parameters the class is built with. */
  const PanosFits: Fits := Fits(
    Quadratic(0.59, -6.89, 20.63),
    Quadratic(0.03, -0.010, -0.014),
    Cubic(1.96, -3.35, 1.97, -0.41),
    Quadratic(0.18, -0.15, -0.02),
    Quadratic(-0.98, 1.63, -0.73),
    Quadratic(1.9, -1.34, 0.03),
    Quadratic(3.42119, -2.19198, 0.160376))

  /** poly2: the quadratic with ascending coefficients a, b, c. */
  function Poly2(x: real, a: real, b: real, c: real): (r: real)
    ensures r == Polynomial.Eval([a, b, c], x)
  {
    assert Polynomial.Eval([c], x) == c by { assert [c][1..] == []; }
    assert Polynomial.Eval([b, c], x) == b + x * c by { assert [b, c][1..] == [c]; }
    assert [a, b, c][1..] == [b, c];
    a + b * x + c * x * x
  }

  /** poly3: the cubic with ascending coefficients a, b, c, d. */
  function Poly3(x: real, a: real, b: real, c: real, d: real): (r: real)
    ensures r == Polynomial.Eval([a, b, c, d], x)
  {
    assert Polynomial.Eval([d], x) == d by { assert [d][1..] == []; }
    assert Polynomial.Eval([c, d], x) == c + x * d by { assert [c, d][1..] == [d]; }
    assert Polynomial.Eval([b, c, d], x) == b + x * (c + x * d) by { assert [b, c, d][1..] == [c, d]; }
    assert [a, b, c, d][1..] == [b, c, d];
    a + b * x + c * x * x + d * x * x * x
  }

  /**
   * Region chosen by corr_contained. The chain always selects a region:
   * over the reals its guards leave no gap, negative momenta included, so
   * the aborting branch is dead.
   */
  function RegionContained(p: real, muQuality: bool): (r: Option<Region>)
    ensures r.Some? && r.value.IsContained()
  {
    if p <= 0.2 && !muQuality then Some(R0)
    else if p <= 0.2 && muQuality then Some(R1)
    else if p > 0.2 && p < 1.5 then Some(R2)
    else if p >= 1.5 then Some(R3)
    else None
  }

  /**
   * Region chosen by corr_uncontained. As for contained tracks, some guard
   * always holds.
   */
  function RegionUncontained(p: real): (r: Option<Region>)
    ensures r.Some? && !r.value.IsContained()
  {
    if p <= 0.2 then Some(U0)
    else if p > 0.2 && p < 1.2 then Some(U1)
    else if p >= 1.2 && p < 2.2 then Some(U2)
    else if 2.2 <= p then Some(U3)
    else None
  }

  /** The coefficients, in ascending powers, of the polynomial a region evaluates. */
  function Coefficients(fits: Fits, r: Region): seq<real>
  {
    match r
    case R0 => []
    case R1 => [fits.cR1.a, fits.cR1.b, fits.cR1.c]
    case R2 => [fits.cR2.a, fits.cR2.b, fits.cR2.c]
    case R3 => [fits.cR3.a, fits.cR3.b, fits.cR3.c, fits.cR3.d]
    case U0 => []
    case U1 => [fits.uR1.a, fits.uR1.b, fits.uR1.c]
    case U2 => [fits.uR2.a, fits.uR2.b, fits.uR2.c]
    case U3 => [fits.uR3.a, fits.uR3.b, fits.uR3.c]
  }

  /**
   * The correction a region yields at momentum p: its fitted polynomial.
   * R0 and U0 are placeholder zeros.
   */
  function EvalRegion(fits: Fits, r: Region, p: real): (v: real)
    ensures v == Polynomial.Eval(Coefficients(fits, r), p)
    ensures r == R0 || r == U0 ==> v == 0.0
  {
    match r
    case R0 => 0.0
    case R1 => Poly2(p, fits.cR1.a, fits.cR1.b, fits.cR1.c)
    case R2 => Poly2(p, fits.cR2.a, fits.cR2.b, fits.cR2.c)
    case R3 => Poly3(p, fits.cR3.a, fits.cR3.b, fits.cR3.c, fits.cR3.d)
    case U0 => 0.0
    case U1 => Poly2(p, fits.uR1.a, fits.uR1.b, fits.uR1.c)
    case U2 => Poly2(p, fits.uR2.a, fits.uR2.b, fits.uR2.c)
    case U3 => Poly2(p, fits.uR3.a, fits.uR3.b, fits.uR3.c)
  }

  /** Evaluates the selected region; the aborting branch is taken exactly when no region was selected. */
  function EvalSelected(fits: Fits, sel: Option<Region>, p: real): (r: Outcome)
    ensures r == OutOfRange <==> sel == None
  {
    match sel
    case None => OutOfRange
    case Some(r) => Value(EvalRegion(fits, r, p))
  }

  /**
   * corr_contained, for any set of fit parameters. It never aborts; the
   * quality flag matters only at or below 0.2 GeV.
   */
  function CorrContainedWith(fits: Fits, p: real, muQuality: bool): (r: Outcome)
    ensures r.Value?
    ensures p <= 0.2 && !muQuality ==> r == Value(0.0)
    ensures p <= 0.2 && muQuality ==> r == Value(Polynomial.Eval(Coefficients(fits, R1), p))
    ensures 0.2 < p ==> r == Value(Polynomial.Eval(Coefficients(fits, if p < 1.5 then R2 else R3), p))
  {
    EvalSelected(fits, RegionContained(p, muQuality), p)
  }

  /** corr_uncontained, for any set of fit parameters. It never aborts. */
  function CorrUncontainedWith(fits: Fits, p: real): (r: Outcome)
    ensures r.Value?
    ensures p <= 0.2 ==> r == Value(0.0)
    ensures 0.2 < p ==> r == Value(Polynomial.Eval(
      Coefficients(fits, if p < 1.2 then U1 else if p < 2.2 then U2 else U3), p))
  {
    EvalSelected(fits, RegionUncontained(p), p)
  }

  /**
   * correct, for any set of fit parameters: the containment flag only picks
   * the region function, and neither aborting branch is ever reached.
   */
  function CorrectWith(fits: Fits, p: real, contained: bool, muQuality: bool): (r: Outcome)
    ensures r.Value?
  {
    if contained then CorrContainedWith(fits, p, muQuality) else CorrUncontainedWith(fits, p)
  }

  /**
   * correct with the class's own fit parameters, stated piece by piece as
   * literal polynomials. The aborting branch is never reached.
   */
  function Correct(p: real, contained: bool, muQuality: bool): (r: Outcome)
    ensures r != OutOfRange
    // contained tracks
    ensures contained && p <= 0.2 && !muQuality ==> r == Value(0.0)
    ensures contained && p <= 0.2 && muQuality ==> r == Value(0.59 - 6.89 * p + 20.63 * p * p)
    ensures contained && 0.2 < p < 1.5 ==> r == Value(0.03 - 0.010 * p - 0.014 * p * p)
    ensures contained && 1.5 <= p ==> r == Value(1.96 - 3.35 * p + 1.97 * p * p - 0.41 * p * p * p)
    // uncontained tracks
    ensures !contained && p <= 0.2 ==> r == Value(0.0)
    ensures !contained && 0.2 < p < 1.2 ==> r == Value(0.18 - 0.15 * p - 0.02 * p * p)
    ensures !contained && 1.2 <= p < 2.2 ==> r == Value(-0.98 + 1.63 * p - 0.73 * p * p)
    ensures !contained && 2.2 <= p ==> r == Value(1.9 - 1.34 * p + 0.03 * p * p)
  {
    CorrectWith(PanosFits, p, contained, muQuality)
  }

  /** Negative momenta are not rejected: they fall in the low-momentum pieces. */
  lemma NegativeMomentumIsLow(p: real, muQuality: bool)
    requires p < 0.0
    ensures RegionContained(p, muQuality) == Some(if muQuality then R1 else R0)
    ensures RegionUncontained(p) == Some(U0)
  {
  }

  /** For uncontained tracks the quality flag has no effect. */
  lemma UncontainedIgnoresQuality(fits: Fits, p: real, q1: bool, q2: bool)
    ensures CorrectWith(fits, p, false, q1) == CorrectWith(fits, p, false, q2)
  {
  }

  /** Above the lowest piece, the quality flag has no effect on contained tracks either. */
  lemma ContainedQualityOnlyBelowCut(fits: Fits, p: real)
    requires p > 0.2
    ensures CorrectWith(fits, p, true, false) == CorrectWith(fits, p, true, true)
  {
  }

  /** The uR4 coefficients are dead data: replacing them changes no output. */
  lemma UR4Unused(fits: Fits, other: Quadratic, p: real, contained: bool, muQuality: bool)
    ensures CorrectWith(fits.(uR4 := other), p, contained, muQuality)
         == CorrectWith(fits, p, contained, muQuality)
  {
  }

  /** Worked values at individual momenta (exact over the reals, not in double precision). */
  lemma Examples()
    ensures Correct(1.0, true, true) == Value(0.006)
    ensures Correct(2.0, true, false) == Value(-0.14)
    ensures Correct(0.1, false, false) == Value(0.0)
    ensures Correct(1.5, false, true) == Value(-0.1775)
    ensures Correct(-1.0, true, true) == Value(28.11)
  {
  }
}
