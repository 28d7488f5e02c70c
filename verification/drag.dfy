/** Drag coefficients of a smooth sphere as functions of the particle
    Reynolds number `Re`: the Stokes law, the Engelund-Hansen correction, the
    eight-range rational fit of Morsi and Alexander, and the nine-range fit of
    Clift, Grace and Weber. Python's `ZeroDivisionError` on `Re == 0` is
    excluded by a precondition. */
module Drag {
  import opened Piecewise
  import opened RealArithmetic

  // ---------------------------------------------------------------------------
  // Stokes and Engelund-Hansen
  // ---------------------------------------------------------------------------

  /** Stokes' law, `24/Re`: the drag coefficient is inversely proportional
      to the Reynolds number. */
  function Stokes(Re: real): (Cd: real)
    requires Re != 0.0
    ensures Cd * Re == 24.0
    ensures Re > 0.0 ==> Cd > 0.0
  {
    24.0 / Re
  }

  /** Engelund and Hansen add a constant form drag of 1.5 to Stokes' law. */
  function EngelundHansen(Re: real): (Cd: real)
    requires Re != 0.0
    ensures (Cd - 1.5) * Re == 24.0
    ensures Cd == Stokes(Re) + 1.5
  {
    24.0 / Re + 1.5
  }

  // ---------------------------------------------------------------------------
  // Morsi and Alexander
  // ---------------------------------------------------------------------------

  /** The coefficients of one range of a fit `k1/Re + k2/Re**2 + k3`. */
  datatype Coefficients = Coefficients(k1: real, k2: real, k3: real)

  /** The value of a rational fit at `Re`. */
  function Rational(c: Coefficients, Re: real): real
    requires Re != 0.0
  {
    SqNonZero(Re);
    c.k1 / Re + c.k2 / Sq(Re) + c.k3
  }

  /** The upper ends of the first seven ranges of the Morsi-Alexander fit;
      the last range has no upper end. */
  const MorsiAlexanderBounds: seq<real> := [0.1, 1.0, 10.0, 100.0, 1000.0, 5000.0, 10000.0]

  /** The coefficients of the eight ranges, in order. The first range is
      Stokes' law. */
  const MorsiAlexanderTable: seq<Coefficients> := [
    Coefficients(24.0, 0.0, 0.0),
    Coefficients(22.73, 0.0903, 3.69),
    Coefficients(29.1667, -3.8889, 1.222),
    Coefficients(46.5, -116.67, 0.6167),
    Coefficients(98.33, -2778.0, 0.3644),
    Coefficients(148.62, -47500.0, 0.357),
    Coefficients(-490.546, 578700.0, 0.46),
    Coefficients(-1662.5, 5416700.0, 0.5191)
  ]

  /** The Morsi-Alexander correlation as the chain of range tests. */
  function MorsiAlexander(Re: real): (Cd: real)
    requires Re != 0.0
    ensures Re < 0.1 ==> Cd == Stokes(Re)
    ensures Re >= 10000.0 ==> Cd == Rational(MorsiAlexanderTable[7], Re)
  {
    SqNonZero(Re);
    if Re < 0.1 then 24.0 / Re
    else if Re < 1.0 then 22.73 / Re + 0.0903 / Sq(Re) + 3.69
    else if Re < 10.0 then 29.1667 / Re - 3.8889 / Sq(Re) + 1.222
    else if Re < 100.0 then 46.5 / Re - 116.67 / Sq(Re) + 0.6167
    else if Re < 1000.0 then 98.33 / Re - 2778.0 / Sq(Re) + 0.3644
    else if Re < 5000.0 then 148.62 / Re - 47500.0 / Sq(Re) + 0.357
    else if Re < 10000.0 then -490.546 / Re + 578700.0 / Sq(Re) + 0.46
    else -1662.5 / Re + 5416700.0 / Sq(Re) + 0.5191
  }

  /** The range thresholds are tested in increasing order. */
  lemma MorsiAlexanderBoundsIncreasing()
    ensures Increasing(MorsiAlexanderBounds)
  {
  }

  /** Whatever range contains `Re`, the chain evaluates that range's
      coefficients; since the ranges do not overlap, exactly one applies. */
  lemma MorsiAlexanderFollowsTable(Re: real, k: nat)
    requires Re != 0.0
    ensures InInterval(MorsiAlexanderBounds, k, Re) <==> Locate(MorsiAlexanderBounds, Re) == k
    ensures InInterval(MorsiAlexanderBounds, k, Re) ==>
              k < |MorsiAlexanderTable| && MorsiAlexander(Re) == Rational(MorsiAlexanderTable[k], Re)
  {
  }

  /** The values the correlation is known to produce, exactly over the reals
      (the last two stand for the floating-point results 0.4048818666666667
      and 0.50301667). */
  lemma MorsiAlexanderExamples()
    ensures MorsiAlexander(0.002) == 12000.0
    ensures MorsiAlexander(0.5) == 49.5112
    ensures MorsiAlexander(5.0) == 6.899784
    ensures MorsiAlexander(50.0) == 1.500032
    ensures MorsiAlexander(200.0) == 0.7866
    ensures MorsiAlexander(500.0) == 0.549948
    ensures MorsiAlexander(2500.0) == 0.408848
    ensures MorsiAlexander(7500.0) == 1518307.0 / 3750000.0
    ensures MorsiAlexander(100000.0) == 0.50301667
  {
  }

  // ---------------------------------------------------------------------------
  // Clift, Grace and Weber
  // ---------------------------------------------------------------------------

  /** The elementary functions the Clift correlation evaluates: the common
      logarithm and the real power `pow(x, y) = x**y`. They are inputs of the
      model; no property of them is assumed. */
  datatype Elementary = Elementary(log10: real -> real, pow: (real, real) -> real)

  /** The upper ends of the first eight ranges of the Clift correlation. */
  const CliftBounds: seq<real> := [0.01, 20.0, 260.0, 1500.0, 12000.0, 44000.0, 338000.0, 400000.0]

  /** The formula of range `k` of the Clift correlation, with `lg` the common
      logarithm of `Re`. */
  function CliftRange(k: nat, Re: real, e: Elementary): real
    requires Re != 0.0 && k <= 8
  {
    var lg := e.log10(Re);
    match k
    case 0 => Stokes(Re) + 3.0 / 16.0
    case 1 => Stokes(Re) * (1.0 + 0.1315 * e.pow(Re, 0.82 - 0.05 * lg))
    case 2 => Stokes(Re) * (1.0 + 0.1935 * e.pow(Re, 0.6305))
    case 3 => e.pow(10.0, 1.6435 - 1.1242 * lg + 0.1558 * Sq(lg))
    case 4 => e.pow(10.0, -2.4571 + 2.5558 * lg - 0.9295 * Sq(lg) + 0.1049 * Cube(lg))
    case 5 => e.pow(10.0, -1.9181 + 0.6370 * lg - 0.0636 * Sq(lg))
    case 6 => e.pow(10.0, -4.3390 + 1.5809 * lg - 0.1546 * Sq(lg))
    case 7 => 29.78 - 5.3 * lg
    case 8 => 0.19 * lg - 0.49
  }

  /** The Clift correlation as the chain of range tests. */
  function Clift(Re: real, e: Elementary): (Cd: real)
    requires Re != 0.0
    ensures Re < 0.01 ==> Cd == Stokes(Re) + 3.0 / 16.0
    ensures Re >= 400000.0 ==> Cd == 0.19 * e.log10(Re) - 0.49
  {
    if Re < 0.01 then
      24.0 / Re + 3.0 / 16.0
    else if Re < 20.0 then
      24.0 / Re * (1.0 + 0.1315 * e.pow(Re, 0.82 - 0.05 * e.log10(Re)))
    else if Re < 260.0 then
      24.0 / Re * (1.0 + 0.1935 * e.pow(Re, 0.6305))
    else if Re < 1500.0 then
      e.pow(10.0, 1.6435 - 1.1242 * e.log10(Re) + 0.1558 * Sq(e.log10(Re)))
    else if Re < 12000.0 then
      e.pow(10.0, -2.4571 + 2.5558 * e.log10(Re) - 0.9295 * Sq(e.log10(Re)) + 0.1049 * Cube(e.log10(Re)))
    else if Re < 44000.0 then
      e.pow(10.0, -1.9181 + 0.6370 * e.log10(Re) - 0.0636 * Sq(e.log10(Re)))
    else if Re < 338000.0 then
      e.pow(10.0, -4.3390 + 1.5809 * e.log10(Re) - 0.1546 * Sq(e.log10(Re)))
    else if Re < 400000.0 then
      29.78 - 5.3 * e.log10(Re)
    else
      0.19 * e.log10(Re) - 0.49
  }

  /** The range thresholds are tested in increasing order. */
  lemma CliftBoundsIncreasing()
    ensures Increasing(CliftBounds)
  {
  }

  /** Whatever range contains `Re`, the chain evaluates that range's formula,
      whatever the elementary functions are; exactly one range applies. */
  lemma CliftFollowsRanges(Re: real, e: Elementary, k: nat)
    requires Re != 0.0
    ensures InInterval(CliftBounds, k, Re) <==> Locate(CliftBounds, Re) == k
    ensures InInterval(CliftBounds, k, Re) ==> k <= 8 && Clift(Re, e) == CliftRange(k, Re, e)
  {
  }

  /** The one tested value that does not depend on the elementary
      functions. */
  lemma CliftExample(e: Elementary)
    ensures Clift(0.002, e) == 12000.1875
  {
  }

  /** The documented and tested value of Stokes' law. */
  lemma StokesExample()
    ensures Stokes(0.1) == 240.0
  {
  }

  /** The documented and tested values of the Engelund-Hansen law. */
  lemma EngelundHansenExamples()
    ensures EngelundHansen(200.0) == 1.62
    ensures EngelundHansen(0.002) == 12001.5
  {
  }
}
