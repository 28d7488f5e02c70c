/** Shape characterisation of particles and cylinders: sphericity, aspect
    ratio, circularity, and the surface area and volume of solid, hollow and
    multi-hole cylinders. Every formula is evaluated over the reals; nothing
    checks that the inputs describe a physically possible body. */
module Geometry {
  import opened RealArithmetic

  /** The double closest to pi, written as Python's `math.pi` prints it. */
  const Pi: real := 3.141592653589793

  // ---------------------------------------------------------------------------
  // Shape factors
  // ---------------------------------------------------------------------------

  /** `cbrt` returns a real cube root of every real. */
  ghost predicate IsCubeRoot(cbrt: real -> real) {
    forall x :: Cube(cbrt(x)) == x
  }

  /** Sphericity, `pi**(1/3) * (6V)**(2/3) / A`: the surface of the sphere
      that has the particle's volume over the particle's own surface. The
      fractional powers are taken through the cube root `cbrt`. */
  function Sphericity(A: real, V: real, cbrt: real -> real): (psi: real)
    requires A != 0.0 && V >= 0.0
    requires IsCubeRoot(cbrt)
    ensures Cube(psi * A) == 36.0 * Pi * Sq(V)
    ensures A > 0.0 ==> psi >= 0.0
  {
    var p, s := cbrt(Pi), cbrt(6.0 * V);
    SphericityCubed(p, s, V, A);
    CubeRootPositive(Pi, p);
    p * Sq(s) / A
  }

  /** Aspect ratio: the smallest dimension over the largest. */
  function AspectRatio(Dmin: real, Dmax: real): (r: real)
    requires Dmax != 0.0
    ensures r * Dmax == Dmin
  {
    Dmin / Dmax
  }

  /** Circularity, `4*pi*A / P**2`. */
  function Circularity(A: real, P: real): (f: real)
    requires P != 0.0
    ensures f * Sq(P) == 4.0 * Pi * A
  {
    SqPositive(P);
    4.0 * Pi * A / Sq(P)
  }

  // ---------------------------------------------------------------------------
  // Solid and hollow cylinders
  // ---------------------------------------------------------------------------

  /** Surface of a solid cylinder: two end faces plus the lateral surface. */
  function CylinderArea(D: real, L: real): (a: real)
    ensures D >= 0.0 && L >= 0.0 ==> a >= 0.0
    ensures D > 0.0 && L >= 0.0 ==> a > 0.0
  {
    SqPositive(D);
    var cap := Pi * Sq(D) / 4.0 * 2.0;
    var side := Pi * D * L;
    cap + side
  }

  /** Volume of a solid cylinder. */
  function CylinderVolume(D: real, L: real): (v: real)
    ensures L >= 0.0 ==> v >= 0.0
    ensures D != 0.0 && L > 0.0 ==> v > 0.0
  {
    SqPositive(D);
    Pi * Sq(D) / 4.0 * L
  }

  /** Surface of a tube with bore `Di` and outside `Do`: outer and inner
      lateral surfaces plus the two annular end faces. Nothing requires
      `Di < Do`. */
  function HollowCylinderArea(Di: real, Do: real, L: real): (a: real)
    ensures a == Pi * (Do + Di) * (L + (Do - Di) / 2.0)
    ensures 0.0 <= Di <= Do && L >= 0.0 ==> a >= 0.0
  {
    var sideO := Pi * Do * L;
    var sideI := Pi * Di * L;
    var capCircle := Pi * Sq(Do) / 4.0 * 2.0;
    var capRemoved := Pi * Sq(Di) / 4.0 * 2.0;
    var a := sideO + sideI + capCircle - capRemoved;
    assert a == Pi * (Do + Di) * (L + (Do - Di) / 2.0);
    if 0.0 <= Di <= Do && L >= 0.0 then
      SignOfProduct(Pi, Do + Di);
      SignOfProduct(Pi * (Do + Di), L + (Do - Di) / 2.0);
      a
    else
      a
  }

  /** Volume of a tube: the outer solid less the bore. A bore wider than the
      outside gives a negative volume. */
  function HollowCylinderVolume(Di: real, Do: real, L: real): (v: real)
    ensures v == CylinderVolume(Do, L) - CylinderVolume(Di, L)
    ensures L > 0.0 ==> (v < 0.0 <==> Sq(Di) > Sq(Do))
  {
    var v := Pi * Sq(Do) / 4.0 * L - Pi * Sq(Di) / 4.0 * L;
    assert v == (Pi / 4.0 * L) * (Sq(Do) - Sq(Di));
    if L > 0.0 then
      SignOfProduct(Pi / 4.0 * L, Sq(Do) - Sq(Di));
      v
    else
      v
  }

  // ---------------------------------------------------------------------------
  // Multi-hole cylinders
  // ---------------------------------------------------------------------------

  /** `count` identical through-holes of diameter `diameter`, parallel to the
      cylinder's axis. */
  datatype Hole = Hole(diameter: real, count: nat)

  /** The two quantities a hole list changes. */
  datatype Measure = SurfaceArea | Volume

  /** The signed change one hole entry makes to a measure: for the surface,
      `count` bore walls gained and `count` pairs of openings cut from the
      end faces; for the volume, `count` bores removed. */
  function PerHole(m: Measure, h: Hole, L: real): real {
    match m
    case SurfaceArea => h.count as real * (Pi * h.diameter * L - Pi * Sq(h.diameter) / 2.0)
    case Volume => -(h.count as real * CylinderVolume(h.diameter, L))
  }

  /** The summed change of a hole list, as the closed formula writes it. */
  function HoleSum(m: Measure, L: real, holes: seq<Hole>): real {
    if holes == [] then 0.0 else PerHole(m, holes[0], L) + HoleSum(m, L, holes[1..])
  }

  /** The surface accumulation loop, continued from accumulator `A`. */
  function AreaLoop(A: real, L: real, holes: seq<Hole>): (r: real)
    decreases |holes|
    ensures r == A + HoleSum(SurfaceArea, L, holes)
  {
    if holes == [] then A
    else
      var Di, n := holes[0].diameter, holes[0].count as real;
      var sideI := Pi * Di * L;
      var capRemoved := Pi * Sq(Di) / 4.0 * 2.0;
      AreaLoop(A + sideI * n - capRemoved * n, L, holes[1..])
  }

  /** The volume accumulation loop, continued from accumulator `V`. */
  function VolumeLoop(V: real, L: real, holes: seq<Hole>): (r: real)
    decreases |holes|
    ensures r == V + HoleSum(Volume, L, holes)
  {
    if holes == [] then V
    else
      var Di, n := holes[0].diameter, holes[0].count as real;
      VolumeLoop(V - Pi * Sq(Di) / 4.0 * L * n, L, holes[1..])
  }

  /** Surface of a cylinder of outside diameter `Do` perforated by `holes`. */
  function MultiHoleArea(Do: real, L: real, holes: seq<Hole>): (a: real)
    ensures a == CylinderArea(Do, L) + HoleSum(SurfaceArea, L, holes)
    ensures holes == [] ==> a == CylinderArea(Do, L)
  {
    var sideO := Pi * Do * L;
    var capCircle := Pi * Sq(Do) / 4.0 * 2.0;
    AreaLoop(capCircle + sideO, L, holes)
  }

  /** Solid volume of a cylinder of outside diameter `Do` perforated by
      `holes`. */
  function MultiHoleVolume(Do: real, L: real, holes: seq<Hole>): (v: real)
    ensures v == CylinderVolume(Do, L) + HoleSum(Volume, L, holes)
    ensures holes == [] ==> v == CylinderVolume(Do, L)
  {
    VolumeLoop(Pi * Sq(Do) / 4.0 * L, L, holes)
  }

  // ---------------------------------------------------------------------------
  // Shape-factor properties and the documented examples
  // ---------------------------------------------------------------------------

  /** The aspect ratio depends only on the proportions: scaling both
      dimensions by the same non-zero factor leaves it unchanged. */
  lemma AspectRatioScaleInvariant(k: real, Dmin: real, Dmax: real)
    requires k != 0.0 && Dmax != 0.0
    ensures k * Dmax != 0.0
    ensures AspectRatio(k * Dmin, k * Dmax) == AspectRatio(Dmin, Dmax)
  {
  }

  /** A circle of radius `r` has circularity exactly one. */
  lemma CircleIsPerfectlyCircular(r: real)
    requires r != 0.0
    ensures 2.0 * Pi * r != 0.0
    ensures Circularity(Pi * Sq(r), 2.0 * Pi * r) == 1.0
  {
    SqNonZero(r);
    var x := 4.0 * Pi * Pi * Sq(r);
    assert Sq(2.0 * Pi * r) == x;
    assert Circularity(Pi * Sq(r), 2.0 * Pi * r) == x / x;
    DivSelf(x);
  }

  /** The documented examples, stated exactly over the reals. */
  lemma DocumentedExamples()
    ensures AspectRatio(0.2, 2.0) == 0.1
    ensures Circularity(1.5, 0.1) == 600.0 * Pi
    ensures CylinderArea(0.01, 0.1) == 0.00105 * Pi
    ensures CylinderVolume(0.01, 0.1) == 0.0000025 * Pi
    ensures HollowCylinderArea(0.005, 0.01, 0.1) == 0.0015375 * Pi
    ensures HollowCylinderVolume(0.005, 0.01, 0.1) == 0.000001875 * Pi
    ensures MultiHoleArea(0.01, 0.1, [Hole(0.005, 1)]) == 0.0015375 * Pi
    ensures MultiHoleVolume(0.01, 0.1, [Hole(0.005, 1)]) == 0.000001875 * Pi
  {
  }

  // ---------------------------------------------------------------------------
  // Sphericity helpers
  // ---------------------------------------------------------------------------

  /** Cubing the sphericity formula removes the cube roots. */
  lemma SphericityCubed(p: real, s: real, V: real, A: real)
    requires Cube(p) == Pi && Cube(s) == 6.0 * V && A != 0.0
    ensures Cube(p * Sq(s) / A * A) == 36.0 * Pi * Sq(V)
  {
  }

  /** The cube root of a positive number is positive. */
  lemma CubeRootPositive(x: real, c: real)
    requires x > 0.0 && Cube(c) == x
    ensures c > 0.0
  {
  }
}
