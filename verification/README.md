# Particle geometry and sphere drag, modelled in Dafny

This project models the closed-form core of the `fpi` fluid–particle
interaction library (Caleb Bell) over Dafny's exact `real` numbers:

- `fpi/geometry.py` holds the particle shape factors. These are sphericity,
  aspect ratio and circularity. It also holds the surface area and volume of
  solid cylinders, hollow cylinders and cylinders pierced by a list of
  `(diameter, count)` holes.
- `fpi/drag.py` holds drag coefficients of a smooth sphere as functions of
  the Reynolds number. The model covers Stokes' law, Engelund–Hansen,
  Morsi–Alexander's eight-range rational fit, and the range selection of the
  nine-range Clift correlation.

The files are:

- `arithmetic.dfy` (module `RealArithmetic`): squares, cubes and the sign
  facts about them that the formulas share.
- `geometry.dfy` (module `Geometry`): the formulas, and the two multi-hole
  loops written as left folds exactly as the Python `for` loops run. Each
  fold is tied to the closed-form sum `HoleSum` of per-entry contributions.
- `perforation.dfy` (module `Perforation`): what the hole list can and
  cannot do. It reduces to the solid and hollow cylinder, and order does not
  matter. The sum splits over concatenation. Count-zero entries are no-ops,
  and unit entries merge. Every bore of non-zero diameter, in a cylinder
  of positive length, strictly lowers the volume, with no lower bound.
  Bores wider than twice the length likewise take the surface below any
  bound, so both results can go negative.
- `piecewise.dfy` (module `Piecewise`): the meaning of an
  `if x < b0 … elif x < b1 … else` chain. With increasing thresholds,
  exactly one half-open range applies. `Locate` finds it, and it moves
  monotonically with `x`.
- `drag.dfy` (module `Drag`): the drag laws. Each range chain is tied to a
  table, so the chain provably evaluates the formula of the range containing
  `Re`. The model also proves agreement with Stokes' law at low `Re` and the
  tested values.

`pi` is the decimal `3.141592653589793`. No property depends on its value
beyond its being positive.

## Model

| member | source | states |
|---|---|---|
| `Geometry.Sphericity` | fpi/geometry.py:56 | for any real cube root, the cube of `psi·A` is `36·pi·V²`; that is, `psi·A` is the surface of the sphere of volume `V`; non-negative for `A > 0` |
| `Geometry.AspectRatio` | fpi/geometry.py:84 | the ratio times the largest dimension gives back the smallest |
| `Geometry.Circularity` | fpi/geometry.py:111 | circularity times the squared perimeter is `4·pi·A` |
| `Geometry.CylinderArea` | fpi/geometry.py:138-140 | the surface is non-negative for non-negative dimensions and positive once the diameter is positive |
| `Geometry.CylinderVolume` | fpi/geometry.py:167 | the volume is non-negative for non-negative length and positive for a non-zero diameter and positive length |
| `Geometry.HollowCylinderArea` | fpi/geometry.py:197-201 | the four-term surface factors as `pi(Do+Di)(L+(Do−Di)/2)`; it is non-negative when `0 ≤ Di ≤ Do` and `L ≥ 0` |
| `Geometry.HollowCylinderVolume` | fpi/geometry.py:230 | the tube volume is the outer solid less the bore solid; for `L > 0` it is negative exactly when `Di² > Do²` |
| `Geometry.AreaLoop` | fpi/geometry.py:268-271 | running the surface loop from any accumulator adds exactly the closed-form hole sum of the remaining entries |
| `Geometry.VolumeLoop` | fpi/geometry.py:304-305 | running the volume loop from any accumulator adds exactly the closed-form hole sum of the remaining entries |
| `Geometry.MultiHoleArea` | fpi/geometry.py:265-272 | the surface is the solid cylinder's plus the sum of `pi·Di·L − 2·pi·Di²/4` per hole, as the documented formula writes it; an empty list gives `A_cylinder` |
| `Geometry.MultiHoleVolume` | fpi/geometry.py:303-306 | the volume is the solid cylinder's less `n·V_cylinder(Di, L)` per entry; an empty list gives `V_cylinder` |
| `Geometry.AspectRatioScaleInvariant` | fpi/geometry.py:84 | scaling both dimensions by the same non-zero factor leaves the aspect ratio unchanged |
| `Geometry.CircleIsPerfectlyCircular` | fpi/geometry.py:111 | a circle of non-zero radius `r` (area `pi·r²`, perimeter `2·pi·r`) has circularity exactly 1 |
| `Geometry.DocumentedExamples` | tests/test_geometry.py:30-52 | the tested aspect ratio, circularity, cylinder, hollow and one-hole values, exactly over the reals, e.g. `A_cylinder(0.01, 0.1) = 0.00105·pi` |
| `Perforation.HoleSumAppend` | fpi/geometry.py:242-243 | the hole sum of `a + b` is the sum for `a` plus the sum for `b` |
| `Perforation.HoleSumPermutation` | fpi/geometry.py:268-271 | two hole lists with the same multiset of entries have the same sum |
| `Perforation.RepeatedUnitHoles` | fpi/geometry.py:268-271 | `k` entries `(Di, 1)` contribute exactly what one entry `(Di, k)` does |
| `Perforation.SingleHoleIsHollow` | fpi/geometry.py:262-271 | the one-hole list `[(Di, 1)]` gives exactly `A_hollow_cylinder` and `V_hollow_cylinder` |
| `Perforation.HoleOrderIrrelevant` | fpi/geometry.py:268-271 | reordering the hole list changes neither the surface nor the volume |
| `Perforation.HolesSplit` | fpi/geometry.py:242-243 | the result for `a + b` is the result for `a` plus the contributions of `b`, for both surface and volume |
| `Perforation.ZeroCountIgnored` | fpi/geometry.py:268-271 | an entry with count 0, anywhere in the list, changes neither result |
| `Perforation.ZeroCountAddsNothing` | fpi/geometry.py:268-271 | for either measure, an entry with count 0 anywhere in the list leaves the hole sum unchanged |
| `Perforation.UnitHolesMerge` | fpi/geometry.py:268-271 | appending `k` entries `(Di, 1)` gives the same results as appending one entry `(Di, k)` |
| `Perforation.HoleLowersVolume` | fpi/geometry.py:304-305 | inserting an entry with `Di ≠ 0`, `n > 0` anywhere strictly lowers the volume when `L > 0` |
| `Perforation.VolumeUnboundedBelow` | fpi/geometry.py:275-278 | for `Di ≠ 0` and `L > 0`, some count of holes takes the volume below any given bound, so it goes negative |
| `Perforation.AreaUnboundedBelow` | fpi/geometry.py:234-237 | for `L ≥ 0` and `Di > 2L`, some count of holes takes the surface below any given bound, so it goes negative |
| `Perforation.WideBoreNegativeVolume` | fpi/geometry.py:230 | a bore wider than a non-negative outside diameter gives a negative hollow volume when `L > 0` |
| `Perforation.CylinderIsHollowWithoutBore` | fpi/geometry.py:197-201 | a bore of diameter 0 gives back the solid cylinder's surface and volume |
| `Piecewise.Locate` | fpi/drag.py:324-339 | the branch a threshold chain takes is one whose half-open range contains `x` |
| `Piecewise.IntervalUnique` | fpi/drag.py:324-339 | with increasing thresholds no two ranges contain the same `x` |
| `Piecewise.LocateExact` | fpi/drag.py:324-339 | with increasing thresholds the chain takes branch `k` exactly when range `k` contains `x` |
| `Piecewise.LocateMonotone` | fpi/drag.py:765-782 | a larger `x` never selects an earlier branch |
| `Drag.Stokes` | fpi/drag.py:57 | `Cd·Re = 24`, and `Cd` is positive for positive `Re` |
| `Drag.EngelundHansen` | fpi/drag.py:233 | the coefficient is Stokes' law plus 1.5, that is, `(Cd − 1.5)·Re = 24` |
| `Drag.MorsiAlexander` | fpi/drag.py:324-339 | below `Re = 0.1` it is Stokes' law; every `Re ≥ 10000` uses the last coefficient set, with no upper cutoff |
| `Drag.MorsiAlexanderBoundsIncreasing` | fpi/drag.py:324-338 | the thresholds 0.1 < 1 < 10 < 100 < 1000 < 5000 < 10000 increase |
| `Drag.MorsiAlexanderFollowsTable` | fpi/drag.py:324-339 | the range containing `Re` is exactly the one the chain selects, and the chain evaluates that range's `k1/Re + k2/Re² + k3` |
| `Drag.MorsiAlexanderExamples` | tests/test_drag.py:51-52 | the tested values, exactly over the reals, and the documented `Morsi_Alexander(200) = 0.7866` |
| `Drag.Clift` | fpi/drag.py:765-782 | below `Re = 0.01` it is Stokes' law plus 3/16; every `Re ≥ 400000` uses `0.19·log10(Re) − 0.49`, with no upper cutoff |
| `Drag.CliftBoundsIncreasing` | fpi/drag.py:765-779 | the thresholds 0.01 < 20 < 260 < 1500 < 12000 < 44000 < 338000 < 400000 increase |
| `Drag.CliftFollowsRanges` | fpi/drag.py:765-782 | for every choice of `log10` and `**`, the chain evaluates exactly the formula of the one range containing `Re` |
| `Drag.CliftExample` | tests/test_drag.py:91-92 | `Clift(0.002) = 12000.1875`, whatever `log10` and `**` are |
| `Drag.StokesExample` | tests/test_drag.py:27-28 | `Stokes(0.1) = 240` |
| `Drag.EngelundHansenExamples` | tests/test_drag.py:43-45 | `Engelund_Hansen(200) = 1.62` and `Engelund_Hansen(0.002) = 12001.5` |

## Left out

- Floating point: every formula is evaluated over exact reals. Rounding is
  not modelled. Tested values are compared with the exact decimals, e.g.
  `49.5112` for the float `49.511199999999995`.
- Division by zero: Python raises `ZeroDivisionError`. The model excludes a
  zero denominator by a precondition instead. Those denominators are `Re` in
  the drag laws, `Dmax` in `aspect_ratio`, `P` in `circularity` and `A` in
  `sphericity`.
- Geometry.Sphericity: `pi**(1/3)` and `(6V)**(2/3)` are taken through a
  cube-root function passed in as a parameter, which must be a real cube
  root. Negative volumes are excluded, since Python gives a complex number
  there. The contract characterises the cube of the result rather than a
  numeric value, so the tested `0.767663317071005` is not stated.
- Drag.Clift: `log10` and `**` are parameters with no assumed properties. So
  only the range selection and the transcendental-free first range are
  proved. The other tested values need real logarithms and are not stated.
- Perforation.WideBoreNegativeVolume: requires `0 ≤ Do`, because with a
  negative outside diameter a larger `Di` need not give a larger `Di²`. The
  exact condition, `Di² > Do²`, is the contract of
  `Geometry.HollowCylinderVolume`.
- Hole entries: counts are natural numbers. Python would also accept a
  negative or fractional `n`.
- The other correlations in `fpi/drag.py` are not part of this model.
  They are Barati, Barati_high, Rouse, Clift–Gauvin, Graf, Flemmer–Banks,
  Khan–Richardson, Swamee–Ojha, Yen, Haider–Levenspiel, Cheng, Terfous,
  Ceylan, Almedeij and Morrison. They are built from `exp`, `tanh`,
  logarithms and fractional powers, which have no exact real meaning here.
- Mikhailov–Freire (fpi/drag.py:715-716) is not part of this model either.
  It is a single ratio of two polynomials in `Re` with no branches, so
  there is nothing to state about it beyond its own formula.
- The unused `scipy` imports, `setup.py` and the saltation tests are not
  part of this model.

## Documentation and code

The model follows the code where the docstrings say otherwise:

- The docstring of `Clift` gives `9.78 − 5.3·log10(Re)` for
  `338000 < Re < 400000`. The code computes `29.78 − 5.3·log10(Re)`
  (fpi/drag.py:780), which is what is modelled. This is a typo in the
  docstring, not in the code. With `9.78` the coefficient would be
  negative across that range, between about −19.5 and −19.9.
- The `Morsi_Alexander` docstring uses open ranges and stops at
  `Re = 50000`. The code uses half-open ranges `[b(k−1), b(k))`, so a
  boundary value such as `Re = 1` takes the higher range, and it has no
  upper cutoff. Both points are modelled as coded.
- The docstring of `A_multiple_hole_cylinder` (fpi/geometry.py:238-239)
  describes the holes as perpendicular to the axis. The formulas count each hole as a bore along the whole length `L`,
  which is what is modelled.
