/** Properties of the multi-hole cylinder: the perforated surface and volume
    are the solid cylinder's plus one independent contribution per hole
    entry, so the list behaves like a multiset of entries, and nothing stops
    the holes from removing more than the cylinder holds. */
module Perforation {
  import opened RealArithmetic
  import opened Geometry

  // ---------------------------------------------------------------------------
  // The hole sum as a sum over a multiset
  // ---------------------------------------------------------------------------

  /** The hole sum of a concatenation is the sum of the two parts. */
  lemma {:induction false} HoleSumAppend(m: Measure, L: real, a: seq<Hole>, b: seq<Hole>)
    ensures HoleSum(m, L, a + b) == HoleSum(m, L, a) + HoleSum(m, L, b)
  {
    if a == [] {
      assert a + b == b;
    } else {
      assert (a + b)[1..] == a[1..] + b;
      HoleSumAppend(m, L, a[1..], b);
    }
  }

  /** Lists holding the same entries, in any order, have the same sum. */
  lemma {:induction false} HoleSumPermutation(m: Measure, L: real, a: seq<Hole>, b: seq<Hole>)
    requires multiset(a) == multiset(b)
    ensures HoleSum(m, L, a) == HoleSum(m, L, b)
  {
    if a == [] {
      assert |b| == |multiset(b)| == 0;
    } else {
      assert a[0] in multiset(b);
      var i :| 0 <= i < |b| && b[i] == a[0];
      RemoveMatching(a, b, i);
      HoleSumPermutation(m, L, a[1..], b[..i] + b[i + 1..]);
      HoleSumRemoveAt(m, L, b, i);
    }
  }

  /** Taking the first element of `a` and its match in `b` out of both
      keeps their multisets equal. */
  lemma RemoveMatching<T>(a: seq<T>, b: seq<T>, i: nat)
    requires multiset(a) == multiset(b) && |a| > 0 && i < |b| && b[i] == a[0]
    ensures multiset(a[1..]) == multiset(b[..i] + b[i + 1..])
  {
    assert a == [a[0]] + a[1..];
    assert b == b[..i] + [b[i]] + b[i + 1..];
    assert multiset(a[1..]) == multiset(a) - multiset([a[0]]);
    assert multiset(b[..i] + b[i + 1..]) == multiset(b) - multiset([b[i]]);
  }

  /** The sum of `b` splits into the contribution of entry `i` and the sum of
      the other entries. */
  lemma HoleSumRemoveAt(m: Measure, L: real, b: seq<Hole>, i: nat)
    requires i < |b|
    ensures HoleSum(m, L, b) == PerHole(m, b[i], L) + HoleSum(m, L, b[..i] + b[i + 1..])
  {
    assert b == b[..i] + [b[i]] + b[i + 1..];
    HoleSumAppend(m, L, b[..i], b[i + 1..]);
    HoleSumAppend(m, L, b[..i] + [b[i]], b[i + 1..]);
    HoleSumAppend(m, L, b[..i], [b[i]]);
  }

  /** A one-entry list sums to that entry's contribution. */
  lemma HoleSumSingle(m: Measure, L: real, h: Hole)
    ensures HoleSum(m, L, [h]) == PerHole(m, h, L)
  {
    assert [h][1..] == [];
  }

  /** `k` copies of the same entry. */
  function Repeat(h: Hole, k: nat): (s: seq<Hole>)
    ensures |s| == k
    ensures forall i :: 0 <= i < k ==> s[i] == h
  {
    if k == 0 then [] else [h] + Repeat(h, k - 1)
  }

  /** `k` single holes of one diameter contribute what one entry of count
      `k` does. */
  lemma {:induction false} RepeatedUnitHoles(m: Measure, L: real, Di: real, k: nat)
    ensures HoleSum(m, L, Repeat(Hole(Di, 1), k)) == PerHole(m, Hole(Di, k), L)
  {
    if k > 0 {
      RepeatedUnitHoles(m, L, Di, k - 1);
    }
  }

  // ---------------------------------------------------------------------------
  // The properties of the two multi-hole functions
  // ---------------------------------------------------------------------------

  /** A single bore turns the multi-hole formulas into the hollow-cylinder
      ones. */
  lemma SingleHoleIsHollow(Di: real, Do: real, L: real)
    ensures MultiHoleArea(Do, L, [Hole(Di, 1)]) == HollowCylinderArea(Di, Do, L)
    ensures MultiHoleVolume(Do, L, [Hole(Di, 1)]) == HollowCylinderVolume(Di, Do, L)
  {
    HoleSumSingle(SurfaceArea, L, Hole(Di, 1));
    HoleSumSingle(Volume, L, Hole(Di, 1));
  }

  /** The holes can be listed in any order. */
  lemma HoleOrderIrrelevant(Do: real, L: real, a: seq<Hole>, b: seq<Hole>)
    requires multiset(a) == multiset(b)
    ensures MultiHoleArea(Do, L, a) == MultiHoleArea(Do, L, b)
    ensures MultiHoleVolume(Do, L, a) == MultiHoleVolume(Do, L, b)
  {
    HoleSumPermutation(SurfaceArea, L, a, b);
    HoleSumPermutation(Volume, L, a, b);
  }

  /** Perforating with `a + b` is perforating with `a` and then adding the
      contributions of `b`. */
  lemma HolesSplit(Do: real, L: real, a: seq<Hole>, b: seq<Hole>)
    ensures MultiHoleArea(Do, L, a + b) == MultiHoleArea(Do, L, a) + HoleSum(SurfaceArea, L, b)
    ensures MultiHoleVolume(Do, L, a + b) == MultiHoleVolume(Do, L, a) + HoleSum(Volume, L, b)
  {
    HoleSumAppend(SurfaceArea, L, a, b);
    HoleSumAppend(Volume, L, a, b);
  }

  /** An entry with count zero changes nothing, wherever it stands. */
  lemma ZeroCountIgnored(Do: real, L: real, a: seq<Hole>, Di: real, b: seq<Hole>)
    ensures MultiHoleArea(Do, L, a + [Hole(Di, 0)] + b) == MultiHoleArea(Do, L, a + b)
    ensures MultiHoleVolume(Do, L, a + [Hole(Di, 0)] + b) == MultiHoleVolume(Do, L, a + b)
  {
    ZeroCountAddsNothing(SurfaceArea, L, a, Di, b);
    ZeroCountAddsNothing(Volume, L, a, Di, b);
  }

  /** The same at the level of the hole sum, for either measure. */
  lemma ZeroCountAddsNothing(m: Measure, L: real, a: seq<Hole>, Di: real, b: seq<Hole>)
    ensures HoleSum(m, L, a + [Hole(Di, 0)] + b) == HoleSum(m, L, a + b)
  {
    HoleSumAppend(m, L, a + [Hole(Di, 0)], b);
    HoleSumAppend(m, L, a, [Hole(Di, 0)]);
    HoleSumAppend(m, L, a, b);
  }

  /** `k` entries `(Di, 1)` equal one entry `(Di, k)`. */
  lemma UnitHolesMerge(Do: real, L: real, a: seq<Hole>, Di: real, k: nat)
    ensures MultiHoleArea(Do, L, a + Repeat(Hole(Di, 1), k)) == MultiHoleArea(Do, L, a + [Hole(Di, k)])
    ensures MultiHoleVolume(Do, L, a + Repeat(Hole(Di, 1), k)) == MultiHoleVolume(Do, L, a + [Hole(Di, k)])
  {
    RepeatedUnitHoles(SurfaceArea, L, Di, k);
    RepeatedUnitHoles(Volume, L, Di, k);
    HolesSplit(Do, L, a, Repeat(Hole(Di, 1), k));
    HolesSplit(Do, L, a, [Hole(Di, k)]);
  }

  /** A real bore through a cylinder of positive length always removes
      material: nothing checks that it still fits. */
  lemma HoleLowersVolume(Do: real, L: real, a: seq<Hole>, h: Hole, b: seq<Hole>)
    requires h.diameter != 0.0 && h.count > 0 && L > 0.0
    ensures MultiHoleVolume(Do, L, a + [h] + b) < MultiHoleVolume(Do, L, a + b)
  {
    HolesSplit(Do, L, a + [h], b);
    HolesSplit(Do, L, a, [h]);
    HolesSplit(Do, L, a, b);
    BoreRemovesVolume(h, L);
  }

  /** So enough bores of any non-zero diameter take the volume below every
      bound; in particular it goes negative. */
  lemma VolumeUnboundedBelow(Do: real, L: real, Di: real, B: real) returns (n: nat)
    requires Di != 0.0 && L > 0.0
    ensures MultiHoleVolume(Do, L, [Hole(Di, n)]) < B
  {
    var c := CylinderVolume(Di, L);
    n := EnoughSteps(CylinderVolume(Do, L), c, B);
    HoleSumSingle(Volume, L, Hole(Di, n));
  }

  /** The surface is no better: a bore wider than twice the length takes
      away more cap area than its wall adds, so enough of them take the
      surface below every bound, and in particular negative. */
  lemma AreaUnboundedBelow(Do: real, L: real, Di: real, B: real) returns (n: nat)
    requires L >= 0.0 && Di > 2.0 * L
    ensures MultiHoleArea(Do, L, [Hole(Di, n)]) < B
  {
    var wall, excess := Pi * Di, Di / 2.0 - L;
    var c := Pi * Sq(Di) / 2.0 - Pi * Di * L;
    assert c == wall * excess;
    SignOfProduct(Pi, Di);
    SignOfProduct(wall, excess);
    n := EnoughSteps(CylinderArea(Do, L), c, B);
    HoleSumSingle(SurfaceArea, L, Hole(Di, n));
    assert PerHole(SurfaceArea, Hole(Di, n), L) == -(n as real * c);
  }

  /** A bore wider than the outside, in a cylinder of positive length, gives
      a negative hollow volume. */
  lemma WideBoreNegativeVolume(Di: real, Do: real, L: real)
    requires 0.0 <= Do < Di && L > 0.0
    ensures HollowCylinderVolume(Di, Do, L) < 0.0
  {
    SqIncreasing(Do, Di);
  }

  /** A bore of zero diameter leaves the solid cylinder. */
  lemma CylinderIsHollowWithoutBore(Do: real, L: real)
    ensures HollowCylinderArea(0.0, Do, L) == CylinderArea(Do, L)
    ensures HollowCylinderVolume(0.0, Do, L) == CylinderVolume(Do, L)
  {
  }

  // ---------------------------------------------------------------------------
  // Helpers
  // ---------------------------------------------------------------------------

  /** Taking a positive step `c` often enough from `x0` gets below any
      bound `B`. */
  lemma EnoughSteps(x0: real, c: real, B: real) returns (n: nat)
    requires c > 0.0
    ensures x0 - n as real * c < B
  {
    if x0 < B {
      n := 0;
      assert x0 - n as real * c < B;
    } else {
      var q := (x0 - B) / c;
      n := q.Floor as nat + 1;
      var d := n as real - q;
      assert d > 0.0;
      SignOfProduct(c, d);
      assert q * c == x0 - B;
      assert n as real * c == q * c + c * d;
      assert x0 - n as real * c < B;
    }
  }

  /** One entry of real bores removes a positive volume. */
  lemma BoreRemovesVolume(h: Hole, L: real)
    requires h.diameter != 0.0 && h.count > 0 && L > 0.0
    ensures PerHole(Volume, h, L) < 0.0
  {
  }
}
