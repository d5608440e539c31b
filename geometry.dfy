/**
 Geometry helpers of the Hydra binding: bit extraction from the button
 bitmask, epsilon snapping of the joystick bearing, and the quadrant and
 octant classification of a bearing. All of them are pure.

 Floating-point values of the binding are modelled as `real`. Every
 threshold used here (multiples of 1/16) is exact in binary floating point,
 so the comparisons mean the same over `real`.
 */
module Geometry {

  /** The binding's C `unsigned int`: 32 bits wide. */
  newtype uint32 = x: int | 0 <= x < 0x1_0000_0000

  // ---------------------------------------------------------------------
  // Bit extraction
  // ---------------------------------------------------------------------

  /** 2 to the power k. */
  function Pow2(k: nat): (p: nat)
    ensures p >= 1
  {
    if k == 0 then 1 else 2 * Pow2(k - 1)
  }

  /** The table of powers of two the binding indexes with a bit number. */
  const Po2: seq<nat> := [1, 2, 4, 8, 16, 32, 64, 128, 256, 512, 1024]

  /** Bitwise AND of two non-negative integers, one binary digit at a time. */
  function BitAnd(a: nat, b: nat): nat
    decreases a
  {
    if a == 0 || b == 0 then 0 else (a % 2) * (b % 2) + 2 * BitAnd(a / 2, b / 2)
  }

  /** Reference meaning of "bit k of n is set": the k-th binary digit of n is 1. */
  predicate BitSet(n: nat, k: nat)
  {
    (n / Pow2(k)) % 2 == 1
  }

  /**
   `bitAt`: mask the bitmask with the table entry, shift the result right by
   the bit number (an unsigned shift, i.e. division by 2^bit) and read any
   nonzero value as true. The table has eleven entries, so only bit numbers
   0..10 are defined.
   */
  function BitAt(byte: uint32, bit: int): (r: bool)
    requires 0 <= bit < |Po2|
    ensures r <==> BitSet(byte as nat, bit)
  {
    Po2MatchesPow2(bit);
    BitAndPow2(byte as nat, bit);
    BitAnd(byte as nat, Po2[bit]) / Pow2(bit) != 0
  }

  /** Every entry of the table is the corresponding power of two. */
  lemma Po2MatchesPow2(k: nat)
    requires k < |Po2|
    ensures Po2[k] == Pow2(k)
  {
  }

  /** Integer division is determined by quotient and remainder. */
  lemma DivisionUnique(a: int, d: int, q: int, m: int)
    requires d > 0 && 0 <= m < d && a == d * q + m
    ensures a / d == q
  {
    var q', m' := a / d, a % d;
    assert a == d * q' + m' && 0 <= m' < d;
    assert d * (q - q') == m' - m;
    if q > q' {
      MultiplyAtLeastOnce(d, q - q');
    } else if q < q' {
      MultiplyAtLeastOnce(d, q' - q);
    }
  }

  /** A positive multiple of d is at least d. */
  lemma MultiplyAtLeastOnce(d: int, x: int)
    requires d > 0 && x >= 1
    ensures d * x >= d
  {
  }

  /** Dividing by 2 and then by d is dividing by 2 * d. */
  lemma HalveThenDivide(a: nat, d: nat)
    requires d >= 1
    ensures (a / 2) / d == a / (2 * d)
  {
    var q, m := a / (2 * d), a % (2 * d);
    assert a == (2 * d) * q + m && 0 <= m < 2 * d;
    var h := d * q + m / 2;
    assert a == 2 * h + m % 2 by {
      assert m == 2 * (m / 2) + m % 2;
    }
    DivisionUnique(a, 2, h, m % 2);
    assert m / 2 < d;
    DivisionUnique(h, d, q, m / 2);
  }

  /** Masking a positive number with an even mask 2 * c is masking its upper digits with c. */
  lemma BitAndEvenMask(a: nat, c: nat)
    requires a > 0 && c > 0
    ensures BitAnd(a, 2 * c) == 2 * BitAnd(a / 2, c)
  {
  }

  /** Masking with 2^k keeps exactly the k-th binary digit, in its place. */
  lemma {:induction false} BitAndPow2(a: nat, k: nat)
    ensures BitAnd(a, Pow2(k)) == if BitSet(a, k) then Pow2(k) else 0
  {
    if a == 0 {
    } else if k == 0 {
      assert BitAnd(a, 1) == (a % 2) * 1 + 2 * BitAnd(a / 2, 0);
    } else {
      var p := Pow2(k - 1);
      assert Pow2(k) == 2 * p;
      BitAndEvenMask(a, p);
      BitAndPow2(a / 2, k - 1);
      HalveThenDivide(a, p);
    }
  }

  // ---------------------------------------------------------------------
  // Epsilon snapping of the bearing
  // ---------------------------------------------------------------------

  /** The binding's tolerance around 0 and 1. */
  const Epsilon: real := 0.0000001

  /** True when v lies within the tolerance of 0 or of 1 (or outside [0, 1]). */
  predicate NearWrap(v: real)
  {
    v < Epsilon || v > 1.0 - Epsilon
  }

  /**
   `epsilonCrossing`: a bearing within the tolerance of 0 or of 1 becomes 0;
   any other value passes through. The result is therefore either 0 or a value
   safely inside [Epsilon, 1 - Epsilon].
   */
  function EpsilonCrossing(b: real): (r: real)
    ensures NearWrap(b) ==> r == 0.0
    ensures !NearWrap(b) ==> r == b
    ensures r == 0.0 || Epsilon <= r <= 1.0 - Epsilon
  {
    if b < Epsilon || b > 1.0 - Epsilon then 0.0 else b
  }

  /** Snapping twice is snapping once; in particular a snapped 0 stays 0. */
  lemma EpsilonCrossingIdempotent(b: real)
    ensures EpsilonCrossing(EpsilonCrossing(b)) == EpsilonCrossing(b)
    ensures EpsilonCrossing(0.0) == 0.0
  {
  }

  // ---------------------------------------------------------------------
  // Quadrants
  // ---------------------------------------------------------------------

  /** Quadrant thresholds. */
  const QT: seq<real> := [0.0, 0.25, 0.5, 0.75, 1.0]

  /**
   `toQuadrant`: 0 when the radius is 0; otherwise half-open quarters
   [0, .25), [.25, .5), [.5, .75) give 1, 2, 3, and every other bearing
   (including negative ones and those at or above .75) gives 4.
   */
  function ToQuadrant(b: real, r: real): (q: int)
    ensures q == 0 <==> r == 0.0
    ensures r != 0.0 ==> 1 <= q <= 4
    ensures q == 1 <==> r != 0.0 && 0.0 <= b < 0.25
    ensures q == 2 <==> r != 0.0 && 0.25 <= b < 0.5
    ensures q == 3 <==> r != 0.0 && 0.5 <= b < 0.75
    ensures q == 4 <==> r != 0.0 && !(0.0 <= b < 0.75)
  {
    if r == 0.0 then 0
    else if b >= QT[0] && b < QT[1] then 1
    else if b >= QT[1] && b < QT[2] then 2
    else if b >= QT[2] && b < QT[3] then 3
    else 4
  }

  /** On the nominal bearing range [0, 1) a quadrant is the quarter the bearing falls in. */
  lemma QuadrantIsQuarter(b: real, r: real)
    requires r != 0.0 && 0.0 <= b < 1.0
    ensures ToQuadrant(b, r) == (4.0 * b).Floor + 1
  {
  }

  // ---------------------------------------------------------------------
  // Octants
  // ---------------------------------------------------------------------

  /** Octant thresholds: 1/16 and every eighth after it. */
  const OT: seq<real> := [
    0.0625,
    0.0625 + 0.125,
    0.0625 + 0.125 * 2.0,
    0.0625 + 0.125 * 3.0,
    0.0625 + 0.125 * 4.0,
    0.0625 + 0.125 * 5.0,
    0.0625 + 0.125 * 6.0,
    0.0625 + 0.125 * 7.0
  ]

  /** Lower end of the open interval that octant k (2..8) occupies. */
  function OctantLower(k: int): real
  {
    0.0625 + 0.125 * ((k - 2) as real)
  }

  /** True when b lies strictly inside the interval of some octant 2..8. */
  predicate InsideOctant(b: real, k: int)
  {
    OctantLower(k) < b < OctantLower(k) + 0.125
  }

  /**
   `toOctant`: 0 when the radius is 0; otherwise octant k in 2..8 exactly when
   the bearing lies strictly between the k-th neighbouring thresholds, and 1
   for every boundary value and every bearing outside (1/16, 15/16).
   */
  function ToOctant(b: real, r: real): (o: int)
    ensures o == 0 <==> r == 0.0
    ensures r != 0.0 ==> 1 <= o <= 8
    ensures 2 <= o <= 8 ==> InsideOctant(b, o)
  {
    if r == 0.0 then 0
    else if b > OT[0] && b < OT[1] then 2
    else if b > OT[1] && b < OT[2] then 3
    else if b > OT[2] && b < OT[3] then 4
    else if b > OT[3] && b < OT[4] then 5
    else if b > OT[4] && b < OT[5] then 6
    else if b > OT[5] && b < OT[6] then 7
    else if b > OT[6] && b < OT[7] then 8
    else 1
  }

  /** With the stick moved, octant k in 2..8 is given exactly to bearings inside its open interval. */
  lemma OctantSector(b: real, r: real, k: int)
    requires r != 0.0 && 2 <= k <= 8
    ensures ToOctant(b, r) == k <==> InsideOctant(b, k)
  {
  }

  /** Octant 1 catches exactly the bearings that are inside none of the open intervals of octants 2..8. */
  lemma OctantCatchAll(b: real, r: real)
    requires r != 0.0
    ensures ToOctant(b, r) == 1 <==> forall k :: 2 <= k <= 8 ==> !InsideOctant(b, k)
  {
  }

  /**
   Away from the boundaries, octants 2..8 are the nearest eighth: rounding
   8 * b to the nearest integer and adding 1 gives the octant.
   */
  lemma OctantIsNearestEighth(b: real, r: real, k: int)
    requires r != 0.0 && 2 <= k <= 8 && InsideOctant(b, k)
    ensures ToOctant(b, r) == k
    ensures (8.0 * b + 0.5).Floor + 1 == k
  {
  }

  /** A bearing snapped at the wrap point is quadrant 1 and octant 1 whenever the stick is moved. */
  lemma SnappedWrapIsNorth(v: real, r: real)
    requires r != 0.0 && NearWrap(v)
    ensures ToQuadrant(EpsilonCrossing(v), r) == 1
    ensures ToOctant(EpsilonCrossing(v), r) == 1
  {
  }
}
