/**
 * The parts of Unity's engine that the scripts call: Mathf's clamping, interpolation,
 * rounding and angle helpers, and the drive of an ArticulationBody. Single-precision
 * rounding is not modelled: every quantity is an exact real, and finiteness of a
 * reading is a tag (Float).
 */
module UnityMath {

  /** A C# float as the scripts test it: a finite number or one of the non-finite values. */
  datatype Float = Finite(value: real) | NaN | PositiveInfinity | NegativeInfinity {
    /** float.IsFinite */
    predicate IsFinite() { Finite? }
  }

  function Abs(x: real): (r: real)
    ensures r >= 0.0 && (r == x || r == -x)
  {
    if x < 0.0 then -x else x
  }

  function Min(a: real, b: real): (r: real)
    ensures r <= a && r <= b && (r == a || r == b)
  {
    if a <= b then a else b
  }

  /** Mathf.Sign: 1 for zero and positive values, -1 for negative ones. */
  function Sign(x: real): (r: real)
    ensures r == 1.0 || r == -1.0
    ensures r == 1.0 <==> x >= 0.0
  {
    if x >= 0.0 then 1.0 else -1.0
  }

  /** r lies on the closed segment between a and b, whichever is larger. */
  predicate Between(a: real, b: real, r: real)
  {
    (a <= r <= b) || (b <= r <= a)
  }

  /** Mathf.Clamp: a value below min gives min, otherwise a value above max gives max. */
  function Clamp(value: real, min: real, max: real): (r: real)
    ensures min <= max ==> min <= r <= max
    ensures min <= value <= max ==> r == value
    ensures value < min ==> r == min
    ensures min <= value && value > max ==> r == max
  {
    if value < min then min else if value > max then max else value
  }

  /** Mathf.Clamp01 */
  function Clamp01(value: real): (r: real)
    ensures 0.0 <= r <= 1.0
    ensures 0.0 <= value <= 1.0 ==> r == value
    ensures value <= 0.0 ==> r == 0.0
    ensures value >= 1.0 ==> r == 1.0
  {
    if value < 0.0 then 0.0 else if value > 1.0 then 1.0 else value
  }

  lemma Clamp01Monotone(x: real, y: real)
    requires x <= y
    ensures Clamp01(x) <= Clamp01(y)
  {
  }

  lemma MulNonNegative(x: real, y: real)
    requires x >= 0.0 && y >= 0.0
    ensures x * y >= 0.0
  {
  }

  /** A positive factor keeps the sign of a product. */
  lemma ProductSign(v: real, factor: real)
    requires factor > 0.0
    ensures v > 0.0 ==> v * factor > 0.0
    ensures v < 0.0 ==> v * factor < 0.0
    ensures v == 0.0 ==> v * factor == 0.0
  {
    if v < 0.0 {
      assert (-v) * factor > 0.0;
    }
  }

  /** Scaling by a factor c in [0, 1] moves toward zero and never past it. */
  lemma ScaleByFraction(x: real, c: real)
    requires 0.0 <= c <= 1.0
    ensures x >= 0.0 ==> 0.0 <= x * c <= x
    ensures x <= 0.0 ==> x <= x * c <= 0.0
  {
    assert x - x * c == x * (1.0 - c);
    if x >= 0.0 {
      MulNonNegative(x, c);
      MulNonNegative(x, 1.0 - c);
    } else {
      MulNonNegative(-x, c);
      MulNonNegative(-x, 1.0 - c);
    }
  }

  /** A fraction c in [0, 1] of a step d from a ends between a and a + d. */
  lemma StepOfFraction(a: real, d: real, c: real)
    requires 0.0 <= c <= 1.0
    ensures Between(a, a + d, a + d * c)
  {
    ScaleByFraction(d, c);
  }

  /** Moving a fraction c in [0, 1] of the way from a to b stays between a and b. */
  lemma FractionBetween(a: real, b: real, c: real)
    requires 0.0 <= c <= 1.0
    ensures Between(a, b, a + (b - a) * c)
  {
    StepOfFraction(a, b - a, c);
  }

  /** Mathf.Lerp: interpolation with the parameter clamped to [0, 1], so never extrapolating. */
  function Lerp(a: real, b: real, t: real): (r: real)
    ensures Between(a, b, r)
    ensures t <= 0.0 ==> r == a
    ensures t >= 1.0 ==> r == b
  {
    FractionBetween(a, b, Clamp01(t));
    a + (b - a) * Clamp01(t)
  }

  lemma LerpMonotone(a: real, b: real, t1: real, t2: real)
    requires t1 <= t2
    ensures a <= b ==> Lerp(a, b, t1) <= Lerp(a, b, t2)
    ensures b <= a ==> Lerp(a, b, t2) <= Lerp(a, b, t1)
  {
    var c1, c2 := Clamp01(t1), Clamp01(t2);
    Clamp01Monotone(t1, t2);
    assert (b - a) * c2 - (b - a) * c1 == (b - a) * (c2 - c1);
    if a <= b {
      MulNonNegative(b - a, c2 - c1);
    } else {
      MulNonNegative(a - b, c2 - c1);
      assert (a - b) * (c2 - c1) == -((b - a) * (c2 - c1));
    }
  }

  lemma QuotientSign(x: real, y: real)
    requires y != 0.0
    ensures y > 0.0 && x <= 0.0 ==> x / y <= 0.0
    ensures y > 0.0 && x >= y ==> x / y >= 1.0
  {
    if y > 0.0 {
      assert x == (x / y) * y;
    }
  }

  lemma QuotientMonotone(x1: real, x2: real, y: real)
    requires x1 <= x2 && y > 0.0
    ensures x1 / y <= x2 / y
  {
    assert x2 / y - x1 / y == (x2 - x1) / y;
    QuotientSign(x1 - x2, y);
    assert (x1 - x2) / y == -((x2 - x1) / y);
  }

  /** Mathf.InverseLerp: where value lies between a and b, clamped to [0, 1]; 0 when a == b. */
  function InverseLerp(a: real, b: real, value: real): (r: real)
    ensures 0.0 <= r <= 1.0
    ensures a < b && value <= a ==> r == 0.0
    ensures a < b && value >= b ==> r == 1.0
  {
    if a != b then
      QuotientSign(value - a, b - a);
      Clamp01((value - a) / (b - a))
    else 0.0
  }

  lemma InverseLerpMonotone(a: real, b: real, v1: real, v2: real)
    requires a < b && v1 <= v2
    ensures InverseLerp(a, b, v1) <= InverseLerp(a, b, v2)
  {
    QuotientMonotone(v1 - a, v2 - a, b - a);
    Clamp01Monotone((v1 - a) / (b - a), (v2 - a) / (b - a));
  }

  /** Rounding to the nearest integer with ties to even: Mathf.RoundToInt and Python's round. */
  function RoundHalfEven(x: real): (r: int)
    ensures (r as real) - 0.5 <= x <= (r as real) + 0.5
    ensures x - x.Floor as real == 0.5 ==> r % 2 == 0
  {
    var f := x.Floor;
    var frac := x - f as real;
    if frac < 0.5 then f
    else if frac > 0.5 then f + 1
    else if f % 2 == 0 then f else f + 1
  }

  lemma RoundHalfEvenMonotone(x: real, y: real)
    requires x <= y
    ensures RoundHalfEven(x) <= RoundHalfEven(y)
  {
    if x.Floor == y.Floor {
    } else {
      assert x.Floor < y.Floor;
    }
  }

  lemma RoundHalfEvenOfInteger(k: int)
    ensures RoundHalfEven(k as real) == k
  {
    assert (k as real).Floor == k;
  }

  /** Rounding keeps the sign: positive values never round below 0, negative never above. */
  lemma RoundHalfEvenSign(x: real)
    ensures x > 0.0 ==> RoundHalfEven(x) >= 0
    ensures x < 0.0 ==> RoundHalfEven(x) <= 0
    ensures x == 0.0 ==> RoundHalfEven(x) == 0
  {
    RoundHalfEvenOfInteger(0);
    if x > 0.0 {
      RoundHalfEvenMonotone(0.0, x);
    } else if x < 0.0 {
      RoundHalfEvenMonotone(x, 0.0);
    }
  }

  /** Truncation toward zero, as a C# or Python cast of a float to an integer. */
  function Trunc(x: real): (r: int)
    ensures x >= 0.0 ==> r as real <= x < r as real + 1.0
    ensures x < 0.0 ==> r as real - 1.0 < x <= r as real
  {
    if x >= 0.0 then x.Floor else -((-x).Floor)
  }

  predicate IsInteger(x: real)
  {
    x.Floor as real == x
  }

  /** a and b name the same direction: they differ by a whole number of turns. */
  predicate SameAngle(a: real, b: real)
  {
    IsInteger((a - b) / 360.0)
  }

  lemma SameAngleWitness(a: real, b: real, k: int)
    requires a - b == 360.0 * k as real
    ensures SameAngle(a, b)
  {
    assert (a - b) / 360.0 == k as real;
  }

  lemma SameAngleSymmetric(a: real, b: real)
    requires SameAngle(a, b)
    ensures SameAngle(b, a)
  {
    var k := ((a - b) / 360.0).Floor;
    SameAngleWitness(b, a, -k);
  }

  lemma SameAngleTransitive(a: real, b: real, c: real)
    requires SameAngle(a, b) && SameAngle(b, c)
    ensures SameAngle(a, c)
  {
    var k1, k2 := ((a - b) / 360.0).Floor, ((b - c) / 360.0).Floor;
    SameAngleWitness(a, c, k1 + k2);
  }

  /** Mathf.Repeat: t wrapped into [0, length]. */
  function Repeat(t: real, length: real): (r: real)
    requires length > 0.0
    ensures 0.0 <= r <= length
  {
    Clamp(t - (t / length).Floor as real * length, 0.0, length)
  }

  /** Mathf.DeltaAngle: the signed shortest turn from current to target, in (-180, 180]. */
  function DeltaAngle(current: real, target: real): (r: real)
    ensures -180.0 < r <= 180.0
    ensures SameAngle(r, target - current)
  {
    var t := target - current;
    var k := (t / 360.0).Floor;
    assert Repeat(t, 360.0) == t - k as real * 360.0;
    var delta := Repeat(t, 360.0);
    if delta > 180.0 then
      SameAngleWitness(delta - 360.0, t, -k - 1);
      delta - 360.0
    else
      SameAngleWitness(delta, t, -k);
      delta
  }

  /** For a turn of at most half a circle (and not exactly -180), DeltaAngle is the plain difference. */
  lemma DeltaAngleOfNear(current: real, target: real)
    requires -180.0 < target - current <= 180.0
    ensures DeltaAngle(current, target) == target - current
  {
    var t := target - current;
    if t >= 0.0 {
      assert (t / 360.0).Floor == 0;
    } else {
      assert (t / 360.0).Floor == -1;
    }
  }

  /** DeltaAngle is the shortest of all turns that reach target. */
  lemma DeltaAngleIsShortest(current: real, target: real, y: real)
    requires SameAngle(y, target - current)
    ensures Abs(DeltaAngle(current, target)) <= Abs(y)
  {
    var d := DeltaAngle(current, target);
    SameAngleSymmetric(d, target - current);
    SameAngleTransitive(y, target - current, d);
    ShortestRepresentative(d, y);
  }

  lemma ShortestRepresentative(d: real, y: real)
    requires -180.0 < d <= 180.0 && SameAngle(y, d)
    ensures Abs(d) <= Abs(y)
  {
    var k := ((y - d) / 360.0).Floor;
    assert y - d == 360.0 * k as real;
    if k > 0 {
      assert y >= d + 360.0;
    } else if k < 0 {
      assert y <= d - 360.0;
    }
  }

  /** The turn from a to c is no longer than the turn from a to b plus the turn from b to c. */
  lemma DeltaAngleTriangle(a: real, b: real, c: real)
    ensures Abs(DeltaAngle(a, c)) <= Abs(DeltaAngle(a, b)) + Abs(DeltaAngle(b, c))
  {
    var d1, d2 := DeltaAngle(a, b), DeltaAngle(b, c);
    var k1, k2 := ((d1 - (b - a)) / 360.0).Floor, ((d2 - (c - b)) / 360.0).Floor;
    SameAngleWitness(d1 + d2, c - a, k1 + k2);
    DeltaAngleIsShortest(a, c, d1 + d2);
  }

  /** Mathf.MoveTowards: step from current toward target by at most maxDelta, never past it. */
  function MoveTowards(current: real, target: real, maxDelta: real): (r: real)
    ensures maxDelta >= 0.0 ==> Between(current, target, r) && Abs(r - current) <= maxDelta
    ensures Abs(target - current) <= maxDelta ==> r == target
  {
    if Abs(target - current) <= maxDelta then target
    else current + Sign(target - current) * maxDelta
  }

  /**
   * Mathf.MoveTowardsAngle: like MoveTowards, but along the shortest turn, so the bound is
   * on the angular distance DeltaAngle(current, r), not on the raw difference r - current.
   */
  function MoveTowardsAngle(current: real, target: real, maxDelta: real): (r: real)
    ensures maxDelta >= 0.0 ==> Abs(DeltaAngle(current, r)) <= maxDelta
    ensures maxDelta >= 0.0 && Abs(DeltaAngle(current, target)) <= maxDelta ==> SameAngle(r, target)
  {
    var deltaAngle := DeltaAngle(current, target);
    if -maxDelta < deltaAngle && deltaAngle < maxDelta then
      target
    else
      MoveTowardsShortestTurn(current, target, maxDelta);
      MoveTowards(current, current + deltaAngle, maxDelta)
  }

  /** The second branch of MoveTowardsAngle: a straight step along the shortest turn. */
  lemma MoveTowardsShortestTurn(current: real, target: real, maxDelta: real)
    ensures var r := MoveTowards(current, current + DeltaAngle(current, target), maxDelta);
      && (maxDelta >= 0.0 ==> Abs(DeltaAngle(current, r)) <= maxDelta)
      && (maxDelta >= 0.0 && Abs(DeltaAngle(current, target)) <= maxDelta ==> SameAngle(r, target))
  {
    var deltaAngle := DeltaAngle(current, target);
    var r := MoveTowards(current, current + deltaAngle, maxDelta);
    if maxDelta >= 0.0 {
      SameAngleWitness(r - current, r - current, 0);
      DeltaAngleIsShortest(current, r, r - current);
      if Abs(deltaAngle) <= maxDelta {
        assert r == current + deltaAngle;
        assert (r - target) / 360.0 == (deltaAngle - (target - current)) / 360.0;
      }
    }
  }

  /** When target is less than half a turn away, MoveTowardsAngle moves along the straight segment. */
  lemma MoveTowardsAngleOfNear(current: real, target: real, maxDelta: real)
    requires maxDelta >= 0.0
    requires -180.0 < target - current < 180.0
    ensures Between(current, target, MoveTowardsAngle(current, target, maxDelta))
    ensures Abs(MoveTowardsAngle(current, target, maxDelta) - current) <= maxDelta
  {
    DeltaAngleOfNear(current, target);
    assert current + (target - current) == target;
  }

  /** ArticulationBody.xDrive reduced to what the scripts read and write; a struct, copied on access. */
  datatype ArticulationDrive = ArticulationDrive(target: real, lowerLimit: real, upperLimit: real)

  /** A joint of the articulated chain; only its drive is modelled. */
  class ArticulationBody {
    var xDrive: ArticulationDrive

    constructor (drive: ArticulationDrive)
      ensures xDrive == drive
    {
      xDrive := drive;
    }
  }
}
