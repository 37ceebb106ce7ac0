/** The quintic time scaling shared by the firmware's reference trajectories and the host
    simulator, the duration the firmware picks for it, and what its samples keep. */
module Quintic {
  import opened Common

  const FACTOR := 1.875
  const MINIMUM_US: nat := 4000
  const SETTLE_US: nat := 200000
  const MARGIN_US: nat := 2000000

  function Shape(r: real): real {
    10.0 * r * r * r - 15.0 * r * r * r * r + 6.0 * r * r * r * r * r
  }

  // ----- The shape -----

  /** About its midpoint the shape is an odd polynomial plus one half. */
  lemma Centred(x: real)
    ensures Shape(0.5 + x) == 0.5 + FACTOR * x - 5.0 * (x * x * x) + 6.0 * (x * x * x * x * x)
  {
    var r := 0.5 + x;
    var x2, x3, x4, x5 := x * x, x * x * x, x * x * x * x, x * x * x * x * x;
    assert r * r == 0.25 + x + x2;
    assert r * r * r == (0.25 + x + x2) * r == 0.125 + 0.75 * x + 1.5 * x2 + x3;
    assert r * r * r * r == (0.125 + 0.75 * x + 1.5 * x2 + x3) * r == 0.0625 + 0.5 * x + 1.5 * x2 + 2.0 * x3 + x4;
    assert r * r * r * r * r == (0.0625 + 0.5 * x + 1.5 * x2 + 2.0 * x3 + x4) * r
                             == 0.03125 + 0.3125 * x + 1.25 * x2 + 2.5 * x3 + 2.5 * x4 + x5;
  }

  /** Average slope of the centred shape between x and y. */
  function Secant(x: real, y: real): real {
    var s, q := x * x + y * y, x * y;
    FACTOR - 5.0 * (s + q) + 6.0 * (s * (s + q) - q * q)
  }

  lemma SecantIsSlope(x: real, y: real)
    ensures Shape(0.5 + y) - Shape(0.5 + x) == (y - x) * Secant(x, y)
  {
    Centred(x);
    Centred(y);
    hide Shape, Secant;
    Cube(x, y);
    Fifth(x, y);
    SecantSplit(x, y);
  }

  lemma Cube(x: real, y: real)
    ensures y * y * y - x * x * x == (y - x) * (x * x + x * y + y * y)
  {
  }

  lemma Fifth(x: real, y: real)
    ensures y * y * y * y * y - x * x * x * x * x
            == (y - x) * ((x * x + y * y) * (x * x + x * y + y * y) - (x * y) * (x * y))
  {
  }

  lemma SecantSplit(x: real, y: real)
    ensures (y - x) * Secant(x, y)
            == FACTOR * y - FACTOR * x - 5.0 * ((y - x) * (x * x + x * y + y * y))
               + 6.0 * ((y - x) * ((x * x + y * y) * (x * x + x * y + y * y) - (x * y) * (x * y)))
  {
    var c, f := x * x + x * y + y * y, (x * x + y * y) * (x * x + x * y + y * y) - (x * y) * (x * y);
    assert Secant(x, y) == FACTOR - 5.0 * c + 6.0 * f by {
      assert x * x + y * y + x * y == c;
    }
    hide Secant;
    Distribute(y - x, c, f);
  }

  lemma Distribute(d: real, c: real, f: real)
    ensures d * (FACTOR - 5.0 * c + 6.0 * f) == FACTOR * d - 5.0 * (d * c) + 6.0 * (d * f)
  {
  }

  /** Written with centre u and half-width h, the slope is a sum of squares. */
  lemma SecantNonNegative(x: real, y: real)
    ensures Secant(x, y) >= 0.0
  {
    var u, h := 0.5 * (x + y), 0.5 * (y - x);
    var uu, hh := u * u, h * h;
    assert x * x + y * y == 2.0 * uu + 2.0 * hh && x * y == uu - hh;
    SumOfSquares(uu, hh);
  }

  lemma SumOfSquares(uu: real, hh: real)
    requires uu >= 0.0 && hh >= 0.0
    ensures var s, q := 2.0 * uu + 2.0 * hh, uu - hh;
            FACTOR - 5.0 * (s + q) + 6.0 * (s * (s + q) - q * q) >= 0.0
  {
    var w := 0.25 - uu - hh / 3.0;
    var s, q := 2.0 * uu + 2.0 * hh, uu - hh;
    ProductNonNegative(uu, hh);
    ProductNonNegative(hh, hh);
    SquareNonNegative(w);
    assert FACTOR - 5.0 * (s + q) + 6.0 * (s * (s + q) - q * q)
        == 30.0 * (w * w + 4.0 / 3.0 * (uu * hh) + 4.0 / 45.0 * (hh * hh));
  }

  lemma SquareNonNegative(w: real)
    ensures w * w >= 0.0
  {
    if w < 0.0 { ProductNonNegative(-w, -w); } else { ProductNonNegative(w, w); }
  }

  /** Within half a unit of the midpoint the quartic part never outweighs the quadratic one. */
  lemma SecantAtMostFactor(x: real, y: real)
    requires -0.5 <= x <= 0.5 && -0.5 <= y <= 0.5
    ensures Secant(x, y) <= FACTOR
  {
    Quarter(x);
    Quarter(y);
    PositiveForm(x, y);
    QuarticSmall(x * x + y * y, x * y);
  }

  lemma Quarter(x: real)
    requires -0.5 <= x <= 0.5
    ensures 0.0 <= x * x <= 0.25
  {
    ProductNonNegative(0.5 - x, 0.5 + x);
    assert (0.5 - x) * (0.5 + x) == 0.25 - x * x;
  }

  lemma ProductNonNegative(x: real, y: real)
    requires x >= 0.0 && y >= 0.0
    ensures x * y >= 0.0
  {
  }

  lemma PositiveForm(x: real, y: real)
    ensures x * x + y * y + x * y >= 0.0
  {
    var z := x + y;
    assert z * z == x * x + 2.0 * (x * y) + y * y;
    assert z * z >= 0.0 && x * x >= 0.0 && y * y >= 0.0;
  }

  lemma QuarticSmall(s: real, q: real)
    requires 0.0 <= s <= 0.5 && s + q >= 0.0
    ensures FACTOR - 5.0 * (s + q) + 6.0 * (s * (s + q) - q * q) <= FACTOR
  {
    MulMono(s, 0.5, s + q);
    assert q * q >= 0.0;
  }

  /** Between any two ratios in the unit interval the shape rises, by at most 1.875 times the gap. */
  lemma ShapeBounds(a: real, b: real)
    requires 0.0 <= a <= b <= 1.0
    ensures 0.0 <= Shape(b) - Shape(a) <= FACTOR * (b - a)
    ensures 0.0 <= Shape(a) <= Shape(b) <= 1.0
  {
    assert Shape(0.0) == 0.0 && Shape(1.0) == 1.0;
    SecantStep(0.0, a);
    SecantStep(a, b);
    SecantStep(b, 1.0);
  }

  lemma SecantStep(a: real, b: real)
    requires 0.0 <= a <= b <= 1.0
    ensures 0.0 <= Shape(b) - Shape(a) <= FACTOR * (b - a)
  {
    hide *;
    var x, y := a - 0.5, b - 0.5;
    SecantIsSlope(x, y);
    SecantNonNegative(x, y);
    SecantAtMostFactor(x, y);
    assert 0.5 + x == a && 0.5 + y == b;
    SlopeToRise(Secant(x, y), y - x);
  }

  lemma SlopeToRise(slope: real, gap: real)
    requires 0.0 <= slope <= FACTOR && gap >= 0.0
    ensures 0.0 <= gap * slope <= FACTOR * gap
  {
    MulMono(slope, FACTOR, gap);
  }

  /** No smaller factor bounds the slope: around the midpoint every smaller one is exceeded. */
  lemma FactorIsLeast(k: real)
    requires 0.0 < k < FACTOR
    ensures exists a, b :: 0.0 <= a < b <= 1.0 && Shape(b) - Shape(a) > k * (b - a)
  {
    var h := (FACTOR - k) / 10.0;
    assert 0.0 < h < 0.5;
    var a, b := 0.5 - h, 0.5 + h;
    SecantIsSlope(-h, h);
    assert 0.5 + (-h) == a;
    SlopeAtMidpoint(h);
    hide Shape, Secant;
    assert h * h < 0.5 * h by { assert h * (0.5 - h) > 0.0; }
    assert Secant(-h, h) > k;
    assert (h - -h) * Secant(-h, h) > k * (b - a) by {
      assert 2.0 * h * (Secant(-h, h) - k) > 0.0;
    }
  }

  lemma SlopeAtMidpoint(h: real)
    ensures Secant(-h, h) >= FACTOR - 5.0 * (h * h)
  {
    var hh := h * h;
    assert (-h) * (-h) == hh && (-h) * h == -hh;
    assert hh * hh >= 0.0;
  }

  // ----- Duration of a reference trajectory -----

  const JOINTS: nat := 7

  /** One joint's share of a reference motion. The speed is positive once validated. */
  datatype Joint = Joint(selected: bool, start: real, target: real, speed: real, ratio: real)
  {
    predicate Valid() {
      speed > 0.0 && ratio > 0.0
    }

    function Distance(): real {
      Abs(target - start)
    }

    /** Seconds this joint needs for its peak speed to stay at the requested one. */
    function Seconds(): real
      requires Valid()
    {
      FACTOR * Distance() / (speed * ratio)
    }

    /** Unselected joints hold their start position. */
    function End(): real {
      if selected then target else start
    }
  }

  predicate ValidJoints(joints: seq<Joint>) {
    |joints| == JOINTS && forall j | 0 <= j < JOINTS :: joints[j].Valid()
  }

  /** Longest representable trajectory, with room for the settle time and the safety margin. */
  function LimitSeconds(): real {
    (U64_MAX - SETTLE_US - MARGIN_US) as real / 1000000.0
  }

  /** A whole number of microseconds long enough for every selected joint, and for the sampler. */
  predicate Covers(joints: seq<Joint>, us: nat)
    requires ValidJoints(joints)
  {
    us >= MINIMUM_US && forall j | 0 <= j < JOINTS && joints[j].selected :: joints[j].Seconds() * 1000000.0 <= us as real
  }

  /** The firmware's loop over the joints: the least covering duration, or nothing when some
      joint's time cannot be represented. */
  method ChooseDuration(joints: seq<Joint>) returns (duration: Option<nat>)
    requires ValidJoints(joints)
    ensures duration.None? <==> exists j | 0 <= j < JOINTS :: joints[j].selected && joints[j].Seconds() > LimitSeconds()
    ensures duration.Some? ==> Covers(joints, duration.value) && forall us: nat | Covers(joints, us) :: duration.value <= us
  {
    hide Joint.Seconds, LimitSeconds;
    var maximum := 0.0;
    var j := 0;
    while j < JOINTS
      invariant 0 <= j <= JOINTS
      invariant forall i | 0 <= i < j && joints[i].selected :: joints[i].Seconds() <= maximum && joints[i].Seconds() <= LimitSeconds()
      invariant maximum == 0.0 || exists i :: 0 <= i < j && joints[i].selected && joints[i].Seconds() == maximum
    {
      if joints[j].selected {
        var seconds := joints[j].Seconds();
        if seconds > LimitSeconds() { return None; }
        if seconds > maximum { maximum := seconds; }
      }
      j := j + 1;
    }
    var us := Ceil(maximum * 1000000.0);
    if us < MINIMUM_US { us := MINIMUM_US; }
    CeilIsLeast(maximum * 1000000.0);
    return Some(us);
  }

  lemma CeilIsLeast(x: real)
    ensures x <= Ceil(x) as real < x + 1.0
  {
  }

  /** The part of the duration that has elapsed, clamped to the move. */
  function Ratio(elapsed: int, duration: nat): real
    requires duration > 0
  {
    if elapsed <= 0 then 0.0 else if elapsed >= duration then 1.0 else elapsed as real / duration as real
  }

  /** Position commanded at a sample time, as joint_motion_sample computes it. */
  function Sample(j: Joint, elapsed: int, duration: nat): real
    requires duration > 0
  {
    j.start + (j.End() - j.start) * Shape(Ratio(elapsed, duration))
  }

  lemma RatioSteps(s: int, t: int, duration: nat)
    requires duration > 0 && s <= t
    ensures 0.0 <= Ratio(s, duration) <= Ratio(t, duration) <= 1.0
    ensures Ratio(t, duration) - Ratio(s, duration) <= (t - s) as real / duration as real
  {
    var d := duration as real;
    RatioClamped(s, duration);
    RatioClamped(t, duration);
    Quotients(s as real, t as real, d);
  }

  lemma RatioClamped(t: int, duration: nat)
    requires duration > 0
    ensures Ratio(t, duration) == Max(0.0, Min(1.0, t as real / duration as real))
  {
    var d := duration as real;
    DivBound(t as real, d, 0.0);
    DivBound(t as real, d, 1.0);
    if t <= 0 { Negative(t as real, d); }
  }

  lemma Negative(x: real, d: real)
    requires d > 0.0 && x <= 0.0
    ensures x / d <= 0.0
  {
    DivBound(-x, d, 0.0);
    assert x / d == -(-x / d);
  }

  lemma Quotients(x: real, y: real, d: real)
    requires d > 0.0 && x <= y
    ensures x / d <= y / d && (y - x) / d == y / d - x / d
  {
    Negative(x - y, d);
  }

  /** Between any two samples of the curve a selected joint's average speed stays within its
      requested speed, and the joint stays between its start and its target. */
  lemma AverageSpeedWithinRequest(joints: seq<Joint>, duration: nat, j: nat, s: int, t: int)
    requires ValidJoints(joints) && Covers(joints, duration)
    requires j < JOINTS && joints[j].selected && s <= t
    ensures Abs(Sample(joints[j], t, duration) - Sample(joints[j], s, duration))
            <= joints[j].speed * joints[j].ratio * ((t - s) as real / 1000000.0)
    ensures Between(joints[j].start, Sample(joints[j], t, duration), joints[j].target)
  {
    hide Shape, Ratio, Joint.Seconds, Abs;
    var joint := joints[j];
    var a, b := Ratio(s, duration), Ratio(t, duration);
    RatioSteps(s, t, duration);
    ShapeBounds(a, b);
    StaysBetween(joint.start, joint.target, Shape(b));
    MovedBy(joint.start, joint.target, Shape(a), Shape(b), Sample(joint, s, duration), Sample(joint, t, duration));
    JointSpeed(joint, duration as real, (t - s) as real, b - a, Shape(b) - Shape(a));
  }

  lemma JointSpeed(joint: Joint, us: real, gap: real, ratio: real, rise: real)
    requires joint.Valid() && us > 0.0 && gap >= 0.0 && joint.Seconds() * 1000000.0 <= us
    requires 0.0 <= ratio <= gap / us && rise <= FACTOR * ratio
    ensures Abs(joint.target - joint.start) * rise <= joint.speed * joint.ratio * (gap / 1000000.0)
  {
    var speed := joint.speed * joint.ratio;
    assert speed > 0.0;
    SpeedArithmetic(joint.Distance(), speed, us, gap, ratio, rise);
  }

  /** x lies between the two ends, in either order. */
  predicate Between(from: real, x: real, to: real) {
    from <= x <= to || to <= x <= from
  }

  lemma StaysBetween(from: real, to: real, scale: real)
    requires 0.0 <= scale <= 1.0
    ensures Between(from, from + (to - from) * scale, to)
  {
    var d := to - from;
    if d >= 0.0 { MulMono(scale, 1.0, d); } else { MulMono(scale, 1.0, -d); assert (-d) * scale == -(d * scale); }
  }

  lemma MovedBy(from: real, to: real, x: real, y: real, p: real, q: real)
    requires x <= y && p == from + (to - from) * x && q == from + (to - from) * y
    ensures Abs(q - p) == Abs(to - from) * (y - x)
  {
    var d := to - from;
    assert d * y - d * x == d * (y - x);
    if d >= 0.0 {
      ProductNonNegative(d, y - x);
    } else {
      ProductNonNegative(-d, y - x);
      assert (-d) * (y - x) == -(d * (y - x));
    }
  }

  lemma SpeedArithmetic(distance: real, speed: real, us: real, gap: real, ratio: real, rise: real)
    requires distance >= 0.0 && speed > 0.0 && us > 0.0 && gap >= 0.0
    requires FACTOR * distance / speed * 1000000.0 <= us
    requires 0.0 <= ratio <= gap / us && rise <= FACTOR * ratio
    ensures distance * rise <= speed * (gap / 1000000.0)
  {
    var need := FACTOR * distance / speed;
    assert need * speed == FACTOR * distance;
    var q := gap / us;
    assert q * us == gap;
    MulMono(rise, FACTOR * q, distance);
    assert distance * (FACTOR * q) == need * speed * q;
    MulMono(need * 1000000.0, us, q);
    assert need * 1000000.0 * q <= gap;
    MulMono(need * 1000000.0 * q, gap, speed);
    assert need * 1000000.0 * q * speed == need * speed * q * 1000000.0;
  }
}
