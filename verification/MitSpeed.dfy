/** Exactly when a simulated MIT move keeps the requested speed: its steepest pair of millisecond
    samples lies around the midpoint, and everything depends on that pair alone. */
module MitSpeed {
  import opened Common
  import opened Quintic
  import opened HostMotion

  // ----- The steepest pair, in whole numbers -----

  function Square(p: int, q: int): int {
    p * p + p * q + q * q
  }

  function Fourth(p: int, q: int): int {
    (p * p + q * q) * Square(p, q) - (p * q) * (p * q)
  }

  lemma SquarePositive(p: int, q: int)
    requires p != q
    ensures Square(p, q) >= 1
  {
    assert 4 * Square(p, q) == (2 * p + q) * (2 * p + q) + 3 * (q * q);
    NonNegative(2 * p + q);
    NonNegative(q);
    NonNegative(p);
    if q == 0 { OneAtLeast(p); } else { OneAtLeast(q); }
  }

  lemma NonNegative(x: int)
    ensures x * x >= 0
  {
  }

  lemma OneAtLeast(x: int)
    requires x != 0
    ensures x * x >= 1
  {
    if x > 0 { assert x * x >= x; } else { assert x * x >= -x; }
  }

  /** On either side of the midpoint the quartic form is at most the square of the quadratic one. */
  lemma SameSide(p: int, q: int)
    requires p * q >= 0
    ensures Fourth(p, q) <= Square(p, q) * Square(p, q)
  {
    var a, r := Square(p, q), p * q;
    assert a * a - Fourth(p, q) == r * ((p + q) * (p + q)) by {
      assert (p + q) * (p + q) == p * p + q * q + 2 * r;
      assert p * p + q * q == a - r;
      assert a * a - ((a - r) * a - r * r) == r * a + r * r;
    }
    NonNegative(p + q);
    assert r * ((p + q) * (p + q)) >= 0;
  }

  /** The farther of two samples on opposite sides. */
  predicate Farther(p: int, q: int) {
    (p <= 0 && 0 <= q <= -p) || (p >= 0 && -p <= q <= 0)
  }

  lemma OppositeSides(p: int, q: int)
    requires p * q <= 0
    ensures Farther(p, q) || Farther(q, p)
  {
    if p > 0 { assert q <= 0; } else if p < 0 { assert q >= 0; }
  }

  /** Across the midpoint it is at most the quadratic one times the square of the farther sample. */
  lemma Across(p: int, q: int, n: int)
    requires p * q <= 0 && -n <= q <= n && -n <= p <= n
    ensures Fourth(p, q) <= Square(p, q) * (n * n)
  {
    OppositeSides(p, q);
    Swapped(p, q);
    hide Square, Fourth;
    if Farther(p, q) { AcrossFar(p, q, n); } else { AcrossFar(q, p, n); }
  }

  lemma Swapped(p: int, q: int)
    ensures Fourth(p, q) == Fourth(q, p) && Square(p, q) == Square(q, p)
  {
    assert p * q == q * p;
  }

  lemma AcrossFar(p: int, q: int, n: int)
    requires Farther(p, q) && -n <= p <= n
    ensures Fourth(p, q) <= Square(p, q) * (n * n)
  {
    var a, pp, qq, t := Square(p, q), p * p, q * q, (p + q) * q;
    QuarticSplit(p, q);
    TowardsZero(p, q);
    NonNegative(q);
    Times(t, qq);
    SquareNonNegative(p, q);
    Within(p, n);
    Scaled(pp, n * n, a);
    hide Square, Fourth;
  }

  lemma QuarticSplit(p: int, q: int)
    ensures Fourth(p, q) == Square(p, q) * (p * p) + ((p + q) * q) * (q * q)
  {
    var pp, qq, r := p * p, q * q, p * q;
    assert r * r == pp * qq by { assert r * r == p * q * p * q == p * p * q * q == pp * (q * q); }
    assert (p + q) * q == r + qq;
    assert (pp + qq) * (pp + r + qq) - pp * qq == (pp + r + qq) * pp + (r + qq) * qq;
  }

  lemma TowardsZero(p: int, q: int)
    requires Farther(p, q)
    ensures (p + q) * q <= 0
  {
  }

  lemma Times(t: int, x: int)
    requires t <= 0 && x >= 0
    ensures t * x <= 0
  {
  }

  lemma SquareNonNegative(p: int, q: int)
    ensures Square(p, q) >= 0
  {
    if p == q { NonNegative(p); } else { SquarePositive(p, q); }
  }

  lemma Within(p: int, n: int)
    requires -n <= p <= n
    ensures p * p <= n * n
  {
    assert (n - p) * (n + p) >= 0;
  }

  lemma Scaled(x: int, y: int, a: int)
    requires x <= y && a >= 0
    ensures a * x <= a * y
  {
  }

  /** No pair of grid points is steeper than the pair next to the midpoint. */
  lemma GridPeak(p: int, q: int, n: int)
    requires p != q && -n <= p <= n && -n <= q <= n && n >= 2
    ensures 6 * (Fourth(p, q) - 1) <= 20 * ((n * n) * (Square(p, q) - 1))
  {
    var a, b, nn := Square(p, q), Fourth(p, q), n * n;
    SquarePositive(p, q);
    Within(2, n);
    if p * q >= 0 {
      SameSide(p, q);
      AtMostThree(p, q, n);
      hide Square, Fourth;
      if a <= 10 { SmallSquare(a, nn); } else { LargeSquare(a, nn); }
    } else {
      Across(p, q, n);
      if a == 1 { Adjacent(p, q); } else { hide Square, Fourth; Middling(a, nn); }
    }
  }

  lemma AtMostThree(p: int, q: int, n: int)
    requires -n <= p <= n && -n <= q <= n
    ensures Square(p, q) <= 3 * (n * n)
  {
    Within(p, n);
    Within(q, n);
    NonNegative(p - q);
    assert (p - q) * (p - q) == p * p - 2 * (p * q) + q * q;
  }

  lemma Adjacent(p: int, q: int)
    requires p * q < 0 && Square(p, q) == 1
    ensures Fourth(p, q) == 1
  {
    assert (p + q) * (p + q) == Square(p, q) + p * q;
    NonNegative(p + q);
    assert p * q == -1;
    assert p * p + q * q == 2;
  }

  lemma SmallSquare(a: int, nn: int)
    requires 1 <= a <= 10 && nn >= 4
    ensures 6 * (a * a - 1) <= 20 * (nn * (a - 1))
  {
    assert a * a - 1 == (a - 1) * (a + 1);
    Scaled(6 * (a + 1), 20 * nn, a - 1);
  }

  lemma LargeSquare(a: int, nn: int)
    requires a >= 10 && a <= 3 * nn
    ensures 6 * (a * a - 1) <= 20 * (nn * (a - 1))
  {
    Scaled(a, 3 * nn, a);
    Scaled(10, a, nn);
    assert 20 * (nn * (a - 1)) == 20 * (nn * a) - 20 * nn;
  }

  lemma Middling(a: int, nn: int)
    requires a >= 2 && nn >= 4
    ensures 6 * (a * nn - 1) <= 20 * (nn * (a - 1))
  {
    Scaled(2, a, nn);
    assert 20 * (nn * (a - 1)) == 20 * (nn * a) - 20 * nn;
  }

  // ----- The steepest pair, as a slope -----

  function Point(p: int, h: real): real {
    p as real * h
  }

  function Squared(h: real): real {
    h * h
  }

  /** Half the distance of the pair around the midpoint, which is a sample itself for even durations. */
  function Half(duration: nat): real
    requires duration > 0
  {
    if duration % 2 == 0 then 1.0 / duration as real else 0.5 / duration as real
  }

  /** 1.875 - 5/D^2 + 6/D^4 for an even duration D, and 1.875 - 1.25/D^2 + 0.375/D^4 for an odd one. */
  function Peak(duration: nat): real
    requires duration > 0
  {
    var hh := Squared(Half(duration));
    FACTOR - 5.0 * hh + 6.0 * (hh * hh)
  }

  /** Sample k of a duration, as a multiple of Half from the midpoint. */
  function Grid(k: int, duration: nat): int {
    if duration % 2 == 0 then k - duration / 2 else 2 * k - duration
  }

  function Span(duration: nat): nat {
    if duration % 2 == 0 then duration / 2 else duration
  }

  lemma HalfSpan(duration: nat)
    requires duration > 0
    ensures Half(duration) * (2.0 * Span(duration) as real) == 1.0
  {
    if duration % 2 == 0 {
      assert 2 * Span(duration) == duration;
      assert 2.0 * Span(duration) as real == duration as real;
    }
  }

  lemma GridPoint(k: int, duration: nat)
    requires duration > 0
    ensures k as real / duration as real == 0.5 + Point(Grid(k, duration), Half(duration))
  {
    var d := duration as real;
    assert k as real / d == k as real * (1.0 / d);
    if duration % 2 == 0 {
      assert 2 * (duration / 2) == duration;
      var n := (duration / 2) as real;
      assert 2.0 * n == d;
      assert (k as real - n) * (1.0 / d) == k as real * (1.0 / d) - n * (1.0 / d);
      assert n * (1.0 / d) == 0.5;
    } else {
      assert (2.0 * k as real - d) * (0.5 / d) == k as real * (1.0 / d) - d * (0.5 / d);
    }
  }

  function Form(hh: real, a: int, b: int): real {
    FACTOR - 5.0 * (hh * a as real) + 6.0 * (hh * hh * b as real)
  }

  lemma SecantOnGrid(p: int, q: int, h: real)
    ensures Secant(Point(p, h), Point(q, h)) == Form(Squared(h), Square(p, q), Fourth(p, q))
  {
    var x, y, hh := p as real * h, q as real * h, h * h;
    var pp, qq, r := p * p, q * q, p * q;
    assert x * x == hh * pp as real && y * y == hh * qq as real && x * y == hh * r as real by {
      Regroup(p as real, p as real, h);
      Regroup(q as real, q as real, h);
      Regroup(p as real, q as real, h);
      Whole(p, p);
      Whole(q, q);
      Whole(p, q);
    }
    var s := pp + qq;
    assert x * x + y * y == hh * s as real;
    assert Square(p, q) == s + r;
    Whole(s, s + r);
    Whole(r, r);
    Regroup(s as real, (s + r) as real, hh);
    Regroup(r as real, r as real, hh);
    hide Square;
    assert (hh * s as real) * (hh * s as real + hh * r as real) - (hh * r as real) * (hh * r as real)
        == hh * hh * (s * (s + r) - r * r) as real by {
      assert (s as real * hh) * ((s + r) as real * hh) == hh * hh * (s * (s + r)) as real;
      assert (r as real * hh) * (r as real * hh) == hh * hh * (r * r) as real;
    }
  }

  lemma Regroup(a: real, b: real, h: real)
    ensures (a * h) * (b * h) == (h * h) * (a * b)
  {
    assert (a * h) * (b * h) == a * h * b * h == a * b * (h * h);
  }

  lemma Whole(a: int, b: int)
    ensures a as real * b as real == (a * b) as real
  {
  }

  /** Average slope of the shape between two samples. */
  function Slope(i: nat, k: nat, duration: nat): real
    requires duration > 0
  {
    Secant(Point(Grid(i, duration), Half(duration)), Point(Grid(k, duration), Half(duration)))
  }

  /** No pair of millisecond samples is steeper than Peak. */
  lemma SlopeAtMostPeak(i: nat, k: nat, duration: nat)
    requires i < k <= duration && duration >= 4
    ensures Slope(i, k, duration) <= Peak(duration)
  {
    GridWithin(i, duration);
    GridWithin(k, duration);
    HalfSpan(duration);
    PeakIsForm(duration);
    hide Secant, Grid, Span, Half, Form, Peak, Point, Squared;
    Steepest(Grid(i, duration), Grid(k, duration), Span(duration), Half(duration));
  }

  lemma Steepest(p: int, q: int, n: nat, h: real)
    requires p != q && 0 - n <= p && p <= n && 0 - n <= q && q <= n && n >= 2 && h * (2.0 * n as real) == 1.0
    ensures Secant(Point(p, h), Point(q, h)) <= Form(Squared(h), 1, 1)
  {
    hide Secant, Square, Fourth, Form, Point;
    GridPeak(p, q, n);
    SecantOnGrid(p, q, h);
    SquaredOne(h, n as real);
    Whole(n, n);
    PeakLeads(Squared(h), n * n, Square(p, q) - 1, Fourth(p, q) - 1);
    Compare(Squared(h), Square(p, q) - 1, Fourth(p, q) - 1);
  }

  lemma Compare(hh: real, a: int, b: int)
    requires 6.0 * (hh * hh * b as real) <= 5.0 * (hh * a as real)
    ensures Form(hh, a + 1, b + 1) <= Form(hh, 1, 1)
  {
    assert hh * (a + 1) as real == hh * a as real + hh;
    assert hh * hh * (b + 1) as real == hh * hh * b as real + hh * hh;
  }

  lemma GridWithin(k: nat, duration: nat)
    requires k <= duration && duration >= 4
    ensures 0 - Span(duration) <= Grid(k, duration) && Grid(k, duration) <= Span(duration) && Span(duration) >= 2
    ensures forall i: nat | i < k :: Grid(i, duration) < Grid(k, duration)
  {
  }

  lemma SquaredOne(h: real, n: real)
    requires h * (2.0 * n) == 1.0
    ensures h * h * (4.0 * (n * n)) == 1.0
  {
    assert h * h * (4.0 * (n * n)) == (h * (2.0 * n)) * (h * (2.0 * n));
  }

  lemma PeakIsForm(duration: nat)
    requires duration > 0
    ensures Peak(duration) == Form(Squared(Half(duration)), 1, 1)
  {
    hide Half;
    var hh := Squared(Half(duration));
    assert hh * 1 as real == hh && hh * hh * 1 as real == hh * hh;
  }

  lemma PeakLeads(hh: real, nn: int, a: int, b: int)
    requires hh * (4.0 * nn as real) == 1.0 && 6 * b <= 20 * (nn * a)
    ensures 6.0 * (hh * hh * b as real) <= 5.0 * (hh * a as real)
  {
    Whole(nn, a);
    var x, y := 6.0 * b as real, 20.0 * (nn as real * a as real);
    assert x <= y;
    SquareReal(hh);
    MulMono(x, y, hh * hh);
    assert hh * hh * y == 5.0 * ((hh * (4.0 * nn as real)) * (hh * a as real));
  }

  lemma SquareReal(h: real)
    ensures h * h >= 0.0
  {
    if h < 0.0 { assert (-h) * (-h) >= 0.0; }
  }

  /** The samples around the midpoint. */
  function Before(duration: nat): nat
    requires duration >= 4
  {
    (duration + 1) / 2 - 1
  }

  lemma MiddleGrid(duration: nat)
    requires duration >= 4
    ensures Grid(Before(duration), duration) == -1 && Grid(Before(duration) + 1, duration) == if duration % 2 == 0 then 0 else 1
  {
  }

  lemma SteepestReached(q: int, duration: nat)
    requires duration > 0 && (q == 0 || q == 1)
    ensures Secant(Point(-1, Half(duration)), Point(q, Half(duration))) == Peak(duration)
  {
    hide Secant, Half, Point, Squared;
    assert Square(-1, q) == 1 && Fourth(-1, q) == 1;
    SecantOnGrid(-1, q, Half(duration));
    FormOfOnes(Squared(Half(duration)), Square(-1, q), Fourth(-1, q));
  }

  lemma FormOfOnes(hh: real, a: int, b: int)
    requires a == 1 && b == 1
    ensures Form(hh, a, b) == FACTOR - 5.0 * hh + 6.0 * (hh * hh)
  {
  }

  /** The slope there is exactly Peak. */
  lemma MidpointIsPeak(duration: nat)
    requires duration >= 4
    ensures Slope(Before(duration), Before(duration) + 1, duration) == Peak(duration)
  {
    hide Secant, Square, Fourth, Half, Grid, Before, Form, Peak, Point, Squared;
    var p, q := Grid(Before(duration), duration), Grid(Before(duration) + 1, duration);
    MiddleGrid(duration);
    SteepestReached(q, duration);
  }

  /** How far the shape rises between two samples. */
  function Rise(i: nat, k: nat, duration: nat): real
    requires duration > 0
  {
    Shape(k as real / duration as real) - Shape(i as real / duration as real)
  }

  lemma RiseIsSlope(i: nat, k: nat, duration: nat)
    requires i <= k <= duration && duration >= 4
    ensures Rise(i, k, duration) == (k - i) as real / duration as real * Slope(i, k, duration)
  {
    hide Shape, Secant, Grid, Half, Point;
    var x, y := Point(Grid(i, duration), Half(duration)), Point(Grid(k, duration), Half(duration));
    GridPoint(i, duration);
    GridPoint(k, duration);
    SecantIsSlope(x, y);
    Gap(i, k, duration);
    assert y - x == (k - i) as real / duration as real;
  }

  lemma Gap(i: nat, k: nat, duration: nat)
    requires i <= k && duration > 0
    ensures (k - i) as real / duration as real == k as real / duration as real - i as real / duration as real
  {
  }

  // ----- The request -----

  /** Any two samples keep the requested average speed. */
  ghost predicate KeepsRequest(m: Move, speed: real, j: nat)
    requires m.Valid() && j < JOINTS
  {
    forall s: int, t: int | s <= t :: Abs(m.At(j, t) - m.At(j, s)) <= Travel(speed, (t - s) as real)
  }

  function Distance(m: Move, j: nat): real
    requires m.Valid() && j < JOINTS
  {
    Abs(m.target[j] - m.start[j])
  }

  function Clamped(m: Move, t: int): (k: nat)
    requires m.Valid()
    ensures k <= m.durationMs
  {
    if t <= m.startMs then 0 else if t >= m.startMs + m.durationMs then m.durationMs else t - m.startMs
  }

  lemma AtClamped(m: Move, j: nat, t: int)
    requires m.Valid() && j < JOINTS && m.mode == Mit
    ensures m.At(j, t) == m.start[j] + (m.target[j] - m.start[j]) * Shape(Clamped(m, t) as real / m.durationMs as real)
  {
    hide Shape;
    assert Ratio(t - m.startMs, m.durationMs) == Clamped(m, t) as real / m.durationMs as real;
  }

  lemma ClampedOrder(m: Move, s: int, t: int)
    requires m.Valid() && s <= t
    ensures Clamped(m, s) <= Clamped(m, t) && Clamped(m, t) - Clamped(m, s) <= t - s
  {
  }

  lemma Fractions(i: nat, k: nat, duration: nat)
    requires i <= k <= duration && duration > 0
    ensures 0.0 <= i as real / duration as real <= k as real / duration as real <= 1.0
  {
    var d := duration as real;
    var u := 1.0 / d;
    assert u > 0.0 && d * u == 1.0;
    assert i as real / d == i as real * u && k as real / d == k as real * u;
    MulMono(i as real, k as real, u);
    MulMono(k as real, d, u);
  }

  /** A share of the duration covers that share of the travel the request allows. */
  lemma Share(distance: real, speed: real, d: real, gap: real, slope: real, peak: real, rise: real)
    requires distance >= 0.0 && d > 0.0 && gap >= 0.0 && slope <= peak && distance * peak <= Travel(speed, d) && rise == gap / d * slope
    ensures distance * rise <= Travel(speed, gap)
  {
    var q := gap / d;
    assert q * d == gap && q >= 0.0;
    MulMono(slope, peak, distance);
    assert distance * slope <= Travel(speed, d);
    MulMono(distance * slope, Travel(speed, d), q);
    TravelLinear(speed, d, q);
    assert distance * (q * slope) == q * (distance * slope);
  }

  lemma TravelGrows(speed: real, a: real, b: real)
    requires speed > 0.0 && a <= b
    ensures Travel(speed, a) <= Travel(speed, b)
  {
    MulMono(a, b, 30.0 * speed);
  }

  /** A simulated MIT move keeps the requested speed between every two samples if and only if its travel
      times the peak factor of its duration fits the travel the request allows in that time. */
  lemma MitKeepsRequestIff(m: Move, speed: real, j: nat)
    requires m.Valid() && m.durationMs >= 4 && j < JOINTS && m.mode == Mit && speed > 0.0
    ensures KeepsRequest(m, speed, j) <==> Distance(m, j) * Peak(m.durationMs) <= Travel(speed, m.durationMs as real)
  {
    if Distance(m, j) * Peak(m.durationMs) <= Travel(speed, m.durationMs as real) {
      forall s: int, t: int | s <= t
        ensures Abs(m.At(j, t) - m.At(j, s)) <= Travel(speed, (t - s) as real)
      {
        FittingKeeps(m, speed, j, s, t);
      }
    }
    if KeepsRequest(m, speed, j) { KeepingFits(m, speed, j); }
  }

  lemma FittingKeeps(m: Move, speed: real, j: nat, s: int, t: int)
    requires m.Valid() && m.durationMs >= 4 && j < JOINTS && m.mode == Mit && speed > 0.0 && s <= t
    requires Distance(m, j) * Peak(m.durationMs) <= Travel(speed, m.durationMs as real)
    ensures Abs(m.At(j, t) - m.At(j, s)) <= Travel(speed, (t - s) as real)
  {
    hide Slope, Peak, Travel, Clamped, Move.At, Shape, Abs;
    var i, k, d := Clamped(m, s), Clamped(m, t), m.durationMs;
    ClampedOrder(m, s, t);
    AtClamped(m, j, s);
    AtClamped(m, j, t);
    Fractions(i, k, d);
    ShapeBounds(i as real / d as real, k as real / d as real);
    RiseIsSlope(i, k, d);
    if i < k { SlopeAtMostPeak(i, k, d); }
    FittingStep(m.start[j], m.target[j], Shape(i as real / d as real), Shape(k as real / d as real), m.At(j, s), m.At(j, t),
                speed, d as real, (k - i) as real, (t - s) as real, Slope(i, k, d), Peak(d));
  }

  /** The arithmetic of one pair of samples. */
  lemma FittingStep(from: real, to: real, x: real, y: real, p: real, q: real,
                    speed: real, d: real, gap: real, total: real, slope: real, peak: real)
    requires x <= y && p == from + (to - from) * x && q == from + (to - from) * y
    requires speed > 0.0 && d > 0.0 && 0.0 <= gap <= total && y - x == gap / d * slope && (gap > 0.0 ==> slope <= peak)
    requires Abs(to - from) * peak <= Travel(speed, d)
    ensures Abs(q - p) <= Travel(speed, total)
  {
    MovedBy(from, to, x, y, p, q);
    AbsNonNegative(to - from);
    hide Travel, Abs;
    if gap > 0.0 {
      Share(Abs(to - from), speed, d, gap, slope, peak, y - x);
    } else {
      assert Travel(speed, 0 as real) == 0.0;
      assert Abs(to - from) * (y - x) == 0.0;
    }
    TravelGrows(speed, gap, total);
  }

  lemma KeepingFits(m: Move, speed: real, j: nat)
    requires m.Valid() && m.durationMs >= 4 && j < JOINTS && m.mode == Mit && speed > 0.0 && KeepsRequest(m, speed, j)
    ensures Distance(m, j) * Peak(m.durationMs) <= Travel(speed, m.durationMs as real)
  {
    hide KeepsRequest, Peak, Clamped, Abs, Move.At, Travel, Before, Shape;
    var d := m.durationMs;
    var i := Before(d);
    var s, t := m.startMs + i, m.startMs + i + 1;
    MiddleRise(d);
    InsideIsUnclamped(m, i);
    InsideIsUnclamped(m, i + 1);
    KeepsAt(m, speed, j, s, t);
    AtClamped(m, j, s);
    AtClamped(m, j, t);
    Fractions(i, i + 1, d);
    ShapeBounds(i as real / d as real, (i + 1) as real / d as real);
    KeepingStep(m.start[j], m.target[j], Shape(i as real / d as real), Shape((i + 1) as real / d as real), m.At(j, s), m.At(j, t),
                speed, d as real, Peak(d));
  }

  lemma KeepingStep(from: real, to: real, x: real, y: real, p: real, q: real, speed: real, d: real, peak: real)
    requires x <= y && p == from + (to - from) * x && q == from + (to - from) * y
    requires d > 0.0 && y - x == 1.0 / d * peak && Abs(q - p) <= Travel(speed, 1 as real)
    ensures Abs(to - from) * peak <= Travel(speed, d)
  {
    MovedBy(from, to, x, y, p, q);
    hide Travel, Abs;
    Unshare(Abs(to - from), speed, d, peak, y - x);
  }

  lemma InsideIsUnclamped(m: Move, k: nat)
    requires m.Valid() && k <= m.durationMs
    ensures Clamped(m, m.startMs + k) == k
  {
  }

  lemma KeepsAt(m: Move, speed: real, j: nat, s: int, t: int)
    requires m.Valid() && j < JOINTS && KeepsRequest(m, speed, j) && t == s + 1
    ensures Abs(m.At(j, t) - m.At(j, s)) <= Travel(speed, 1 as real)
  {
    hide Travel, Abs, Move.At;
    assert (t - s) as real == 1 as real;
  }

  lemma MiddleRise(duration: nat)
    requires duration >= 4
    ensures Before(duration) + 1 <= duration && Rise(Before(duration), Before(duration) + 1, duration) == 1.0 / duration as real * Peak(duration)
  {
    hide Rise, Slope, Peak;
    var i := Before(duration);
    RiseIsSlope(i, i + 1, duration);
    MidpointIsPeak(duration);
    assert (i + 1 - i) as real == 1.0;
  }

  lemma Unshare(distance: real, speed: real, d: real, peak: real, rise: real)
    requires d > 0.0 && rise == 1.0 / d * peak && distance * rise <= Travel(speed, 1 as real)
    ensures distance * peak <= Travel(speed, d)
  {
    var q := 1.0 / d;
    assert q * d == 1.0;
    MulMono(distance * rise, Travel(speed, 1.0), d);
    TravelLinear(speed, 1.0, d);
    assert d * (distance * (q * peak)) == (q * d) * (distance * peak);
  }
}
