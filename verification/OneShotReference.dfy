/** The reference a one-shot action follows: its duration is the least one that keeps every requested
    speed, its samples stay on the way and within the limits, so none of them is ever refused. */
module OneShotReference {
  import opened Common
  import opened OneShot
  import opened OneShotCompletion
  import Quintic

  /** The selected joints of an action about to move, as the duration arithmetic sees them. */
  function JointsOf(a: Action, e: Env): (r: seq<Quintic.Joint>)
    requires a.Valid() && e.Sized()
    ensures |r| == JOINTS
  {
    seq(JOINTS, j requires 0 <= j < JOINTS =>
      Quintic.Joint(j in a.command.mask, e.snapshot.joints[j].position, a.targets[j],
                    if j in a.command.mask && Speeds(a.command)[j] > 0.0 then Speeds(a.command)[j] else 1.0, 1.0))
  }

  predicate Moves(a: Action, limits: seq<Limits>) {
    a.Valid() && |limits| == JOINTS && a.command.Reference() && !Still(a.command) && Guards(a.command, limits)
  }

  lemma GuardedSpeed(a: Action, e: Env, j: nat)
    requires e.Sized() && Moves(a, e.limits) && j < JOINTS && j in a.command.mask
    ensures 0.0 < Speeds(a.command)[j] <= e.limits[j].MoveSpeed()
    ensures var joint := JointsOf(a, e)[j];
            joint.Valid() && joint.selected && joint.Seconds() == Seconds(Distance(a, e, j), Speeds(a.command)[j])
  {
    var speed := Speeds(a.command)[j];
    assert speed * 1.0 == speed;
  }

  /** Slowest bounds every selected joint, and is one of them or zero. */
  lemma {:induction false} SlowestIsLargest(a: Action, e: Env, j: nat)
    requires e.Sized() && a.Valid() && j <= JOINTS && forall i | j <= i < JOINTS && i in a.command.mask :: !Endless(a, e, i)
    ensures forall i | j <= i < JOINTS && i in a.command.mask :: TimeOf(a, e, i) <= Slowest(a, e, j)
    ensures Slowest(a, e, j) == 0.0 || exists i :: j <= i < JOINTS && i in a.command.mask && TimeOf(a, e, i) == Slowest(a, e, j)
    decreases JOINTS - j
  {
    hide Endless, TimeOf;
    if j < JOINTS { SlowestIsLargest(a, e, j + 1); }
  }

  /** The chosen duration covers every selected joint at its requested speed, and no shorter one does. */
  lemma SpanIsLeastCover(a: Action, e: Env)
    requires e.Sized() && Moves(a, e.limits) && SpanOf(a, e).Lasting?
    ensures var joints, us := JointsOf(a, e), SpanOf(a, e).us;
            Quintic.ValidJoints(joints) && Quintic.Covers(joints, us) && forall shorter: nat | Quintic.Covers(joints, shorter) :: us <= shorter
  {
    var joints, us, most := JointsOf(a, e), SpanOf(a, e).us, Slowest(a, e, 0);
    SlowestIsLargest(a, e, 0);
    Quintic.CeilIsLeast(most);
    assert Quintic.ValidJoints(joints);
    forall j | 0 <= j < JOINTS && joints[j].selected
      ensures joints[j].Seconds() * 1000000.0 == TimeOf(a, e, j)
    {
      GuardedSpeed(a, e, j);
    }
    hide Quintic.Joint.Seconds, TimeOf, Slowest, FirstEndless, Endless, Moves;
    forall shorter: nat | Quintic.Covers(joints, shorter)
      ensures us <= shorter
    {
      if most > 0.0 {
        var i :| 0 <= i < JOINTS && i in a.command.mask && TimeOf(a, e, i) == most;
        assert joints[i].selected;
        assert most <= shorter as real;
        assert Ceil(most) <= shorter;
      }
    }
  }

  /** Between any two samples of a started reference every selected joint keeps its requested speed on
      average and stays between where it was measured and its target. */
  lemma ReferenceKeepsSpeed(a: Action, e: Env, now: nat, j: nat, s: int, t: int)
    requires e.Sized() && Moves(a, e.limits) && SpanOf(a, e).Lasting? && j < JOINTS && j in a.command.mask && s <= t
    ensures var us := SpanOf(a, e).us; var b := Planned(a, e, now, us);
            && us > 0 && b.Valid()
            && Abs(Sampled(b, t)[j] - Sampled(b, s)[j]) <= Speeds(a.command)[j] * ((t - s) as real / 1000000.0)
            && Quintic.Between(e.snapshot.joints[j].position, Sampled(b, t)[j], a.targets[j])
  {
    hide SpanOf, Quintic.Shape, Quintic.Ratio, Guards, Abs, Quintic.Between, Sampled, Quintic.Sample, JointsOf, Quintic.Covers;
    var us, joints := SpanOf(a, e).us, JointsOf(a, e);
    SpanIsLeastCover(a, e);
    CoversIsPositive(joints, us);
    GuardedSpeed(a, e, j);
    JointFacts(a, e, j);
    Quintic.AverageSpeedWithinRequest(joints, us, j, s - now, t - now);
    SampledIsSample(a, e, now, us, j, s);
    SampledIsSample(a, e, now, us, j, t);
    assert (t - now) - (s - now) == t - s;
  }

  lemma CoversIsPositive(joints: seq<Quintic.Joint>, us: nat)
    requires Quintic.ValidJoints(joints) && Quintic.Covers(joints, us)
    ensures us > 0
  {
  }

  lemma JointFacts(a: Action, e: Env, j: nat)
    requires e.Sized() && Moves(a, e.limits) && j < JOINTS && j in a.command.mask
    ensures var joint := JointsOf(a, e)[j];
            joint.start == e.snapshot.joints[j].position && joint.target == a.targets[j] && joint.speed * joint.ratio == Speeds(a.command)[j]
  {
    GuardedSpeed(a, e, j);
    assert Speeds(a.command)[j] * 1.0 == Speeds(a.command)[j];
  }

  lemma SampledIsSample(a: Action, e: Env, now: nat, us: nat, j: nat, at: int)
    requires a.Valid() && e.Sized() && us > 0 && j < JOINTS && j in a.command.mask
    ensures Planned(a, e, now, us).Valid()
    ensures Sampled(Planned(a, e, now, us), at)[j] == Quintic.Sample(JointsOf(a, e)[j], at - now, us)
  {
    hide Quintic.Shape, Quintic.Ratio;
    var b, joint := Planned(a, e, now, us), JointsOf(a, e)[j];
    var x := Quintic.Shape(Fraction(b.plan, at));
    assert joint.End() == a.targets[j] == b.targets[j] && joint.start == b.plan.starts[j];
    SameLerp(b.plan.starts[j], b.targets[j], x, joint.start, joint.End(), Quintic.Shape(Quintic.Ratio(at - now, us)));
    hide Quintic.Joint.End, JointsOf, Planned;
  }

  lemma SameLerp(a: real, b: real, x: real, c: real, d: real, y: real)
    requires a == c && b == d && x == y
    ensures a + (b - a) * x == c + (d - c) * y
  {
  }

  // ----- Samples fit the frames -----

  lemma SlopeAtMostFactor(u: real)
    ensures 0.0 <= Slope(u) <= Quintic.FACTOR
  {
    if 0.0 < u < 1.0 {
      BumpIsSquare(u);
      BumpIsSmall(u);
      SmallSquare(u * (1.0 - u));
    }
  }

  lemma BumpIsSmall(u: real)
    requires 0.0 < u < 1.0
    ensures 0.0 <= u * (1.0 - u) <= 0.25
  {
    SquareAtLeast(0.5 - u);
    assert (0.5 - u) * (0.5 - u) == 0.25 - u * (1.0 - u);
  }

  lemma SmallSquare(w: real)
    requires 0.0 <= w <= 0.25
    ensures 0.0 <= 30.0 * (w * w) <= Quintic.FACTOR
  {
    SquareAtLeast(w);
    MulMono(w, 0.25, w);
    assert w * w <= 0.25 * w <= 0.0625;
  }

  lemma BumpIsSquare(u: real)
    ensures 30.0 * u * u - 60.0 * u * u * u + 30.0 * u * u * u * u == 30.0 * ((u * (1.0 - u)) * (u * (1.0 - u)))
  {
    var uu := u * u;
    assert u * (1.0 - u) == u - uu;
    assert (u - uu) * (u - uu) == uu - 2.0 * (u * uu) + uu * uu;
    assert 30.0 * u * u == 30.0 * uu && 60.0 * u * u * u == 60.0 * (u * uu) && 30.0 * u * u * u * u == 30.0 * (uu * uu);
  }

  lemma SquareAtLeast(x: real)
    ensures x * x >= 0.0
  {
    if x < 0.0 { assert (-x) * (-x) >= 0.0; }
  }

  /** The sampled velocity of a selected joint never exceeds its requested speed. */
  lemma VelocityWithinRequest(a: Action, e: Env, now: nat, j: nat, at: int)
    requires e.Sized() && Moves(a, e.limits) && SpanOf(a, e).Lasting? && j < JOINTS && j in a.command.mask
    ensures var us := SpanOf(a, e).us; us > 0 && Planned(a, e, now, us).Valid()
    ensures Abs(SampledVelocities(Planned(a, e, now, SpanOf(a, e).us), at)[j]) <= Speeds(a.command)[j]
  {
    hide Slope, Fraction, Speeds, SpanOf, JointsOf, Guards, Distance, Seconds, Abs, SampledVelocities, Quintic.Covers, Quintic.Joint.Seconds;
    var us, joints := SpanOf(a, e).us, JointsOf(a, e);
    SpanIsLeastCover(a, e);
    CoversIsPositive(joints, us);
    GuardedSpeed(a, e, j);
    CoversJoint(joints, us, j);
    DistanceIs(a, e, j);
    VelocityIs(a, e, now, us, j, at);
    hide Planned;
    Bounded(a.targets[j] - e.snapshot.joints[j].position, Speeds(a.command)[j], us, Slope(Fraction(Planned(a, e, now, us).plan, at)),
            Fraction(Planned(a, e, now, us).plan, at), SampledVelocities(Planned(a, e, now, us), at)[j]);
  }

  lemma Bounded(delta: real, speed: real, us: nat, slope: real, u: real, velocity: real)
    requires speed > 0.0 && us > 0 && slope == Slope(u) && Seconds(Abs(delta), speed) * 1000000.0 <= us as real
    requires velocity == delta * (slope / (us as real / 1000000.0))
    ensures Abs(velocity) <= speed
  {
    SlopeAtMostFactor(u);
    hide Slope, Abs, Seconds;
    VelocityArithmetic(delta, speed, us as real, slope);
  }

  lemma DistanceIs(a: Action, e: Env, j: nat)
    requires a.Valid() && e.Sized() && j < JOINTS
    ensures Distance(a, e, j) == Abs(a.targets[j] - e.snapshot.joints[j].position)
  {
  }

  lemma VelocityIs(a: Action, e: Env, now: nat, us: nat, j: nat, at: int)
    requires a.Valid() && e.Sized() && us > 0 && j < JOINTS && j in a.command.mask
    ensures var b := Planned(a, e, now, us);
            b.Valid() && SampledVelocities(b, at)[j]
              == (a.targets[j] - e.snapshot.joints[j].position) * (Slope(Fraction(b.plan, at)) / (us as real / 1000000.0))
  {
    hide Slope, Fraction;
    var b := Planned(a, e, now, us);
    var x := Slope(Fraction(b.plan, at)) / (us as real / 1000000.0);
    assert b.plan.starts[j] == e.snapshot.joints[j].position && b.targets[j] == a.targets[j] && b.plan.durationUs == us;
    assert (b.targets[j] - b.plan.starts[j]) * x == (a.targets[j] - e.snapshot.joints[j].position) * x;
    hide Planned;
  }

  lemma CoversJoint(joints: seq<Quintic.Joint>, us: nat, j: nat)
    requires Quintic.ValidJoints(joints) && Quintic.Covers(joints, us) && j < JOINTS && joints[j].selected
    ensures joints[j].Seconds() * 1000000.0 <= us as real
  {
  }

  lemma VelocityArithmetic(delta: real, speed: real, us: real, slope: real)
    requires speed > 0.0 && us > 0.0 && 0.0 <= slope <= Quintic.FACTOR && Seconds(Abs(delta), speed) * 1000000.0 <= us
    ensures Abs(delta * (slope / (us / 1000000.0))) <= speed
  {
    var d, sec := Abs(delta), us / 1000000.0;
    var q := slope / sec;
    assert sec > 0.0 && q * sec == slope;
    assert q >= 0.0;
    var need := Quintic.FACTOR * d / speed;
    assert need * speed == Quintic.FACTOR * d && need <= sec;
    MulMono(slope, Quintic.FACTOR, d);
    MulMono(need, sec, speed);
    assert d * q * sec == d * (q * sec) == d * slope;
    assert d * q * sec <= speed * sec;
    if d * q > speed { MulStrictly(speed, d * q, sec); }
    AbsScaled(delta, q);
  }

  lemma AbsScaled(x: real, q: real)
    requires q >= 0.0
    ensures Abs(x * q) == Abs(x) * q
  {
    if x >= 0.0 { assert x * q >= 0.0; } else { assert (-x) * q >= 0.0; assert x * q == -((-x) * q); }
  }

  lemma MulStrictly(x: real, y: real, k: real)
    requires x < y && k > 0.0
    ensures x * k < y * k
  {
  }

  /** Measured within range, a guarded reference never lacks a frame: every sample at every time fits
      the limits of its motors. */
  lemma SamplesFit(a: Action, e: Env, now: nat, at: int)
    requires e.Sized() && Moves(a, e.limits) && SpanOf(a, e).Lasting? && a.targets == Goal(a.command)
    requires forall j | 0 <= j < JOINTS && j in a.command.mask :: Abs(e.snapshot.joints[j].position) <= e.limits[j].position
    ensures var b := Planned(a, e, now, SpanOf(a, e).us);
            b.Valid() && ReferenceFrames(b, e, at) == Frames(|a.command.mask|)
  {
    var c, us := a.command, SpanOf(a, e).us;
    var b := Planned(a, e, now, us);
    SpanIsLeastCover(a, e);
    CoversIsPositive(JointsOf(a, e), us);
    forall j | 0 <= j < JOINTS && j in c.mask
      ensures Abs(Sampled(b, at)[j]) <= e.limits[j].position && Abs(SampledVelocities(b, at)[j]) <= e.limits[j].mapping
    {
      ReferenceKeepsSpeed(a, e, now, j, at, at);
      VelocityWithinRequest(a, e, now, j, at);
      GuardedSpeed(a, e, j);
      assert Abs(a.targets[j]) <= e.limits[j].position;
      hide Sampled, SampledVelocities, SpanOf, Speeds, Moves, JointsOf;
      assert Abs(Sampled(b, at)[j]) <= e.limits[j].position;
    }
    hide Sampled, SampledVelocities, SpanOf, JointsOf;
    if c.kind == Mit {
      FramedIff(c.mask, MitFaults(e, Sampled(b, at), SampledVelocities(b, at), c.gains.torque.v));
    } else {
      FramedIff(c.mask, PosFaults(e, Sampled(b, at), Speeds(c)));
    }
  }

}
