/** The seven-joint common-progress trapezoid of User/sync_trajectory.c.

    A trajectory moves every joint by the same progress in [0, 1]. Progress rises at a constant
    acceleration, cruises, and falls symmetrically; the two limits are the tightest normalised
    joint limits. Arithmetic is over the reals; the square root is supplied by the caller. */
module SyncTrajectory {
  import opened Common

  const JOINTS: nat := 7
  const EPSILON := 0.000001

  datatype Status = Ok | InvalidLimit | InvalidSpeedPercent | InvalidTimeStep

  /** What a caller asks for, as passed in the five constant arrays and the percentage. */
  datatype Request = Request(
    start: seq<Float>, target: seq<Float>,
    maxVelocity: seq<Float>, maxAcceleration: seq<Float>,
    speedPercent: Float)
  {
    predicate Sized() {
      |start| == |target| == |maxVelocity| == |maxAcceleration| == JOINTS
    }

    predicate SpeedOk() {
      speedPercent.Finite? && 1.0 <= speedPercent.v <= 100.0
    }

    predicate LimitsOk()
      requires Sized()
    {
      forall j | 0 <= j < JOINTS ::
        && start[j].Finite? && target[j].Finite?
        && maxVelocity[j].Finite? && maxAcceleration[j].Finite?
        && maxVelocity[j].v > 0.0 && maxAcceleration[j].v > 0.0
    }

    predicate Valid() {
      Sized() && SpeedOk() && LimitsOk()
    }

    function Delta(j: nat): real
      requires Valid() && j < JOINTS
    {
      target[j].v - start[j].v
    }

    /** Only joints displaced by more than epsilon take part in the limit calculation. */
    predicate Moves(j: nat)
      requires Valid() && j < JOINTS
    {
      Abs(Delta(j)) > EPSILON
    }

    function Scale(): real
      requires Valid()
    {
      speedPercent.v / 100.0
    }

    predicate HasMotion()
      requires Valid()
    {
      exists j | 0 <= j < JOINTS :: Moves(j)
    }
  }

  /** A joint bound after global speed scaling. */
  function Scaled(r: Request, bounds: seq<Float>, j: nat): real
    requires r.Valid() && |bounds| == JOINTS && j < JOINTS && bounds[j].Finite?
  {
    Product(bounds[j].v, r.Scale())
  }

  /** Progress rate at which joint j would sit exactly on its scaled bound. */
  function Rate(r: Request, bounds: seq<Float>, j: nat): real
    requires r.Valid() && |bounds| == JOINTS && j < JOINTS && bounds[j].Finite? && r.Moves(j)
  {
    Quotient(Scaled(r, bounds, j), Abs(r.Delta(j)))
  }

  function Quotient(x: real, y: real): real
    requires y > 0.0
  {
    x / y
  }

  /** `limit` is the largest progress rate that keeps every moving joint inside `bounds`. */
  predicate Tightest(r: Request, bounds: seq<Float>, limit: real)
    requires r.Valid() && |bounds| == JOINTS && forall j | 0 <= j < JOINTS :: bounds[j].Finite?
  {
    && (forall j | 0 <= j < JOINTS && r.Moves(j) :: limit <= Rate(r, bounds, j))
    && (exists j | 0 <= j < JOINTS && r.Moves(j) :: limit == Rate(r, bounds, j))
  }

  /** The five derived constants of one trapezoid. */
  datatype Profile = Profile(accel: real, peak: real, ramp: real, cruise: real, total: real)
  {
    /** A symmetric trapezoid (or triangle, when cruise is zero) covering exactly distance one. */
    predicate Unit() {
      && accel > 0.0 && peak > 0.0 && ramp > 0.0 && cruise >= 0.0
      && peak == accel * ramp
      && total == 2.0 * ramp + cruise
      && accel * ramp * ramp + peak * cruise == 1.0
    }
  }

  /** Which of the two shapes sync_trajectory_start picks for given normalised limits. */
  predicate ChosenFor(p: Profile, velocityLimit: real, accelerationLimit: real) {
    && p.accel == accelerationLimit
    && p.Unit()
    && (if velocityLimit * velocityLimit >= accelerationLimit
        then p.cruise == 0.0 && p.peak * p.peak == accelerationLimit
        else p.peak == velocityLimit)
  }

  datatype Trajectory = Trajectory(
    start: seq<real>, delta: seq<real>, profile: Profile,
    elapsed: real, progress: real, active: bool)
  {
    predicate Valid() {
      && |start| == |delta| == JOINTS
      && 0.0 <= progress <= 1.0
      && (active ==> profile.Unit() && 0.0 <= elapsed < profile.total && progress == Progress(profile, elapsed))
    }
  }

  /** The profile evaluated directly at a time, independently of how it was reached. */
  function Progress(p: Profile, t: real): real {
    if t < p.ramp then Ramped(p.accel, t)
    else if t < p.ramp + p.cruise then Ramped(p.accel, p.ramp) + Product(p.peak, t - p.ramp)
    else if t < p.total then 1.0 - Ramped(p.accel, p.total - t)
    else 1.0
  }

  function Velocity(p: Profile, t: real): real {
    if t < p.ramp then Product(p.accel, t)
    else if t < p.ramp + p.cruise then p.peak
    else if t < p.total then Product(p.accel, p.total - t)
    else 0.0
  }

  /** The two nonlinear terms have names, so that proofs about control flow can hide them. */
  function Ramped(accel: real, t: real): real {
    0.5 * accel * t * t
  }

  function Product(x: real, y: real): real {
    x * y
  }

  /** State after one accepted step: sampling the profile at the clamped elapsed time. */
  function Stepped(tr: Trajectory, dt: real): Trajectory {
    if !tr.active then tr.(progress := 1.0)
    else
      var t := tr.elapsed + dt;
      tr.(elapsed := Min(t, tr.profile.total),
          progress := Progress(tr.profile, t),
          active := t < tr.profile.total)
  }

  /** Progress velocity reported by the same step. */
  function SteppedVelocity(tr: Trajectory, dt: real): real {
    if tr.active then Velocity(tr.profile, tr.elapsed + dt) else 0.0
  }

  function Position(tr: Trajectory, j: nat): real
    requires tr.Valid() && j < JOINTS
  {
    tr.start[j] + Product(tr.delta[j], tr.progress)
  }

  /** The static trajectory record, advanced in place. */
  class Motion {
    var start: array<real>
    var delta: array<real>
    var elapsed: real
    var accelerationSeconds: real
    var cruiseSeconds: real
    var totalSeconds: real
    var progress: real
    var progressAcceleration: real
    var peakProgressVelocity: real
    var active: bool

    ghost predicate Valid()
      reads this, start, delta
    {
      start != delta && start.Length == JOINTS && delta.Length == JOINTS && Model().Valid()
    }

    ghost function Model(): Trajectory
      reads this, start, delta
    {
      Trajectory(start[..], delta[..],
                 Profile(progressAcceleration, peakProgressVelocity, accelerationSeconds, cruiseSeconds, totalSeconds),
                 elapsed, progress, active)
    }

    constructor ()
      ensures Valid() && fresh(start) && fresh(delta) && !active
    {
      start := new real[JOINTS](_ => 0.0);
      delta := new real[JOINTS](_ => 0.0);
      elapsed, accelerationSeconds, cruiseSeconds, totalSeconds := 0.0, 0.0, 0.0, 0.0;
      progress, progressAcceleration, peakProgressVelocity := 0.0, 0.0, 0.0;
      active := false;
    }

    static method InputsAreValid(r: Request) returns (valid: bool)
      requires r.Sized()
      ensures valid <==> r.LimitsOk()
    {
      var j := 0;
      while j < JOINTS
        invariant 0 <= j <= JOINTS
        invariant forall i | 0 <= i < j ::
            && r.start[i].Finite? && r.target[i].Finite?
            && r.maxVelocity[i].Finite? && r.maxAcceleration[i].Finite?
            && r.maxVelocity[i].v > 0.0 && r.maxAcceleration[i].v > 0.0
      {
        if !(r.start[j].Finite? && r.target[j].Finite? && r.maxVelocity[j].Finite? && r.maxAcceleration[j].Finite?)
           || r.maxVelocity[j].v <= 0.0 || r.maxAcceleration[j].v <= 0.0
        {
          return false;
        }
        j := j + 1;
      }
      return true;
    }

    /** `root` is the square root the C library would return for the acceleration limit. */
    method Start(r: Request, root: real) returns (status: Status)
      requires Valid() && r.Sized()
      requires r.Valid() && r.HasMotion() ==> root > 0.0 && Tightest(r, r.maxAcceleration, Product(root, root))
      modifies this, start, delta
      ensures Valid() && start == old(start) && delta == old(delta)
      ensures status == if !r.SpeedOk() then InvalidSpeedPercent else if !r.LimitsOk() then InvalidLimit else Ok
      ensures status != Ok ==> Model() == old(Model())
      ensures status == Ok ==> forall j | 0 <= j < JOINTS :: start[j] == r.start[j].v && delta[j] == r.Delta(j)
      ensures status == Ok ==> elapsed == 0.0 && active == r.HasMotion() && progress == if active then 0.0 else 1.0
      ensures status == Ok && active ==>
                exists v, a :: Tightest(r, r.maxVelocity, v) && Tightest(r, r.maxAcceleration, a)
                               && ChosenFor(Model().profile, v, a)
    {
      hide Rate, Tightest, SmallestSoFar, Profile.Unit, ChosenFor, Triangle, Trapezoid, Product, Progress,
           Request.Scale, Request.HasMotion, Request.LimitsOk;
      if !r.SpeedOk() { return InvalidSpeedPercent; }
      var inputsValid := InputsAreValid(r);
      if !inputsValid { return InvalidLimit; }

      elapsed, accelerationSeconds, cruiseSeconds, totalSeconds := 0.0, 0.0, 0.0, 0.0;
      progress, progressAcceleration, peakProgressVelocity, active := 0.0, 0.0, 0.0, false;
      var velocityLimit, accelerationLimit := NormaliseLimits(r);
      if velocityLimit.None? {
        progress := 1.0;
        return Ok;
      }
      var v, a := velocityLimit.value, accelerationLimit.value;
      BothTightest(r, v, a, Product(root, root));
      ChoiceIsSound(v, a, root);
      var p := if Product(v, v) >= a then Triangle(a, root) else Trapezoid(v, a);
      progressAcceleration, peakProgressVelocity := p.accel, p.peak;
      accelerationSeconds, cruiseSeconds, totalSeconds := p.ramp, p.cruise, p.total;
      active := true;
      StartsAtZero(p, v, a);
      assert Model().profile == p;
      assert ChosenFor(Model().profile, v, a);
      return Ok;
    }

    /** Stores start and displacement of every joint and finds the two smallest normalised limits. */
    method NormaliseLimits(r: Request) returns (velocityLimit: Option<real>, accelerationLimit: Option<real>)
      requires start != delta && start.Length == JOINTS && delta.Length == JOINTS && r.Valid()
      modifies start, delta
      ensures forall j | 0 <= j < JOINTS :: start[j] == r.start[j].v && delta[j] == r.Delta(j)
      ensures SmallestSoFar(r, r.maxVelocity, JOINTS, velocityLimit)
      ensures SmallestSoFar(r, r.maxAcceleration, JOINTS, accelerationLimit)
      ensures velocityLimit.Some? == accelerationLimit.Some? == r.HasMotion()
    {
      hide Quotient, Product;
      var speedScale := r.speedPercent.v / 100.0;
      velocityLimit, accelerationLimit := None, None;
      var i := 0;
      while i < JOINTS
        modifies start, delta
        invariant 0 <= i <= JOINTS
        invariant forall j | 0 <= j < i :: start[j] == r.start[j].v && delta[j] == r.Delta(j)
        invariant SmallestSoFar(r, r.maxVelocity, i, velocityLimit)
        invariant SmallestSoFar(r, r.maxAcceleration, i, accelerationLimit)
      {
        start[i] := r.start[i].v;
        delta[i] := r.target[i].v - r.start[i].v;
        var magnitude := Abs(delta[i]);
        if magnitude > EPSILON {
          ExtendSmallest(r, r.maxVelocity, i, velocityLimit);
          ExtendSmallest(r, r.maxAcceleration, i, accelerationLimit);
          var jointVelocity := Quotient(Product(r.maxVelocity[i].v, speedScale), magnitude);
          var jointAcceleration := Quotient(Product(r.maxAcceleration[i].v, speedScale), magnitude);
          if velocityLimit.None? || jointVelocity < velocityLimit.value {
            velocityLimit := Some(jointVelocity);
          }
          if accelerationLimit.None? || jointAcceleration < accelerationLimit.value {
            accelerationLimit := Some(jointAcceleration);
          }
        }
        i := i + 1;
      }
    }

    method Step(timeStep: Float, positions: array<real>, velocities: array<real>)
      returns (status: Status, complete: bool)
      requires Valid() && positions.Length == JOINTS && velocities.Length == JOINTS
      requires positions != velocities && {start, delta} !! {positions, velocities}
      modifies this`elapsed, this`progress, this`active, positions, velocities
      ensures Valid()
      ensures status == if timeStep.Finite? && timeStep.v > 0.0 then Ok else InvalidTimeStep
      ensures status != Ok ==> Model() == old(Model()) && positions[..] == old(positions[..])
                               && velocities[..] == old(velocities[..])
      ensures status == Ok ==> Model() == Stepped(old(Model()), timeStep.v) && complete == !active
      ensures status == Ok ==> forall j | 0 <= j < JOINTS ::
                  && positions[j] == Position(Model(), j)
                  && velocities[j] == Product(delta[j], SteppedVelocity(old(Model()), timeStep.v))
    {
      hide Profile.Unit, Ramped, Product;
      complete := false;
      if timeStep.NotFinite? || timeStep.v <= 0.0 { return InvalidTimeStep, false; }
      var dt := timeStep.v;
      var progressVelocity := 0.0;
      ghost var before := Model();
      if before.active {
        ProgressInUnit(before.profile, elapsed + dt);
        var p := before.profile;
        assert 0.0 < p.ramp <= p.ramp + p.cruise <= p.total by { UnitFacts(p); }
      }
      if active {
        elapsed := elapsed + dt;
        if elapsed < accelerationSeconds {
          progress := Ramped(progressAcceleration, elapsed);
          progressVelocity := Product(progressAcceleration, elapsed);
        } else if elapsed < accelerationSeconds + cruiseSeconds {
          var cruiseElapsed := elapsed - accelerationSeconds;
          var rampDistance := Ramped(progressAcceleration, accelerationSeconds);
          progress := rampDistance + Product(peakProgressVelocity, cruiseElapsed);
          progressVelocity := peakProgressVelocity;
        } else if elapsed < totalSeconds {
          var remaining := totalSeconds - elapsed;
          progress := 1.0 - Ramped(progressAcceleration, remaining);
          progressVelocity := Product(progressAcceleration, remaining);
        } else {
          elapsed := totalSeconds;
          progress := 1.0;
          active := false;
        }
      } else {
        progress := 1.0;
      }
      assert Model() == Stepped(before, dt);
      EmitSetpoints(progressVelocity, positions, velocities);
      return Ok, !active;
    }

    method EmitSetpoints(progressVelocity: real, positions: array<real>, velocities: array<real>)
      requires Valid() && positions.Length == JOINTS && velocities.Length == JOINTS
      requires positions != velocities && {start, delta} !! {positions, velocities}
      modifies positions, velocities
      ensures forall j | 0 <= j < JOINTS ::
                && positions[j] == Position(Model(), j)
                && velocities[j] == Product(delta[j], progressVelocity)
    {
      hide Trajectory.Valid, Product;
      var j := 0;
      while j < JOINTS
        modifies positions, velocities
        invariant 0 <= j <= JOINTS
        invariant forall i | 0 <= i < j :: positions[i] == start[i] + Product(delta[i], progress)
                                           && velocities[i] == Product(delta[i], progressVelocity)
      {
        positions[j] := start[j] + Product(delta[j], progress);
        velocities[j] := Product(delta[j], progressVelocity);
        j := j + 1;
      }
    }
  }

  /** Loop accumulator: the smallest normalised bound among moving joints below `n`. */
  ghost predicate SmallestSoFar(r: Request, bounds: seq<Float>, n: nat, best: Option<real>)
    requires r.Valid() && n <= JOINTS && |bounds| == JOINTS && forall j | 0 <= j < JOINTS :: bounds[j].Finite?
  {
    && (best.None? <==> forall j | 0 <= j < n :: !r.Moves(j))
    && (best.Some? ==>
          && (forall j | 0 <= j < n && r.Moves(j) :: best.value <= Rate(r, bounds, j))
          && (exists j | 0 <= j < n && r.Moves(j) :: best.value == Rate(r, bounds, j)))
  }

  lemma ExtendSmallest(r: Request, bounds: seq<Float>, n: nat, best: Option<real>)
    requires r.Valid() && n < JOINTS && |bounds| == JOINTS && forall j | 0 <= j < JOINTS :: bounds[j].Finite?
    requires r.Moves(n) && SmallestSoFar(r, bounds, n, best)
    ensures var x := Rate(r, bounds, n);
            SmallestSoFar(r, bounds, n + 1, if best.None? || x < best.value then Some(x) else best)
  {
    hide Rate;
  }

  lemma SmallestIsTightest(r: Request, bounds: seq<Float>, limit: real)
    requires r.Valid() && |bounds| == JOINTS && forall j | 0 <= j < JOINTS :: bounds[j].Finite? && bounds[j].v > 0.0
    requires SmallestSoFar(r, bounds, JOINTS, Some(limit))
    ensures Tightest(r, bounds, limit) && limit > 0.0
  {
    var j :| 0 <= j < JOINTS && r.Moves(j) && limit == Rate(r, bounds, j);
    PositiveRate(bounds[j].v, r.Scale(), Abs(r.Delta(j)));
  }

  lemma BothTightest(r: Request, v: real, a: real, b: real)
    requires r.Valid() && SmallestSoFar(r, r.maxVelocity, JOINTS, Some(v)) && SmallestSoFar(r, r.maxAcceleration, JOINTS, Some(a))
    requires Tightest(r, r.maxAcceleration, b)
    ensures Tightest(r, r.maxVelocity, v) && Tightest(r, r.maxAcceleration, a) && v > 0.0 && a == b && a > 0.0
  {
    hide Tightest, SmallestSoFar, Rate;
    SmallestIsTightest(r, r.maxVelocity, v);
    SmallestIsTightest(r, r.maxAcceleration, a);
    TightestUnique(r, r.maxAcceleration, a, b);
  }

  lemma PositiveRate(bound: real, scale: real, magnitude: real)
    requires bound > 0.0 && scale > 0.0 && magnitude > 0.0
    ensures Quotient(Product(bound, scale), magnitude) > 0.0
  {
    assert bound * scale > 0.0;
  }

  lemma TightestUnique(r: Request, bounds: seq<Float>, a: real, b: real)
    requires r.Valid() && |bounds| == JOINTS && forall j | 0 <= j < JOINTS :: bounds[j].Finite?
    requires Tightest(r, bounds, a) && Tightest(r, bounds, b)
    ensures a == b
  {
  }

  function Triangle(a: real, root: real): Profile
    requires a > 0.0
  {
    Profile(a, root, root / a, 0.0, 2.0 * (root / a) + 0.0)
  }

  function Trapezoid(v: real, a: real): Profile
    requires v > 0.0 && a > 0.0
  {
    var cruise := (1.0 - v * v / a) / v;
    Profile(a, v, v / a, cruise, 2.0 * (v / a) + cruise)
  }

  lemma ChoiceIsSound(v: real, a: real, root: real)
    requires v > 0.0 && a > 0.0 && root > 0.0 && a == Product(root, root)
    ensures ChosenFor(if Product(v, v) >= a then Triangle(a, root) else Trapezoid(v, a), v, a)
  {
    if v * v >= a { TriangleIsUnit(root, a); } else { TrapezoidIsUnit(v, a); }
  }

  lemma StartsAtZero(p: Profile, v: real, a: real)
    requires ChosenFor(p, v, a)
    ensures p.Unit() && p.total > 0.0 && Progress(p, 0.0) == 0.0
  {
  }

  lemma TriangleIsUnit(root: real, a: real)
    requires root > 0.0 && a > 0.0 && a == root * root
    ensures Triangle(a, root).Unit()
  {
    var ramp := root / a;
    assert ramp * a == root;
    assert ramp * a == ramp * root * root;
    assert ramp * root == 1.0 by { Cancel(ramp * root, 1.0, root); }
    assert a * ramp * ramp == root * ramp;
  }

  lemma Cancel(x: real, y: real, k: real)
    requires k > 0.0 && x * k == y * k
    ensures x == y
  {
    assert (x - y) * k == 0.0;
  }

  lemma TrapezoidIsUnit(v: real, a: real)
    requires v > 0.0 && a > 0.0 && v * v < a
    ensures Trapezoid(v, a).Unit()
  {
    var ramp := v / a;
    var q := v * v / a;
    var cruise := (1.0 - q) / v;
    assert a * ramp == v;
    assert q * a == v * v;
    assert q < 1.0 by { DivBound(v * v, a, 1.0); }
    assert v * cruise == 1.0 - q;
    assert a * ramp * ramp == v * ramp == q;
    assert cruise >= 0.0;
  }

  // ----- The profile as a curve -----

  /** From s to t progress never decreases and rises by at most the peak rate times the time;
      the progress velocity changes by at most the acceleration times the time. */
  predicate Smooth(p: Profile, s: real, t: real) {
    && 0.0 <= Progress(p, t) - Progress(p, s) <= p.peak * (t - s)
    && Abs(Velocity(p, t) - Velocity(p, s)) <= p.accel * (t - s)
  }

  function Clamp(x: real, low: real, high: real): real {
    Max(low, Min(x, high))
  }

  /** The profile is smooth between any two times, in whatever phases they lie. */
  lemma CurveBounds(p: Profile, s: real, t: real)
    requires p.Unit() && 0.0 <= s <= t
    ensures Smooth(p, s, t)
  {
    hide Smooth;
    var m1, m2, m3 := Clamp(p.ramp, s, t), Clamp(p.ramp + p.cruise, s, t), Clamp(p.total, s, t);
    SamePhase(p, s, m1);
    SamePhase(p, m1, m2);
    SamePhase(p, m2, m3);
    SamePhase(p, m3, t);
    Chain(p, s, m1, m2);
    Chain(p, s, m2, m3);
    Chain(p, s, m3, t);
  }

  lemma Chain(p: Profile, s: real, m: real, t: real)
    requires s <= m <= t && Smooth(p, s, m) && Smooth(p, m, t)
    ensures Smooth(p, s, t)
  {
    hide Progress, Velocity;
    assert p.peak * (m - s) + p.peak * (t - m) == p.peak * (t - s);
    assert p.accel * (m - s) + p.accel * (t - m) == p.accel * (t - s);
  }

  /** The phases agree where they meet, so each formula also holds at its closed right end. */
  lemma RampPhase(p: Profile, t: real)
    requires p.Unit() && 0.0 <= t <= p.ramp
    ensures Progress(p, t) == 0.5 * p.accel * t * t && Velocity(p, t) == p.accel * t
  {
    if t == p.ramp {
      assert p.accel * p.ramp * p.ramp + p.peak * p.cruise == 1.0;
      if p.cruise == 0.0 { FallPhase(p, t); }
    }
  }

  lemma CruisePhase(p: Profile, t: real)
    requires p.Unit() && p.ramp <= t <= p.ramp + p.cruise
    ensures Progress(p, t) == 0.5 * p.accel * p.ramp * p.ramp + p.peak * (t - p.ramp) && Velocity(p, t) == p.peak
  {
    if t == p.ramp + p.cruise { FallPhase(p, t); }
  }

  lemma FallPhase(p: Profile, t: real)
    requires p.Unit() && p.ramp + p.cruise <= t <= p.total
    ensures Progress(p, t) == 1.0 - 0.5 * p.accel * (p.total - t) * (p.total - t)
    ensures Velocity(p, t) == p.accel * (p.total - t)
    ensures t == p.ramp + p.cruise ==> && Progress(p, t) == 0.5 * p.accel * p.ramp * p.ramp + p.peak * p.cruise
                                       && Velocity(p, t) == p.peak
  {
    if t == p.ramp + p.cruise { assert p.total - t == p.ramp; }
  }

  lemma SamePhase(p: Profile, s: real, t: real)
    requires p.Unit() && 0.0 <= s <= t
    requires var c := p.ramp + p.cruise;
             s == t || t <= p.ramp || (p.ramp <= s && t <= c) || (c <= s && t <= p.total) || p.total <= s
    ensures Smooth(p, s, t)
  {
    if t <= p.ramp {
      SmoothRamp(p, s, t);
    } else if p.ramp <= s && t <= p.ramp + p.cruise {
      SmoothCruise(p, s, t);
    } else if p.ramp + p.cruise <= s && t <= p.total {
      SmoothFall(p, s, t);
    } else if p.total <= s {
      assert Progress(p, s) == 1.0 == Progress(p, t) && Velocity(p, s) == 0.0 == Velocity(p, t);
      assert p.peak * (t - s) >= 0.0 && p.accel * (t - s) >= 0.0;
    }
  }

  lemma UnitFacts(p: Profile)
    requires p.Unit()
    ensures p.accel > 0.0 && p.peak > 0.0 && p.ramp > 0.0 && p.cruise >= 0.0
    ensures p.peak == p.accel * p.ramp && p.total == 2.0 * p.ramp + p.cruise
  {
  }

  lemma SmoothRamp(p: Profile, s: real, t: real)
    requires p.Unit() && 0.0 <= s <= t <= p.ramp
    ensures Smooth(p, s, t)
  {
    hide Profile.Unit, Progress, Velocity;
    RampPhase(p, s);
    RampPhase(p, t);
    UnitFacts(p);
    SmoothParts(p, s, t, s, t);
  }

  lemma SmoothCruise(p: Profile, s: real, t: real)
    requires p.Unit() && p.ramp <= s <= t <= p.ramp + p.cruise
    ensures Smooth(p, s, t)
  {
    CruisePhase(p, s);
    CruisePhase(p, t);
    hide Progress, Velocity;
    assert p.peak * (t - p.ramp) - p.peak * (s - p.ramp) == p.peak * (t - s) >= 0.0;
    assert p.accel * (t - s) >= 0.0;
  }

  lemma SmoothFall(p: Profile, s: real, t: real)
    requires p.Unit() && p.ramp + p.cruise <= s <= t <= p.total
    ensures Smooth(p, s, t)
  {
    hide Profile.Unit, Progress, Velocity;
    FallPhase(p, s);
    FallPhase(p, t);
    UnitFacts(p);
    SmoothParts(p, s, t, p.total - t, p.total - s);
  }

  /** Two points u <= w of one parabola, t - s apart, whichever way it is run through. */
  lemma SmoothParts(p: Profile, s: real, t: real, u: real, w: real)
    requires p.accel > 0.0 && 0.0 <= u <= w <= p.ramp && w - u == t - s && p.peak == p.accel * p.ramp
    requires Progress(p, t) - Progress(p, s) == 0.5 * p.accel * w * w - 0.5 * p.accel * u * u
    requires Abs(Velocity(p, t) - Velocity(p, s)) == Abs(p.accel * w - p.accel * u)
    ensures Smooth(p, s, t)
  {
    hide Progress, Velocity;
    Parabola(p.accel, u, w, p.ramp);
    assert p.accel * p.ramp * (w - u) == p.peak * (t - s);
  }

  lemma Parabola(a: real, s: real, t: real, ramp: real)
    requires a > 0.0 && 0.0 <= s <= t <= ramp
    ensures 0.0 <= 0.5 * a * t * t - 0.5 * a * s * s <= a * ramp * (t - s)
    ensures a * t - a * s == a * (t - s) >= 0.0
  {
    var d := a * (t - s);
    assert d >= 0.0;
    assert 0.5 * a * t * t - 0.5 * a * s * s == d * (0.5 * (t + s));
    assert d * (0.5 * (t + s)) <= d * ramp;
    assert d * ramp == a * ramp * (t - s);
  }

  lemma ProgressInUnit(p: Profile, t: real)
    requires p.Unit() && 0.0 <= t
    ensures 0.0 <= Progress(p, t) <= 1.0
  {
    CurveBounds(p, 0.0, t);
    RampPhase(p, 0.0);
    if t < p.total { CurveBounds(p, t, p.total); }
    FallPhase(p, p.total);
  }

  // ----- Joint limits -----

  /** The chosen profile keeps every moving joint inside its scaled speed and acceleration. */
  lemma ProfileRespectsJoint(r: Request, p: Profile, v: real, a: real, j: nat)
    requires r.Valid() && j < JOINTS && r.Moves(j)
    requires Tightest(r, r.maxVelocity, v) && Tightest(r, r.maxAcceleration, a) && ChosenFor(p, v, a)
    ensures Product(Abs(r.Delta(j)), p.peak) <= Scaled(r, r.maxVelocity, j)
    ensures Product(Abs(r.Delta(j)), p.accel) <= Scaled(r, r.maxAcceleration, j)
  {
    hide Profile.Unit;
    TightestPositive(r, r.maxVelocity, v);
    PeakWithinLimit(p, v, a);
    hide ChosenFor;
    var d := Abs(r.Delta(j));
    hide Quotient, Product;
    WithinBound(d, Scaled(r, r.maxVelocity, j), p.peak);
    WithinBound(d, Scaled(r, r.maxAcceleration, j), a);
  }

  lemma PeakWithinLimit(p: Profile, v: real, a: real)
    requires v > 0.0 && ChosenFor(p, v, a)
    ensures p.peak <= v && p.accel == a
  {
    if p.peak > v { SquareOrder(v, p.peak); }
  }

  lemma WithinBound(d: real, bound: real, x: real)
    requires d > 0.0
    ensures x <= Quotient(bound, d) <==> Product(d, x) <= bound
  {
    DivBound(bound, d, x);
  }

  lemma SquareOrder(x: real, y: real)
    requires 0.0 < x < y
    ensures x * x < y * y
  {
    assert x * (y - x) > 0.0 && y * (y - x) > 0.0;
  }

  lemma TightestPositive(r: Request, bounds: seq<Float>, limit: real)
    requires r.Valid() && |bounds| == JOINTS && forall j | 0 <= j < JOINTS :: bounds[j].Finite? && bounds[j].v > 0.0
    requires Tightest(r, bounds, limit)
    ensures limit > 0.0
  {
    var j :| 0 <= j < JOINTS && r.Moves(j) && limit == Rate(r, bounds, j);
    PositiveRate(bounds[j].v, r.Scale(), Abs(r.Delta(j)));
  }

  /** Any two consecutive samples of a moving joint differ by at most its scaled limits times the
      time step, whatever phase boundaries the step crosses, the final clamp included. */
  lemma ConsecutiveSamples(r: Request, tr: Trajectory, v: real, a: real, dt: real, j: nat)
    requires r.Valid() && j < JOINTS && r.Moves(j) && dt > 0.0
    requires Tightest(r, r.maxVelocity, v) && Tightest(r, r.maxAcceleration, a)
    requires tr.Valid() && tr.active && tr.delta[j] == r.Delta(j) && ChosenFor(tr.profile, v, a)
    ensures var next := Stepped(tr, dt);
            && next.Valid()
            && tr.progress <= next.progress
            && Abs(Position(next, j) - Position(tr, j)) <= Scaled(r, r.maxVelocity, j) * dt
            && Abs(Product(tr.delta[j], SteppedVelocity(tr, dt)) - Product(tr.delta[j], Velocity(tr.profile, tr.elapsed)))
               <= Scaled(r, r.maxAcceleration, j) * dt
  {
    hide Progress, Velocity, Product, Profile.Unit, Tightest, ChosenFor, Rate, Scaled, Smooth;
    var p := tr.profile;
    var t := tr.elapsed + dt;
    CurveBounds(p, tr.elapsed, t);
    ProgressInUnit(p, t);
    ProfileRespectsJoint(r, p, v, a, j);
    SmoothFacts(p, tr.elapsed, t, dt);
    assert p.total > 0.0;
    ScaledMove(r.Delta(j), Progress(p, tr.elapsed), Progress(p, t), p.peak, Scaled(r, r.maxVelocity, j), dt);
    ScaledMove(r.Delta(j), Velocity(p, tr.elapsed), Velocity(p, t), p.accel, Scaled(r, r.maxAcceleration, j), dt);
  }

  lemma SmoothFacts(p: Profile, s: real, t: real, dt: real)
    requires Smooth(p, s, t) && t == s + dt
    ensures Progress(p, s) <= Progress(p, t) && Abs(Progress(p, t) - Progress(p, s)) <= Product(p.peak, dt)
    ensures Abs(Velocity(p, t) - Velocity(p, s)) <= Product(p.accel, dt)
  {
    hide Progress, Velocity;
    assert t - s == dt;
  }

  lemma ScaledMove(delta: real, x: real, y: real, rate: real, limit: real, dt: real)
    requires dt > 0.0 && Abs(y - x) <= Product(rate, dt) && Product(Abs(delta), rate) <= limit
    ensures Abs(Product(delta, y) - Product(delta, x)) <= limit * dt
  {
    assert delta * y - delta * x == delta * (y - x);
    AbsProduct(delta, y - x);
    ScaledStep(Abs(delta), Abs(y - x), rate, limit, dt);
  }

  lemma ScaledStep(d: real, g: real, rate: real, limit: real, dt: real)
    requires d >= 0.0 && dt > 0.0 && g <= rate * dt && d * rate <= limit
    ensures d * g <= limit * dt
  {
    MulMono(g, rate * dt, d);
    MulMono(d * rate, limit, dt);
    assert d * (rate * dt) == d * rate * dt;
  }

  lemma AbsProduct(x: real, y: real)
    ensures Abs(x * y) == Abs(x) * Abs(y)
  {
    if x >= 0.0 && y >= 0.0 { assert x * y >= 0.0; }
    if x >= 0.0 && y < 0.0 { assert x * (-y) >= 0.0; }
    if x < 0.0 && y >= 0.0 { assert (-x) * y >= 0.0; }
    if x < 0.0 && y < 0.0 { assert (-x) * (-y) >= 0.0; }
  }

  // ----- Least duration -----

  /** Any rise, cruise and fall that covers distance one; the two ramps need not be equal. */
  datatype Rival = Rival(peak: real, rise: real, cruise: real, fall: real)
  {
    predicate Unit() {
      && peak > 0.0 && rise > 0.0 && fall > 0.0 && cruise >= 0.0
      && peak * (0.5 * rise + cruise + 0.5 * fall) == 1.0
    }

    function Total(): real {
      rise + cruise + fall
    }

    /** Peak and both slopes keep every moving joint inside its scaled limits. */
    predicate Respects(r: Request)
      requires r.Valid()
    {
      forall j | 0 <= j < JOINTS && r.Moves(j) ::
        && Product(Abs(r.Delta(j)), peak) <= Scaled(r, r.maxVelocity, j)
        && Product(Abs(r.Delta(j)), peak) <= Product(Scaled(r, r.maxAcceleration, j), rise)
        && Product(Abs(r.Delta(j)), peak) <= Product(Scaled(r, r.maxAcceleration, j), fall)
    }
  }

  /** The duration chosen is the least of any trapezoid or triangle, symmetric or not, that
      respects every moving joint; the chosen profile is itself such a rival. */
  lemma LeastDuration(r: Request, p: Profile, v: real, a: real, q: Rival)
    requires r.Valid()
    requires Tightest(r, r.maxVelocity, v) && Tightest(r, r.maxAcceleration, a) && ChosenFor(p, v, a)
    requires q.Unit() && q.Respects(r)
    ensures p.total <= q.Total()
    ensures var own := Rival(p.peak, p.ramp, p.cruise, p.ramp);
            own.Unit() && own.Respects(r) && own.Total() == p.total
  {
    hide Profile.Unit, ChosenFor, Rival.Unit, Rate, Scaled, Quotient, Request.Scale;
    TightestPositive(r, r.maxVelocity, v);
    TightestPositive(r, r.maxAcceleration, a);
    RivalWithinLimits(r, v, a, q);
    FasterIsShorter(p, v, a, q);
    OwnRival(r, p, v, a);
  }

  lemma RivalWithinLimits(r: Request, v: real, a: real, q: Rival)
    requires r.Valid() && q.Respects(r)
    requires Tightest(r, r.maxVelocity, v) && Tightest(r, r.maxAcceleration, a)
    ensures q.peak <= v && q.peak <= Product(a, q.rise) && q.peak <= Product(a, q.fall)
  {
    hide Quotient, Request.Scale, Product;
    var jv :| 0 <= jv < JOINTS && r.Moves(jv) && v == Rate(r, r.maxVelocity, jv);
    var ja :| 0 <= ja < JOINTS && r.Moves(ja) && a == Rate(r, r.maxAcceleration, ja);
    WithinBound(Abs(r.Delta(jv)), Scaled(r, r.maxVelocity, jv), q.peak);
    SlopeOf(Abs(r.Delta(ja)), Scaled(r, r.maxAcceleration, ja), q.peak, q.rise);
    SlopeOf(Abs(r.Delta(ja)), Scaled(r, r.maxAcceleration, ja), q.peak, q.fall);
  }

  lemma SlopeOf(d: real, n: real, peak: real, ramp: real)
    requires d > 0.0 && Product(d, peak) <= Product(n, ramp)
    ensures peak <= Product(Quotient(n, d), ramp)
  {
    var a := n / d;
    assert a * d == n;
    assert d * (a * ramp) == n * ramp;
    if peak > a * ramp { MulStrict(a * ramp, peak, d); }
  }

  lemma OwnRival(r: Request, p: Profile, v: real, a: real)
    requires r.Valid() && v > 0.0
    requires Tightest(r, r.maxVelocity, v) && Tightest(r, r.maxAcceleration, a) && ChosenFor(p, v, a)
    ensures var own := Rival(p.peak, p.ramp, p.cruise, p.ramp);
            own.Unit() && own.Respects(r) && own.Total() == p.total
  {
    hide Rate, Quotient, Request.Scale, Product, Scaled, Tightest;
    assert p.Unit() && p.accel == a;
    forall j | 0 <= j < JOINTS && r.Moves(j)
      ensures Product(Abs(r.Delta(j)), p.peak) <= Scaled(r, r.maxVelocity, j)
      ensures Product(Abs(r.Delta(j)), p.peak) <= Product(Scaled(r, r.maxAcceleration, j), p.ramp)
    {
      ProfileRespectsJoint(r, p, v, a, j);
      RampReaches(Abs(r.Delta(j)), p.accel, p.peak, p.ramp, Scaled(r, r.maxAcceleration, j));
    }
    assert p.peak * (0.5 * p.ramp + p.cruise + 0.5 * p.ramp) == p.peak * p.ramp + p.peak * p.cruise;
  }

  lemma RampReaches(d: real, accel: real, peak: real, ramp: real, bound: real)
    requires ramp > 0.0 && peak == accel * ramp && Product(d, accel) <= bound
    ensures Product(d, peak) <= Product(bound, ramp)
  {
    MulMono(d * accel, bound, ramp);
    assert d * peak == d * accel * ramp;
  }

  /** Distance one at peak w takes 1/w plus half the ramps, and each ramp takes at least w/a. */
  lemma FasterIsShorter(p: Profile, v: real, a: real, q: Rival)
    requires a > 0.0 && v > 0.0 && ChosenFor(p, v, a)
    requires q.Unit() && q.peak <= v && q.peak <= Product(a, q.rise) && q.peak <= Product(a, q.fall)
    ensures p.total <= q.Total()
  {
    hide ChosenFor, Profile.Unit, Rival.Unit, Product;
    var half := 0.5 * (q.rise + q.fall);
    RivalHalf(q, a, half);
    RivalPeak(q.peak, half, q.cruise, a);
    PeakIsLargest(p, v, a, q.peak);
    OwnTime(p, v, a);
    TotalMonotone(q.peak, p.peak, a, half + half + q.cruise, p.total, half, p.ramp);
  }

  lemma RivalHalf(q: Rival, a: real, half: real)
    requires q.Unit() && half == 0.5 * (q.rise + q.fall)
    requires q.peak <= Product(a, q.rise) && q.peak <= Product(a, q.fall)
    ensures q.peak > 0.0 && half > 0.0 && q.cruise >= 0.0
    ensures Product(q.peak, half + q.cruise) == 1.0 && q.peak <= Product(a, half)
  {
    assert a * half == 0.5 * (a * q.rise) + 0.5 * (a * q.fall);
    assert 0.5 * q.rise + q.cruise + 0.5 * q.fall == half + q.cruise;
  }

  lemma RivalPeak(w: real, half: real, cruise: real, a: real)
    requires w > 0.0 && half > 0.0 && cruise >= 0.0 && a > 0.0
    requires Product(w, half + cruise) == 1.0 && w <= Product(a, half)
    ensures Product(w, w) <= a && Product(w, half + half + cruise) == 1.0 + Product(w, half)
    ensures Product(w, w) <= Product(a, Product(w, half))
  {
    var x, y := w * half, w * cruise;
    assert x + y == 1.0 && y >= 0.0;
    assert w * w <= w * (a * half);
    assert w * (a * half) == a * x;
    assert a * x <= a;
  }

  lemma PeakIsLargest(p: Profile, v: real, a: real, w: real)
    requires a > 0.0 && v > 0.0 && ChosenFor(p, v, a) && 0.0 < w <= v && Product(w, w) <= a
    ensures w <= p.peak && Product(p.peak, p.peak) <= a
  {
    if w > p.peak { SquareOrder(p.peak, w); }
  }

  lemma OwnTime(p: Profile, v: real, a: real)
    requires a > 0.0 && ChosenFor(p, v, a)
    ensures Product(p.peak, p.total) == 1.0 + Product(p.peak, p.ramp) && p.peak == Product(a, p.ramp)
  {
    assert p.peak * p.total == 2.0 * (p.peak * p.ramp) + p.peak * p.cruise;
    assert p.peak * p.ramp == a * p.ramp * p.ramp;
  }

  /** With T(w) = 1/w + w/a and w <= u <= sqrt(a), T(u) <= T(w): compared after clearing w*u*a. */
  lemma TotalMonotone(w: real, u: real, a: real, tw: real, tu: real, half: real, ramp: real)
    requires 0.0 < w <= u && a > 0.0 && Product(u, u) <= a && u == Product(a, ramp)
    requires Product(w, tw) == 1.0 + Product(w, half) && Product(w, w) <= Product(a, Product(w, half))
    requires Product(u, tu) == 1.0 + Product(u, ramp)
    ensures tu <= tw
  {
    hide Product;
    ScaleTime(w, tw, half, a);
    ScaleTime(u, tu, ramp, a);
    Assoc(a, u, ramp);
    ClearedOrder(w, u, a, Product(a, tw), Product(a, tu));
    if tu > tw { MulStrict(tw, tu, a); }
  }

  lemma ScaleTime(w: real, t: real, half: real, a: real)
    requires Product(w, t) == 1.0 + Product(w, half)
    ensures Product(w, Product(a, t)) == a + Product(a, Product(w, half))
  {
    assert w * (a * t) == a * (w * t);
  }

  lemma Assoc(a: real, u: real, ramp: real)
    requires u == Product(a, ramp)
    ensures Product(u, u) == Product(a, Product(u, ramp))
  {
    assert a * (u * ramp) == u * (a * ramp);
  }

  lemma ClearedOrder(w: real, u: real, a: real, x: real, y: real)
    requires 0.0 < w <= u && Product(u, u) <= a
    requires Product(w, x) >= a + Product(w, w) && Product(u, y) == a + Product(u, u)
    ensures y <= x
  {
    var k := u * w;
    assert k * x >= u * a + k * w by { assert u * (w * x) >= u * (a + w * w); }
    assert k * y == w * a + k * u by { assert w * (u * y) == w * (a + u * u); }
    assert (u - w) * (a - k) >= 0.0 by { assert k <= u * u; }
    assert (u - w) * (a - k) == u * a + k * w - (w * a + k * u);
    assert k > 0.0;
    if y > x { MulStrict(x, y, k); }
  }

  lemma MulStrict(x: real, y: real, k: real)
    requires x < y && k > 0.0
    ensures Product(k, x) < Product(k, y)
  {
    assert k * (y - x) > 0.0;
  }

  // ----- Whole runs at a fixed period -----

  function Run(tr: Trajectory, dt: real, n: nat): Trajectory {
    if n == 0 then tr else Stepped(Run(tr, dt, n - 1), dt)
  }

  function Periods(n: nat, dt: real): real {
    n as real * dt
  }

  lemma NextPeriod(n: nat, dt: real)
    ensures Periods(n + 1, dt) == Periods(n, dt) + dt
  {
    assert (n + 1) as real == n as real + 1.0;
  }

  predicate Fresh(tr: Trajectory) {
    tr.Valid() && tr.active && tr.elapsed == 0.0
  }

  /** A freshly started trajectory stepped at a fixed period is active after n steps exactly when
      n periods are shorter than its duration; while it is, it sits on the profile at n periods. */
  lemma {:induction false} RunOnProfile(tr: Trajectory, dt: real, n: nat)
    requires Fresh(tr) && dt > 0.0
    ensures var s := Run(tr, dt, n);
            && s.Valid() && s.start == tr.start && s.delta == tr.delta && s.profile == tr.profile
            && (s.active <==> Periods(n, dt) < tr.profile.total)
            && (s.active ==> s.elapsed == Periods(n, dt))
            && (!s.active ==> s.progress == 1.0)
  {
    if n == 0 {
      assert Periods(n, dt) == 0.0;
    } else {
      RunOnProfile(tr, dt, n - 1);
      NextPeriod(n - 1, dt);
      hide Progress, Profile.Unit, Periods;
      var before := Run(tr, dt, n - 1);
      if before.active { ProgressInUnit(tr.profile, before.elapsed + dt); }
    }
  }

  /** At the first step n with n periods covering the duration, and at no earlier step, the
      trajectory completes: every joint is exactly on its target, with zero velocity. */
  lemma CompletesTogether(r: Request, tr: Trajectory, dt: real, n: nat)
    requires r.Valid() && Fresh(tr) && dt > 0.0 && n > 0
    requires forall j | 0 <= j < JOINTS :: tr.start[j] == r.start[j].v && tr.delta[j] == r.Delta(j)
    requires Periods(n - 1, dt) < tr.profile.total <= Periods(n, dt)
    ensures Run(tr, dt, n - 1).active && !Run(tr, dt, n).active && Run(tr, dt, n).Valid()
    ensures forall j | 0 <= j < JOINTS :: Position(Run(tr, dt, n), j) == r.target[j].v
    ensures SteppedVelocity(Run(tr, dt, n - 1), dt) == 0.0
  {
    RunOnProfile(tr, dt, n - 1);
    RunOnProfile(tr, dt, n);
    NextPeriod(n - 1, dt);
    hide Progress, Profile.Unit, Periods;
    assert Velocity(tr.profile, Periods(n, dt)) == 0.0;
  }

}
