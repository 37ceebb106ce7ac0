/** Motion of the host simulator: the time a joint move is given, and the joint positions and
    velocities it reports while its simulated clock advances. */
module HostMotion {
  import opened Common
  import opened Quintic

  datatype Mode = PosVel | Mit | Unknown

  datatype ArmState = Unaligned | Disabled | Ready | Moving | Fault

  datatype Move = Move(id: nat, startMs: nat, durationMs: nat, start: seq<real>, target: seq<real>, mode: Mode)
  {
    predicate Valid() {
      |start| == JOINTS && |target| == JOINTS && durationMs > 0
    }

    function Scale(now: int): real
      requires Valid()
    {
      var ratio := Ratio(now - startMs, durationMs);
      if mode == Mit then Shape(ratio) else ratio
    }

    /** Where joint j is reported at a time. */
    function At(j: nat, now: int): real
      requires Valid() && j < JOINTS
    {
      start[j] + (target[j] - start[j]) * Scale(now)
    }

    /** Constant velocity reported until the move ends, in degrees per second. */
    function Rate(j: nat): real
      requires Valid() && j < JOINTS
    {
      (target[j] - start[j]) / (durationMs as real / 1000.0)
    }
  }

  /** Full speed is thirty degrees per second; a request scales it. */
  function Travel(speed: real, ms: real): real {
    30.0 * speed * ms / 1000.0
  }

  /** A whole number of milliseconds in which every joint can reach its target at that speed. */
  predicate Reaches(from: seq<real>, to: seq<real>, speed: real, ms: int)
    requires |from| == |to|
  {
    ms >= 4 && forall j | 0 <= j < |from| :: Abs(to[j] - from[j]) <= Travel(speed, ms as real)
  }

  datatype Outcome = Accepted(durationMs: nat) | Busy | BadValue

  class Simulator {
    var nowMs: nat
    var armState: ArmState
    var controlMode: Mode
    var position: seq<real>
    var velocity: seq<real>
    var activeMove: Option<Move>
    var completed: seq<nat>

    ghost predicate Valid()
      reads this
    {
      && |position| == JOINTS && |velocity| == JOINTS
      && (activeMove.Some? ==> activeMove.value.Valid() && activeMove.value.startMs <= nowMs)
    }

    constructor ()
      ensures Valid() && armState == Unaligned && controlMode == Unknown && activeMove == None
      ensures nowMs == 0 && completed == []
      ensures position == seq(JOINTS, _ => 0.0) && velocity == seq(JOINTS, _ => 0.0)
    {
      nowMs, armState, controlMode := 0, Unaligned, Unknown;
      position, velocity := seq(JOINTS, _ => 0.0), seq(JOINTS, _ => 0.0);
      activeMove, completed := None, [];
    }

    /** Accepts a joint move; its duration is the least one that keeps the requested speed. */
    method MoveJoints(id: nat, target: seq<real>, speed: real, mode: Mode) returns (outcome: Outcome)
      requires Valid() && |target| == JOINTS
      modifies this
      ensures Valid() && nowMs == old(nowMs) && position == old(position) && velocity == old(velocity)
      ensures controlMode == old(controlMode) && completed == old(completed)
      ensures outcome.Busy? <==> old(armState != Ready || activeMove.Some?)
      ensures outcome.BadValue? <==> !outcome.Busy? && (!(0.01 <= speed <= 1.0) || mode != controlMode)
      ensures !outcome.Accepted? ==> armState == old(armState) && activeMove == old(activeMove)
      ensures outcome.Accepted? ==>
                && armState == Moving
                && activeMove == Some(Move(id, nowMs, outcome.durationMs, position, target, mode))
                && Reaches(position, target, speed, outcome.durationMs)
                && forall ms: int | Reaches(position, target, speed, ms) :: outcome.durationMs <= ms
    {
      if armState != Ready || activeMove.Some? { return Busy; }
      if !(0.01 <= speed <= 1.0) || mode != controlMode { return BadValue; }
      var farthest := 0.0;
      var j := 0;
      while j < JOINTS
        invariant 0 <= j <= JOINTS
        invariant forall i | 0 <= i < j :: Abs(target[i] - position[i]) <= farthest
        invariant farthest == 0.0 || exists i :: 0 <= i < j && Abs(target[i] - position[i]) == farthest
      {
        farthest := Max(farthest, Abs(target[j] - position[j]));
        j := j + 1;
      }
      var duration := Ceil(farthest / (30.0 * speed) * 1000.0);
      if duration < 4 { duration := 4; }
      DurationReaches(position, target, speed, farthest, duration);
      activeMove := Some(Move(id, nowMs, duration, position, target, mode));
      armState := Moving;
      return Accepted(duration);
    }

    /** Samples the active move at the current time, or lands it on its target. */
    method AdvanceMove()
      requires Valid()
      modifies this
      ensures Valid() && nowMs == old(nowMs) && controlMode == old(controlMode)
      ensures old(activeMove).None? ==>
                position == old(position) && velocity == old(velocity) && armState == old(armState)
                && activeMove == None && completed == old(completed)
      ensures var m := old(activeMove); m.Some? && nowMs - m.value.startMs < m.value.durationMs ==>
                && activeMove == m && armState == old(armState) && completed == old(completed)
                && position == seq(JOINTS, j requires 0 <= j < JOINTS => m.value.At(j, old(nowMs)))
                && velocity == seq(JOINTS, j requires 0 <= j < JOINTS => m.value.Rate(j))
      ensures var m := old(activeMove); m.Some? && nowMs - m.value.startMs >= m.value.durationMs ==>
                && activeMove == None && armState == Ready && completed == old(completed) + [m.value.id]
                && position == m.value.target && velocity == seq(JOINTS, _ => 0.0)
    {
      hide Quintic.Shape, Quintic.Ratio, Move.Rate, Move.Scale;
      if activeMove.None? { return; }
      var m := activeMove.value;
      var ended := nowMs - m.startMs >= m.durationMs;
      var j := 0;
      while j < JOINTS
        invariant 0 <= j <= JOINTS && |position| == |velocity| == JOINTS
        invariant forall i | 0 <= i < j :: position[i] == m.At(i, nowMs) && velocity[i] == if ended then 0.0 else m.Rate(i)
        invariant nowMs == old(nowMs) && controlMode == old(controlMode) && armState == old(armState)
        invariant activeMove == old(activeMove) && completed == old(completed)
      {
        position := position[j := m.At(j, nowMs)];
        velocity := velocity[j := if ended then 0.0 else m.Rate(j)];
        j := j + 1;
      }
      if ended {
        position, velocity := m.target, seq(JOINTS, _ => 0.0);
        armState, activeMove, completed := Ready, None, completed + [m.id];
      }
    }
  }

  // ----- Duration -----

  lemma DurationReaches(from: seq<real>, to: seq<real>, speed: real, farthest: real, duration: int)
    requires |from| == |to| && speed > 0.0
    requires duration == var d := Ceil(farthest / (30.0 * speed) * 1000.0); if d < 4 then 4 else d
    requires forall j | 0 <= j < |from| :: Abs(to[j] - from[j]) <= farthest
    requires farthest == 0.0 || exists j :: 0 <= j < |from| && Abs(to[j] - from[j]) == farthest
    ensures Reaches(from, to, speed, duration)
    ensures forall ms: int | Reaches(from, to, speed, ms) :: duration <= ms
  {
    hide Travel, Abs;
    CoversFarthest(farthest, speed, duration);
    forall ms: int | Reaches(from, to, speed, ms)
      ensures duration <= ms
    {
      CoversFarthest(farthest, speed, ms);
      TravelNonNegative(speed, ms);
    }
  }

  lemma TravelNonNegative(speed: real, ms: int)
    requires speed > 0.0 && ms >= 0
    ensures Travel(speed, ms as real) >= 0.0
  {
  }

  lemma CoversFarthest(farthest: real, speed: real, ms: int)
    requires speed > 0.0
    ensures farthest <= Travel(speed, ms as real) <==> Ceil(farthest / (30.0 * speed) * 1000.0) <= ms
  {
    var q := farthest / (30.0 * speed);
    CeilIsLeast(q * 1000.0);
    assert Ceil(q * 1000.0) <= ms <==> q * 1000.0 <= ms as real;
    hide Ceil;
    DivBound(-farthest, 30.0 * speed, -(ms as real / 1000.0));
    assert -farthest / (30.0 * speed) == -q;
    assert ms as real / 1000.0 * (30.0 * speed) == Travel(speed, ms as real);
  }

  // ----- The curve -----

  /** Whatever its mode, a simulated joint never leaves the stretch between start and target,
      and from the end of the move on it is exactly on target. */
  lemma StaysOnSegment(m: Move, j: nat, now: int)
    requires m.Valid() && j < JOINTS
    ensures Between(m.start[j], m.At(j, now), m.target[j])
    ensures now >= m.startMs + m.durationMs ==> m.At(j, now) == m.target[j]
    ensures now <= m.startMs ==> m.At(j, now) == m.start[j]
  {
    var r := Ratio(now - m.startMs, m.durationMs);
    RatioSteps(now - m.startMs, now - m.startMs, m.durationMs);
    ShapeBounds(r, r);
    assert Shape(0.0) == 0.0 && Shape(1.0) == 1.0;
    StaysBetween(m.start[j], m.target[j], m.Scale(now));
  }

  /** In position-velocity mode the average speed between any two samples keeps the request. */
  lemma PosVelKeepsSpeed(m: Move, speed: real, j: nat, s: int, t: int)
    requires m.Valid() && j < JOINTS && s <= t && m.mode != Mit && speed > 0.0
    requires Reaches(m.start, m.target, speed, m.durationMs)
    ensures Abs(m.At(j, t) - m.At(j, s)) <= Travel(speed, (t - s) as real)
  {
    hide Quintic.Shape, Quintic.Ratio, Travel, Abs;
    var a, b := Ratio(s - m.startMs, m.durationMs), Ratio(t - m.startMs, m.durationMs);
    RatioSteps(s - m.startMs, t - m.startMs, m.durationMs);
    MovedBy(m.start[j], m.target[j], a, b, m.At(j, s), m.At(j, t));
    AbsNonNegative(m.target[j] - m.start[j]);
    Proportional(Abs(m.target[j] - m.start[j]), speed, m.durationMs as real, (t - s) as real, b - a, 1.0);
  }

  /** In MIT mode it is within 1.875 times the request, because the move is timed for a straight line. */
  lemma MitKeepsScaledSpeed(m: Move, speed: real, j: nat, s: int, t: int)
    requires m.Valid() && j < JOINTS && s <= t && m.mode == Mit && speed > 0.0
    requires Reaches(m.start, m.target, speed, m.durationMs)
    ensures Abs(m.At(j, t) - m.At(j, s)) <= FACTOR * Travel(speed, (t - s) as real)
  {
    hide Quintic.Shape, Quintic.Ratio, Travel, Abs;
    var a, b := Ratio(s - m.startMs, m.durationMs), Ratio(t - m.startMs, m.durationMs);
    RatioSteps(s - m.startMs, t - m.startMs, m.durationMs);
    ShapeBounds(a, b);
    MovedBy(m.start[j], m.target[j], Shape(a), Shape(b), m.At(j, s), m.At(j, t));
    AbsNonNegative(m.target[j] - m.start[j]);
    Proportional(Abs(m.target[j] - m.start[j]), speed, m.durationMs as real, (t - s) as real, Shape(b) - Shape(a), FACTOR);
  }

  /** The request itself is not kept in MIT mode: thirty degrees at full speed is given one
      second, and a fifth of it around the middle covers more than a third of the way. */
  lemma MitExceedsRequest(m: Move)
    requires m == Move(1, 0, 1000, seq(JOINTS, _ => 0.0), seq(JOINTS, _ => 30.0), Mit)
    ensures m.Valid() && Reaches(m.start, m.target, 1.0, 1000) && !Reaches(m.start, m.target, 1.0, 999)
    ensures Abs(m.At(0, 600) - m.At(0, 400)) > 1.8 * Travel(1.0, 200.0)
  {
    assert Ratio(400, 1000) == 0.4 && Ratio(600, 1000) == 0.6;
    assert Shape(0.4) == 0.31744 && Shape(0.6) == 0.68256;
    assert m.At(0, 400) == 0.0 + 30.0 * 0.31744 && m.At(0, 600) == 0.0 + 30.0 * 0.68256;
    assert Abs(m.target[0] - m.start[0]) == 30.0;
  }

  lemma AbsNonNegative(x: real)
    ensures Abs(x) >= 0.0
  {
  }

  lemma Proportional(distance: real, speed: real, ms: real, gap: real, rise: real, k: real)
    requires distance >= 0.0 && speed > 0.0 && ms > 0.0 && gap >= 0.0 && k > 0.0
    requires distance <= Travel(speed, ms)
    requires 0.0 <= rise <= k * (gap / ms)
    ensures distance * rise <= k * Travel(speed, gap)
  {
    var q := gap / ms;
    assert q * ms == gap && q >= 0.0;
    MulMono(distance, Travel(speed, ms), rise);
    MulMono(rise, k * q, Travel(speed, ms));
    TravelLinear(speed, ms, q);
    assert Travel(speed, ms) * (k * q) == k * (q * Travel(speed, ms));
  }

  lemma TravelLinear(speed: real, ms: real, q: real)
    ensures q * Travel(speed, ms) == Travel(speed, q * ms)
  {
    assert q * (speed * ms) == speed * (q * ms);
  }
}
