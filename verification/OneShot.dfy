/** The one-shot action of App/aethor_app.c: a USB command that moves or holds motors in one
    bounded cycle of discovery, preflight disable, mode, clear, enable, move, hold and disable,
    with two cleanup states for every failure. Targets and speeds are validated against each
    motor's discovered limits; discovery, mode switching and the mode command frames are inputs;
    commands of the local panel are not modelled. */
module OneShot {
  import opened Common
  import Quintic

  const JOINTS: nat := 7
  const ACTION_TIMEOUT_US: nat := 500000
  const DISCOVERY_TIMEOUT_US: nat := 8000000
  const SETTLE_US: nat := 2200000
  const REFERENCE_GAP_US: nat := 50000
  const STILL := 0.05
  const ARRIVAL := 0.5 * 0.017453292519943295
  const KP_MAX := 500.0
  const KD_MAX := 5.0
  const U64_RANGE: nat := 0x1_0000_0000_0000_0000

  datatype State = Discovery | Preflight | ModeSwitch | ClearWait | EnableWait | MoveWait | HoldWait | DisableWait
                 | CleanupHold | CleanupDisable

  /** Position in the enumeration, which is the order of the cycle. */
  function Rank(s: State): nat {
    match s
    case Discovery => 1 case Preflight => 2 case ModeSwitch => 3 case ClearWait => 4 case EnableWait => 5
    case MoveWait => 6 case HoldWait => 7 case DisableWait => 8 case CleanupHold => 9 case CleanupDisable => 10
  }

  datatype Kind = Move | Mit | SetMode

  /** The MIT gains and feed-forward torque of a request. */
  datatype Gains = Gains(kp: Float, kd: Float, torque: Float)
  {
    predicate Ok() {
      kp.Finite? && kd.Finite? && torque.Finite? && 0.0 < kp.v <= KP_MAX && 0.0 < kd.v <= KD_MAX
    }
  }

  /** What discovery verified about one motor: its ranges and its fastest move. The POS_VEL builder
      asks for verified fields and positive values, the MIT builder for verified fields only. One
      flag serves both: discovery stores no range or speed that is not positive, and verifies such a
      field only when it stores it (App/Motor/motor_discovery.c:97-103 and 147-175). */
  datatype Limits = Limits(known: bool, position: real, mapping: real, fastest: real, torque: real)
  {
    predicate Valid() {
      known ==> position > 0.0 && mapping > 0.0 && fastest > 0.0 && torque > 0.0
    }

    function MoveSpeed(): real {
      Min(mapping, fastest)
    }
  }

  /** A USB request. `mit` selects the wire protocol; `bench` the relative bench scope. */
  datatype Command = Command(kind: Kind, mit: bool, hold: bool, bench: bool, mask: set<nat>,
                             targets: seq<Float>, speeds: seq<Float>, gains: Gains, holdUs: nat)
  {
    predicate Valid() {
      |targets| == |speeds| == JOINTS && mask != {} && forall j | j in mask :: j < JOINTS
    }

    /** Moves sampled from the quintic reference instead of sent as one endpoint. */
    predicate Reference() {
      kind == Mit || (kind == Move && bench)
    }
  }

  datatype Driver = Disabled | Enabled | OtherState

  datatype Sample = Sample(stampUs: nat, driver: Driver, faulty: bool, position: real, velocity: real)

  /** Feedback that is fresh enough, and the status of taking the snapshot. */
  datatype Snapshot = Snapshot(ok: bool, valid: set<nat>, joints: seq<Sample>)
  {
    predicate Sized() {
      |joints| == JOINTS
    }
  }

  datatype Stage = NoStage | Validate | DiscoveryStage | ModeStage | ClearStage | EnableStage | MotionStage | HoldStage | DisableStage

  datatype Error = NoError | Stale | FaultPresent | ActionFailed | Timeout | FeedbackTimeout | NotReady | PositionRange | SpeedRange | Runtime(code: nat)

  datatype Failure = Failure(stage: Stage, error: Error, motor: nat)

  datatype Code = Completed | Failed | Cancelled

  datatype Terminal = Terminal(code: Code, failure: Failure)

  datatype Built = Frames(count: nat) | Rejected(error: Error)

  datatype Span = Lasting(us: nat) | TooLong(motor: nat)

  datatype Progress = Running | Complete | Broken

  datatype Content = Nothing | DisableFrames | ClearFrames | EnableFrames | TargetFrames | HoldFrames

  /** The frame batch the pump empties one frame at a time. */
  datatype Batch = Batch(content: Content, count: nat, read: nat)
  {
    predicate Emptied() {
      read >= count
    }
  }

  /** What the rest of the firmware answers during one service call. */
  datatype Env = Env(snapshot: Snapshot, verified: set<nat>, discovery: Progress, modeSwitch: Progress,
                     begins: Option<Error>, limits: seq<Limits>,
                     clear: Built, enable: Built, disable: Built, emergency: Built)
  {
    predicate Sized() {
      snapshot.Sized() && |limits| == JOINTS && forall j | 0 <= j < JOINTS :: limits[j].Valid()
    }
  }

  /** When a reference started, how long it lasts, when it was last sampled, and where it starts. */
  datatype Plan = Plan(startUs: nat, durationUs: nat, referenceUs: nat, starts: seq<real>)

  datatype Action = Action(command: Command, state: State, deadlineUs: nat, batch: Batch, baseline: seq<nat>,
                           targets: seq<real>, failure: Failure, enabled: set<nat>, cleanup: set<nat>, plan: Plan)
  {
    predicate Valid() {
      command.Valid() && |baseline| == |targets| == |plan.starts| == JOINTS && cleanup <= command.mask
    }

    function Enter(next: State, content: Content, count: nat): Action {
      this.(state := next, batch := Batch(content, count, 0))
    }
  }

  /** A deadline is kept only when it is representable. */
  function Deadline(now: nat, interval: nat): Option<nat> {
    if now + interval >= U64_MAX then None else Some(now + interval)
  }

  function Stamps(s: Snapshot): (r: seq<nat>)
    requires s.Sized()
    ensures |r| == JOINTS
  {
    seq(JOINTS, j requires 0 <= j < JOINTS => s.joints[j].stampUs)
  }

  predicate HaveState(s: Snapshot, mask: set<nat>, driver: Driver)
    requires s.Sized()
  {
    mask <= s.valid && forall j | 0 <= j < JOINTS && j in mask :: s.joints[j].driver == driver
  }

  predicate FaultFree(s: Snapshot, mask: set<nat>)
    requires s.Sized()
  {
    mask <= s.valid && forall j | 0 <= j < JOINTS && j in mask :: !s.joints[j].faulty
  }

  /** Every selected joint reported again after its baseline. */
  predicate Advanced(s: Snapshot, mask: set<nat>, baseline: seq<nat>)
    requires s.Sized() && |baseline| == JOINTS
  {
    mask <= s.valid && forall j | 0 <= j < JOINTS && j in mask :: s.joints[j].stampUs > baseline[j]
  }

  predicate SafeForModeSwitch(s: Snapshot, mask: set<nat>)
    requires s.Sized()
  {
    mask <= s.valid && forall j | 0 <= j < JOINTS && j in mask ::
      s.joints[j].driver == Disabled && !s.joints[j].faulty && Abs(s.joints[j].velocity) <= STILL
  }

  predicate Arrived(a: Action, e: Env)
    requires a.Valid() && e.Sized()
  {
    a.command.mask <= e.snapshot.valid && forall j | 0 <= j < JOINTS && j in a.command.mask ::
      Abs(e.snapshot.joints[j].position - a.targets[j]) <= ARRIVAL && !e.snapshot.joints[j].faulty
  }

  // ----- Frames with a position -----

  function Zero(): (r: seq<real>)
    ensures |r| == JOINTS
  {
    seq(JOINTS, _ => 0.0)
  }

  /** Requested speeds; a MIT hold and a mode switch have none. */
  function Speeds(c: Command): (r: seq<real>)
    requires c.Valid()
    ensures |r| == JOINTS
  {
    seq(JOINTS, j requires 0 <= j < JOINTS =>
      if c.kind == SetMode || (c.kind == Mit && c.hold) || c.speeds[j].NotFinite? then 0.0 else c.speeds[j].v)
  }

  /** Why a position-velocity frame is refused; a move needs a positive speed. */
  function PosFault(l: Limits, position: real, speed: real, moves: bool): Option<Error> {
    if !l.known then Some(NotReady)
    else if Abs(position) > l.position then Some(PositionRange)
    else if speed < 0.0 || (moves && speed <= 0.0) || speed > l.MoveSpeed() then Some(SpeedRange)
    else None
  }

  function MitFault(l: Limits, position: real, velocity: real, torque: real): Option<Error> {
    if !l.known then Some(NotReady)
    else if Abs(position) > l.position || Abs(velocity) > l.mapping || Abs(torque) > l.torque then Some(ActionFailed)
    else None
  }

  /** The first selected joint with a fault. */
  function FirstFault(mask: set<nat>, faults: seq<Option<Error>>, j: nat): Option<(nat, Error)>
    requires |faults| == JOINTS && j <= JOINTS
    decreases JOINTS - j
  {
    if j == JOINTS then None
    else if j in mask && faults[j].Some? then Some((j, faults[j].value))
    else FirstFault(mask, faults, j + 1)
  }

  /** One frame for every selected joint, or the first fault. */
  function Framed(mask: set<nat>, faults: seq<Option<Error>>): Built
    requires |faults| == JOINTS
  {
    var f := FirstFault(mask, faults, 0);
    if f.None? then Frames(|mask|) else Rejected(f.value.1)
  }

  function PosFaults(e: Env, positions: seq<real>, speeds: seq<real>): (r: seq<Option<Error>>)
    requires e.Sized() && |positions| == |speeds| == JOINTS
    ensures |r| == JOINTS
  {
    seq(JOINTS, j requires 0 <= j < JOINTS => PosFault(e.limits[j], positions[j], speeds[j], false))
  }

  function MitFaults(e: Env, positions: seq<real>, velocities: seq<real>, torque: real): (r: seq<Option<Error>>)
    requires e.Sized() && |positions| == |velocities| == JOINTS
    ensures |r| == JOINTS
  {
    seq(JOINTS, j requires 0 <= j < JOINTS => MitFault(e.limits[j], positions[j], velocities[j], torque))
  }

  function PosFrames(c: Command, e: Env, positions: seq<real>, speeds: seq<real>): Built
    requires c.Valid() && e.Sized() && |positions| == |speeds| == JOINTS
  {
    Framed(c.mask, PosFaults(e, positions, speeds))
  }

  function MitFrames(c: Command, e: Env, positions: seq<real>, velocities: seq<real>): Built
    requires c.Valid() && e.Sized() && |positions| == |velocities| == JOINTS
  {
    if !c.gains.Ok() then Rejected(ActionFailed) else Framed(c.mask, MitFaults(e, positions, velocities, c.gains.torque.v))
  }

  /** Standing still at the given positions, in the protocol of the command. */
  function StandFrames(c: Command, e: Env, positions: seq<real>): Built
    requires c.Valid() && e.Sized() && |positions| == JOINTS
  {
    if c.mit then MitFrames(c, e, positions, Zero()) else PosFrames(c, e, positions, Zero())
  }

  function Positions(s: Snapshot): (r: seq<real>)
    requires s.Sized()
    ensures |r| == JOINTS
  {
    seq(JOINTS, j requires 0 <= j < JOINTS => s.joints[j].position)
  }

  // ----- The reference -----

  /** How far into the reference a time is. */
  function Fraction(p: Plan, at: int): real
    requires p.durationUs > 0
  {
    Quintic.Ratio(at - p.startUs, p.durationUs)
  }

  function Sampled(a: Action, at: int): (r: seq<real>)
    requires a.Valid() && a.plan.durationUs > 0
    ensures |r| == JOINTS
  {
    seq(JOINTS, j requires 0 <= j < JOINTS =>
      if j in a.command.mask then a.plan.starts[j] + (a.targets[j] - a.plan.starts[j]) * Quintic.Shape(Fraction(a.plan, at))
      else a.plan.starts[j])
  }

  /** Derivative of the shape; the sampler reports rest at both ends. */
  function Slope(u: real): real {
    if u <= 0.0 || u >= 1.0 then 0.0 else 30.0 * u * u - 60.0 * u * u * u + 30.0 * u * u * u * u
  }

  function SampledVelocities(a: Action, at: int): (r: seq<real>)
    requires a.Valid() && a.plan.durationUs > 0
    ensures |r| == JOINTS
  {
    seq(JOINTS, j requires 0 <= j < JOINTS =>
      if j in a.command.mask
      then (a.targets[j] - a.plan.starts[j]) * (Slope(Fraction(a.plan, at)) / (a.plan.durationUs as real / 1000000.0))
      else 0.0)
  }

  /** The frames of the sample at a time. */
  function ReferenceFrames(a: Action, e: Env, at: int): Built
    requires a.Valid() && e.Sized()
  {
    if a.plan.durationUs == 0 then Rejected(ActionFailed)
    else if a.command.kind == Mit then MitFrames(a.command, e, Sampled(a, at), SampledVelocities(a, at))
    else PosFrames(a.command, e, Sampled(a, at), Speeds(a.command))
  }

  /** Seconds a joint needs for its peak speed to stay at the requested one. */
  function Seconds(distance: real, speed: real): real
    requires speed != 0.0
  {
    Quintic.FACTOR * distance / speed
  }

  /** Microseconds an endpoint move of one joint may take. */
  function EndpointUs(distance: real, speed: real): real
    requires speed != 0.0
  {
    distance / speed * 1000000.0 + SETTLE_US as real
  }

  /** Distance of a joint from its target, as measured. */
  function Distance(a: Action, e: Env, j: nat): real
    requires a.Valid() && e.Sized() && j < JOINTS
  {
    Abs(a.targets[j] - e.snapshot.joints[j].position)
  }

  /** Whether the time of joint j cannot be represented. */
  predicate Endless(a: Action, e: Env, j: nat)
    requires a.Valid() && e.Sized() && j < JOINTS
  {
    var speed := Speeds(a.command)[j];
    if a.command.Reference() then speed == 0.0 || Seconds(Distance(a, e, j), speed) > Quintic.LimitSeconds()
    else speed <= 0.0 || EndpointUs(Distance(a, e, j), speed) >= U64_MAX as real
  }

  /** Microseconds joint j needs. */
  function TimeOf(a: Action, e: Env, j: nat): real
    requires a.Valid() && e.Sized() && j < JOINTS && !Endless(a, e, j)
  {
    var speed := Speeds(a.command)[j];
    if a.command.Reference() then Seconds(Distance(a, e, j), speed) * 1000000.0 else EndpointUs(Distance(a, e, j), speed)
  }

  function FirstEndless(a: Action, e: Env, j: nat): (k: Option<nat>)
    requires a.Valid() && e.Sized() && j <= JOINTS
    ensures k.None? ==> forall i | j <= i < JOINTS && i in a.command.mask :: !Endless(a, e, i)
    decreases JOINTS - j
  {
    if j == JOINTS then None
    else if j in a.command.mask && Endless(a, e, j) then Some(j)
    else FirstEndless(a, e, j + 1)
  }

  /** The time the slowest joint from j on needs, in microseconds. */
  function Slowest(a: Action, e: Env, j: nat): (us: real)
    requires a.Valid() && e.Sized() && j <= JOINTS && forall i | j <= i < JOINTS && i in a.command.mask :: !Endless(a, e, i)
    ensures us >= 0.0
    decreases JOINTS - j
  {
    if j == JOINTS then 0.0
    else if j !in a.command.mask then Slowest(a, e, j + 1)
    else
      assert !Endless(a, e, j);
      Max(TimeOf(a, e, j), Slowest(a, e, j + 1))
  }

  /** The chosen duration of a reference, or the timeout of an endpoint move. */
  function SpanOf(a: Action, e: Env): Span
    requires a.Valid() && e.Sized()
  {
    match FirstEndless(a, e, 0)
    case Some(j) => TooLong(j + 1)
    case None =>
      var us := Ceil(Slowest(a, e, 0));
      if a.command.Reference() && us < Quintic.MINIMUM_US then Lasting(Quintic.MINIMUM_US) else Lasting(us)
  }

  // ----- Endings and cleanup -----

  function FailedEnd(a: Action): (Action, Option<Terminal>) {
    (a, Some(Terminal(Failed, a.failure)))
  }

  function Recorded(a: Action, f: Failure): Action {
    if a.failure.stage == NoStage then a.(failure := f) else a
  }

  /** Arms the cleanup deadline, or ends the action when there is none. */
  function Armed(a: Action, now: nat): (Action, Option<Terminal>) {
    match Deadline(now, ACTION_TIMEOUT_US)
    case Some(d) => (a.(deadlineUs := d), None)
    case None => FailedEnd(a)
  }

  function CleanupDisabling(a: Action, built: Built, e: Env, now: nat): (Action, Option<Terminal>)
    requires e.Sized()
  {
    var b := a.Enter(CleanupDisable, DisableFrames, if built.Frames? then built.count else 0).(baseline := Stamps(e.snapshot));
    if built.Rejected? then FailedEnd(b) else Armed(b, now)
  }

  /** Holding is only safe where this action enabled every motor and all of them still report it. */
  predicate MayHold(a: Action, e: Env)
    requires a.Valid() && e.Sized()
  {
    && a.cleanup <= a.enabled && e.snapshot.ok
    && FaultFree(e.snapshot, a.cleanup) && HaveState(e.snapshot, a.cleanup, Enabled)
  }

  function Cleanup(a: Action, f: Failure, e: Env, now: nat): (Action, Option<Terminal>)
    requires a.Valid() && e.Sized()
  {
    var r := Recorded(a, f);
    var b := r.(cleanup := if r.failure.stage == Validate then {} else a.command.mask);
    if b.cleanup == {} then FailedEnd(b)
    else if b.failure.stage == DiscoveryStage || b.failure.stage == ModeStage then
      if e.emergency.Rejected? then FailedEnd(b) else CleanupDisabling(b, e.emergency, e, now)
    else
      var stand := StandFrames(a.command, e, Positions(e.snapshot));
      if MayHold(b, e) && stand.Frames? then Armed(b.Enter(CleanupHold, HoldFrames, stand.count), now)
      else CleanupDisabling(b, e.disable, e, now)
  }

  // ----- The cycle -----

  function StartHold(a: Action, e: Env, now: nat): (Action, Option<Terminal>)
    requires a.Valid() && e.Sized()
  {
    match StandFrames(a.command, e, a.targets)
    case Rejected(error) => Cleanup(a, Failure(HoldStage, error, 0), e, now)
    case Frames(count) =>
      var b := a.Enter(HoldWait, HoldFrames, count);
      match Deadline(now, if a.command.mit then a.command.holdUs else ACTION_TIMEOUT_US)
      case Some(d) => (b.(deadlineUs := d), None)
      case None => Cleanup(b, Failure(HoldStage, ActionFailed, 0), e, now)
  }

  function StartDisable(a: Action, e: Env, now: nat): (Action, Option<Terminal>)
    requires a.Valid() && e.Sized()
  {
    if e.disable.Rejected? then Cleanup(a, Failure(DisableStage, e.disable.error, 0), e, now)
    else
      var b := a.Enter(DisableWait, DisableFrames, e.disable.count).(baseline := Stamps(e.snapshot));
      match Deadline(now, ACTION_TIMEOUT_US)
      case Some(d) => (b.(deadlineUs := d), None)
      case None => Cleanup(b, Failure(DisableStage, ActionFailed, 0), e, now)
  }

  /** The plan of a reference from the measured positions. */
  function Planned(a: Action, e: Env, now: nat, us: nat): Action
    requires a.Valid() && e.Sized()
  {
    a.(plan := Plan(now, us, a.plan.referenceUs, Positions(e.snapshot)))
  }

  /** A sample that went out; only position moves watch its time. */
  function Referenced(a: Action, now: nat): Action {
    if a.command.kind == Move then a.(plan := a.plan.(referenceUs := now)) else a
  }

  function StartReference(a: Action, e: Env, now: nat, us: nat): (Action, Option<Terminal>)
    requires a.Valid() && e.Sized()
  {
    var b := Planned(a, e, now, us);
    match ReferenceFrames(b, e, now)
    case Rejected(_) => Cleanup(b, Failure(MotionStage, ActionFailed, 0), e, now)
    case Frames(count) =>
      var c := Referenced(b, now);
      match Deadline(now, us + SETTLE_US)
      case None => Cleanup(c, Failure(MotionStage, ActionFailed, 0), e, now)
      case Some(d) => (c.Enter(MoveWait, TargetFrames, count).(deadlineUs := d), None)
  }

  function StartEndpoint(a: Action, e: Env, now: nat, us: nat): (Action, Option<Terminal>)
    requires a.Valid() && e.Sized()
  {
    match Deadline(now, us)
    case None => Cleanup(a, Failure(MotionStage, ActionFailed, 0), e, now)
    case Some(d) =>
      match PosFrames(a.command, e, a.targets, Speeds(a.command))
      case Rejected(error) => Cleanup(a, Failure(MotionStage, error, 0), e, now)
      case Frames(count) => (a.Enter(MoveWait, TargetFrames, count).(deadlineUs := d), None)
  }

  function StartMotion(a: Action, e: Env, now: nat): (Action, Option<Terminal>)
    requires a.Valid() && e.Sized()
  {
    if !(a.command.mask <= e.snapshot.valid) then Cleanup(a, Failure(MotionStage, Stale, 0), e, now)
    else if a.command.kind == Mit && a.command.hold then StartHold(a, e, now)
    else match SpanOf(a, e)
      case TooLong(motor) => Cleanup(a, Failure(MotionStage, ActionFailed, motor), e, now)
      case Lasting(us) => if a.command.Reference() then StartReference(a, e, now, us) else StartEndpoint(a, e, now, us)
  }

  /** A MIT hold targets wherever the motors are when it is validated. */
  function Aimed(a: Action, e: Env): Action
    requires a.Valid() && e.Sized()
  {
    if a.command.kind == Mit && a.command.hold then
      a.(targets := seq(JOINTS, j requires 0 <= j < JOINTS =>
           if j in a.command.mask then e.snapshot.joints[j].position else a.targets[j]))
    else a
  }

  /** Faults of a position move, joint by joint: feedback first, then target and speed. */
  function MoveFaults(a: Action, e: Env): (r: seq<Option<Error>>)
    requires a.Valid() && e.Sized()
    ensures |r| == JOINTS
  {
    seq(JOINTS, j requires 0 <= j < JOINTS =>
      if j !in e.snapshot.valid then Some(Stale)
      else if e.snapshot.joints[j].faulty then Some(FaultPresent)
      else PosFault(e.limits[j], a.targets[j], Speeds(a.command)[j], true))
  }

  /** A MIT move needs known limits and a positive speed within them. */
  function SpeedFaults(a: Action, e: Env): (r: seq<Option<Error>>)
    requires a.Valid() && e.Sized()
    ensures |r| == JOINTS
  {
    seq(JOINTS, j requires 0 <= j < JOINTS =>
      var speed := Speeds(a.command)[j];
      if !e.limits[j].known || speed <= 0.0 || speed > e.limits[j].MoveSpeed() then Some(SpeedRange) else None)
  }

  /** What is wrong with the targets, if anything. */
  function Invalid(a: Action, e: Env): Option<Failure>
    requires a.Valid() && e.Sized()
  {
    match a.command.kind
    case SetMode => None
    case Move =>
      (match FirstFault(a.command.mask, MoveFaults(a, e), 0)
       case Some(f) => Some(Failure(Validate, f.1, f.0 + 1))
       case None => None)
    case Mit =>
      var slow := if a.command.hold then None else FirstFault(a.command.mask, SpeedFaults(a, e), 0);
      if slow.Some? then Some(Failure(Validate, slow.value.1, slow.value.0 + 1))
      else match MitFrames(a.command, e, a.targets, Speeds(a.command))
        case Rejected(error) => Some(Failure(Validate, error, 1))
        case Frames(_) => None
  }

  function ValidateTargets(a: Action, e: Env, now: nat): (Action, Option<Terminal>)
    requires a.Valid() && e.Sized()
  {
    if a.command.kind != Move && !SafeForModeSwitch(e.snapshot, a.command.mask) then
      Cleanup(a, Failure(Validate, ActionFailed, 1), e, now)
    else
      var b := Aimed(a, e);
      match Invalid(b, e)
      case Some(f) => Cleanup(b, f, e, now)
      case None =>
        if e.begins.Some? then Cleanup(b, Failure(ModeStage, e.begins.value, 0), e, now)
        else (b.(state := ModeSwitch, deadlineUs := now + ACTION_TIMEOUT_US), None)
  }

  function BeginPreflight(a: Action, e: Env, now: nat): (Action, Option<Terminal>)
    requires a.Valid() && e.Sized()
  {
    var b := a.(baseline := Stamps(e.snapshot));
    if e.emergency.Rejected? then Cleanup(b, Failure(Validate, e.emergency.error, 0), e, now)
    else
      var c := b.Enter(Preflight, DisableFrames, e.emergency.count);
      match Deadline(now, ACTION_TIMEOUT_US)
      case Some(d) => (c.(deadlineUs := d), None)
      case None => Cleanup(c, Failure(Validate, ActionFailed, 0), e, now)
  }

  function Prepare(a: Action, e: Env, now: nat): (Action, Option<Terminal>)
    requires a.Valid() && e.Sized()
  {
    if a.command.mask <= e.snapshot.valid && (a.command.kind == Move || SafeForModeSwitch(e.snapshot, a.command.mask))
    then ValidateTargets(a, e, now)
    else BeginPreflight(a, e, now)
  }

  // ----- Service, state by state -----

  predicate Expired(a: Action, now: nat) {
    a.deadlineUs != 0 && now >= a.deadlineUs
  }

  function InDiscovery(a: Action, e: Env, now: nat): (Action, Option<Terminal>)
    requires a.Valid() && e.Sized()
  {
    if e.discovery == Complete && a.command.mask <= e.verified then Prepare(a, e, now)
    else if e.discovery == Broken then Cleanup(a, Failure(DiscoveryStage, ActionFailed, 0), e, now)
    else if Expired(a, now) then Cleanup(a, Failure(DiscoveryStage, Timeout, 0), e, now)
    else (a, None)
  }

  function InPreflight(a: Action, e: Env, now: nat): (Action, Option<Terminal>)
    requires a.Valid() && e.Sized()
  {
    if a.batch.Emptied() && Advanced(e.snapshot, a.command.mask, a.baseline)
       && (HaveState(e.snapshot, a.command.mask, Disabled) || !FaultFree(e.snapshot, a.command.mask))
    then ValidateTargets(a, e, now)
    else if Expired(a, now) then Cleanup(a, Failure(Validate, FeedbackTimeout, 0), e, now)
    else (a, None)
  }

  function InModeSwitch(a: Action, e: Env, now: nat): (Action, Option<Terminal>)
    requires a.Valid() && e.Sized()
  {
    if e.modeSwitch == Complete then
      if a.command.kind == SetMode && a.command.bench then (a, Some(Terminal(Completed, a.failure)))
      else if e.clear.Rejected? then Cleanup(a, Failure(ClearStage, e.clear.error, 0), e, now)
      else
        var b := a.Enter(ClearWait, ClearFrames, e.clear.count).(baseline := Stamps(e.snapshot));
        match Deadline(now, ACTION_TIMEOUT_US)
        case Some(d) => (b.(deadlineUs := d), None)
        case None => Cleanup(b, Failure(ClearStage, ActionFailed, 0), e, now)
    else if e.modeSwitch == Broken then Cleanup(a, Failure(ModeStage, ActionFailed, 0), e, now)
    else if Expired(a, now) then Cleanup(a, Failure(ModeStage, Timeout, 0), e, now)
    else (a, None)
  }

  function InClearWait(a: Action, e: Env, now: nat): (Action, Option<Terminal>)
    requires a.Valid() && e.Sized()
  {
    if a.batch.Emptied() && Advanced(e.snapshot, a.command.mask, a.baseline) && FaultFree(e.snapshot, a.command.mask) then
      if e.enable.Rejected? then Cleanup(a, Failure(EnableStage, e.enable.error, 0), e, now)
      else
        var b := a.Enter(EnableWait, EnableFrames, e.enable.count).(baseline := Stamps(e.snapshot));
        match Deadline(now, ACTION_TIMEOUT_US)
        case Some(d) => (b.(deadlineUs := d), None)
        case None => Cleanup(b, Failure(EnableStage, ActionFailed, 0), e, now)
    else if Expired(a, now) then Cleanup(a, Failure(ClearStage, FeedbackTimeout, 0), e, now)
    else (a, None)
  }

  function InEnableWait(a: Action, e: Env, now: nat): (Action, Option<Terminal>)
    requires a.Valid() && e.Sized()
  {
    if a.batch.Emptied() && Advanced(e.snapshot, a.command.mask, a.baseline) && HaveState(e.snapshot, a.command.mask, Enabled) then
      StartMotion(a.(enabled := a.command.mask), e, now)
    else if Expired(a, now) then Cleanup(a, Failure(EnableStage, FeedbackTimeout, 0), e, now)
    else (a, None)
  }

  /** Unsigned 64-bit age of the plan. */
  function PlanAge(a: Action, now: nat): int {
    if now >= a.plan.startUs then now - a.plan.startUs else now - a.plan.startUs + U64_RANGE
  }

  predicate SenderStalled(a: Action, now: nat) {
    a.command.Reference() && a.command.kind == Move
    && (now < a.plan.referenceUs || now - a.plan.referenceUs > REFERENCE_GAP_US)
  }

  function InMoveWait(a: Action, e: Env, now: nat): (Action, Option<Terminal>)
    requires a.Valid() && e.Sized()
  {
    if SenderStalled(a, now) then Cleanup(a, Failure(MotionStage, Timeout, 0), e, now)
    else if Arrived(a, e) && (!a.command.Reference() || PlanAge(a, now) >= a.plan.durationUs) then StartHold(a, e, now)
    else if Expired(a, now) then Cleanup(a, Failure(MotionStage, Timeout, 0), e, now)
    else if !a.batch.Emptied() then (a, None)
    else if !a.command.Reference() then (a.(batch := a.batch.(read := 0)), None)
    else match ReferenceFrames(a, e, now)
      case Rejected(_) => Cleanup(a, Failure(MotionStage, ActionFailed, 0), e, now)
      case Frames(count) => (Referenced(a, now).(batch := Batch(TargetFrames, count, 0)), None)
  }

  function InHoldWait(a: Action, e: Env, now: nat): (Action, Option<Terminal>)
    requires a.Valid() && e.Sized()
  {
    if !a.command.mit then
      if a.batch.Emptied() then StartDisable(a, e, now)
      else if Expired(a, now) then Cleanup(a, Failure(HoldStage, Timeout, 0), e, now)
      else (a, None)
    else if Expired(a, now) then StartDisable(a, e, now)
    else if a.batch.Emptied() then (a.(batch := a.batch.(read := 0)), None)
    else (a, None)
  }

  function InDisableWait(a: Action, e: Env, now: nat): (Action, Option<Terminal>)
    requires a.Valid() && e.Sized()
  {
    if a.batch.Emptied() && Advanced(e.snapshot, a.command.mask, a.baseline) && HaveState(e.snapshot, a.command.mask, Disabled)
    then (a, Some(Terminal(Completed, a.failure)))
    else if Expired(a, now) then Cleanup(a, Failure(DisableStage, FeedbackTimeout, 0), e, now)
    else (a, None)
  }

  function InCleanupHold(a: Action, e: Env, now: nat): (Action, Option<Terminal>)
    requires a.Valid() && e.Sized()
  {
    if !a.batch.Emptied() && !Expired(a, now) then (a, None)
    else if e.disable.Rejected? then FailedEnd(a)
    else Armed(a.Enter(CleanupDisable, DisableFrames, e.disable.count).(baseline := Stamps(e.snapshot)), now)
  }

  function InCleanupDisable(a: Action, e: Env, now: nat): (Action, Option<Terminal>)
    requires a.Valid() && e.Sized()
  {
    if a.batch.Emptied() && Advanced(e.snapshot, a.cleanup, a.baseline) && HaveState(e.snapshot, a.cleanup, Disabled)
    then FailedEnd(a)
    else if Expired(a, now) then FailedEnd(a)
    else (a, None)
  }

  function Setup(a: Action, e: Env, now: nat): (Action, Option<Terminal>)
    requires a.Valid() && e.Sized()
  {
    match a.state
    case Discovery => InDiscovery(a, e, now)
    case Preflight => InPreflight(a, e, now)
    case ModeSwitch => InModeSwitch(a, e, now)
    case ClearWait => InClearWait(a, e, now)
    case EnableWait => InEnableWait(a, e, now)
    case MoveWait => InMoveWait(a, e, now)
    case HoldWait => InHoldWait(a, e, now)
    case DisableWait => InDisableWait(a, e, now)
    case CleanupHold => InCleanupHold(a, e, now)
    case CleanupDisable => InCleanupDisable(a, e, now)
  }

  // ----- Motor safety -----

  function GuardedStage(s: State): Option<Stage> {
    match s
    case EnableWait => Some(EnableStage) case MoveWait => Some(MotionStage)
    case HoldWait => Some(HoldStage) case DisableWait => Some(DisableStage)
    case _ => None
  }

  /** A bench position move must track its last sample: by half a degree, by feedback from the past. */
  predicate Tracks(a: Action, e: Env, j: nat, now: nat)
    requires a.Valid() && e.Sized() && j < JOINTS
  {
    var s := e.snapshot.joints[j];
    s.stampUs <= now && a.plan.durationUs > 0
    && Abs(s.position - Sampled(a, if s.stampUs > a.plan.referenceUs then a.plan.referenceUs else s.stampUs)[j]) <= ARRIVAL
  }

  /** Why joint j stops the action, if it does. */
  function Unsafe(a: Action, e: Env, j: nat, now: nat): Option<Error>
    requires a.Valid() && e.Sized() && j < JOINTS
  {
    if j !in a.command.mask then None
    else if j !in e.snapshot.valid then Some(Stale)
    else if e.snapshot.joints[j].faulty then Some(FaultPresent)
    else if a.state == MoveWait && a.command.kind == Move && a.command.bench && !Tracks(a, e, j, now) then Some(ActionFailed)
    else None
  }

  function FirstUnsafe(a: Action, e: Env, j: nat, now: nat): Option<Failure>
    requires a.Valid() && e.Sized() && j <= JOINTS && GuardedStage(a.state).Some?
    decreases JOINTS - j
  {
    if j == JOINTS then None
    else if Unsafe(a, e, j, now).Some? then Some(Failure(GuardedStage(a.state).value, Unsafe(a, e, j, now).value, j + 1))
    else FirstUnsafe(a, e, j + 1, now)
  }

  /** One service call of an active one-shot: energised phases first look for a stale or faulted motor. */
  function Serviced(a: Action, e: Env, now: nat): (Action, Option<Terminal>)
    requires a.Valid() && e.Sized()
  {
    if GuardedStage(a.state).Some? && FirstUnsafe(a, e, 0, now).Some? then Cleanup(a, FirstUnsafe(a, e, 0, now).value, e, now)
    else Setup(a, e, now)
  }

  // ----- The frame pump -----

  /** States whose deadline restarts when the last frame of their batch leaves. */
  predicate Rearms(a: Action) {
    match a.state
    case Preflight => true case ClearWait => true case EnableWait => true case DisableWait => true
    case CleanupHold => true case CleanupDisable => true
    case HoldWait => !a.command.mit
    case _ => false
  }

  function Popped(a: Action, now: nat): Action {
    if a.batch.Emptied() then a
    else
      var b := a.(batch := a.batch.(read := a.batch.read + 1));
      if Rearms(b) && b.batch.read == b.batch.count then
        b.(deadlineUs := match Deadline(now, ACTION_TIMEOUT_US) case Some(d) => d case None => now)
      else b
  }

  // ----- Admission -----

  function Fresh(c: Command): Action
    requires c.Valid()
  {
    Action(c, Discovery, 0, Batch(Nothing, 0, 0), seq(JOINTS, _ => 0), TargetsOf(c), Failure(NoStage, NoError, 0), {}, {}, Plan(0, 0, 0, Zero()))
  }

  function TargetsOf(c: Command): seq<real>
    requires c.Valid()
  {
    if c.kind == SetMode then Zero()
    else seq(JOINTS, j requires 0 <= j < JOINTS => if j in c.mask && c.targets[j].Finite? then c.targets[j].v else 0.0)
  }

  /** The first selected joint whose target or speed is not finite. */
  function FirstNotFinite(c: Command, j: nat): Option<nat>
    requires c.Valid() && j <= JOINTS
    decreases JOINTS - j
  {
    if j == JOINTS then None
    else if j in c.mask && c.kind != SetMode && (c.targets[j].NotFinite? || c.speeds[j].NotFinite?) then Some(j)
    else FirstNotFinite(c, j + 1)
  }

  function Started(c: Command, e: Env, now: nat): (Action, Option<Terminal>)
    requires c.Valid() && e.Sized()
  {
    var a := Fresh(c);
    if FirstNotFinite(c, 0).Some? then Cleanup(a, Failure(Validate, ActionFailed, FirstNotFinite(c, 0).value + 1), e, now)
    else if c.mask <= e.verified then Prepare(a, e, now)
    else if e.begins.Some? then Cleanup(a, Failure(DiscoveryStage, e.begins.value, 0), e, now)
    else (a.(deadlineUs := now + DISCOVERY_TIMEOUT_US), None)
  }
}
