/** The static one-shot action record of App/aethor_app.c, updated in place. Every method matches
    the function of module OneShot named in its contract; a terminal is handed to the caller. */
module OneShotAction {
  import opened Common
  import opened OneShot
  import Quintic

  // ----- Feedback checks -----

  method SelectedHaveState(s: Snapshot, mask: set<nat>, driver: Driver) returns (ok: bool)
    requires s.Sized()
    ensures ok == HaveState(s, mask, driver)
  {
    if !(mask <= s.valid) { return false; }
    var j := 0;
    while j < JOINTS
      invariant 0 <= j <= JOINTS
      invariant forall i | 0 <= i < j && i in mask :: s.joints[i].driver == driver
    {
      if j in mask && s.joints[j].driver != driver { return false; }
      j := j + 1;
    }
    return true;
  }

  method SelectedFaultFree(s: Snapshot, mask: set<nat>) returns (ok: bool)
    requires s.Sized()
    ensures ok == FaultFree(s, mask)
  {
    if !(mask <= s.valid) { return false; }
    var j := 0;
    while j < JOINTS
      invariant 0 <= j <= JOINTS
      invariant forall i | 0 <= i < j && i in mask :: !s.joints[i].faulty
    {
      if j in mask && s.joints[j].faulty { return false; }
      j := j + 1;
    }
    return true;
  }

  method SelectedAdvanced(s: Snapshot, mask: set<nat>, baseline: seq<nat>) returns (ok: bool)
    requires s.Sized() && |baseline| == JOINTS
    ensures ok == Advanced(s, mask, baseline)
  {
    if !(mask <= s.valid) { return false; }
    var j := 0;
    while j < JOINTS
      invariant 0 <= j <= JOINTS
      invariant forall i | 0 <= i < j && i in mask :: s.joints[i].stampUs > baseline[i]
    {
      if j in mask && s.joints[j].stampUs <= baseline[j] { return false; }
      j := j + 1;
    }
    return true;
  }

  method SelectedSafe(s: Snapshot, mask: set<nat>) returns (ok: bool)
    requires s.Sized()
    ensures ok == SafeForModeSwitch(s, mask)
  {
    if !(mask <= s.valid) { return false; }
    var j := 0;
    while j < JOINTS
      invariant 0 <= j <= JOINTS
      invariant forall i | 0 <= i < j && i in mask :: s.joints[i].driver == Disabled && !s.joints[i].faulty && Abs(s.joints[i].velocity) <= STILL
    {
      if j in mask && (s.joints[j].driver != Disabled || s.joints[j].faulty || Abs(s.joints[j].velocity) > STILL) { return false; }
      j := j + 1;
    }
    return true;
  }

  class ActionRecord {
    var command: Command
    var state: State
    var deadlineUs: nat
    var batch: Batch
    var baseline: seq<nat>
    var targets: seq<real>
    var failure: Failure
    var enabled: set<nat>
    var cleanup: set<nat>
    var plan: Plan

    function Model(): Action
      reads this
    {
      Action(command, state, deadlineUs, batch, baseline, targets, failure, enabled, cleanup, plan)
    }

    ghost predicate Valid()
      reads this
    {
      Model().Valid()
    }

    constructor (c: Command)
      requires c.Valid()
      ensures Valid() && Model() == OneShot.Fresh(c)
    {
      command, state, deadlineUs, batch := c, Discovery, 0, Batch(Nothing, 0, 0);
      baseline, targets, failure := seq(JOINTS, _ => 0), TargetsOf(c), Failure(NoStage, NoError, 0);
      enabled, cleanup, plan := {}, {}, Plan(0, 0, 0, seq(JOINTS, _ => 0.0));
    }

    method Load(content: Content, count: nat)
      modifies this`batch
      ensures batch == Batch(content, count, 0)
    {
      batch := Batch(content, count, 0);
    }

    method CaptureBaseline(s: Snapshot)
      requires s.Sized()
      modifies this`baseline
      ensures baseline == Stamps(s)
    {
      baseline := [];
      while |baseline| < JOINTS
        invariant |baseline| <= JOINTS && forall j | 0 <= j < |baseline| :: baseline[j] == s.joints[j].stampUs
      {
        baseline := baseline + [s.joints[|baseline|].stampUs];
      }
    }

    method BeginCleanup(f: Failure, e: Env, now: nat) returns (ended: Option<Terminal>)
      requires Valid() && e.Sized()
      modifies this
      ensures (Model(), ended) == Cleanup(old(Model()), f, e, now)
    {
      hide HaveState, FaultFree, Stamps, StandFrames, Positions;
      if failure.stage == NoStage { failure := f; }
      cleanup := if failure.stage == Validate then {} else command.mask;
      if cleanup == {} { return Some(Terminal(Failed, failure)); }
      if failure.stage == DiscoveryStage || failure.stage == ModeStage {
        if e.emergency.Rejected? { return Some(Terminal(Failed, failure)); }
        ended := DisableForCleanup(e.emergency, e, now);
        return;
      }
      var faultFree := SelectedFaultFree(e.snapshot, cleanup);
      var allEnabled := SelectedHaveState(e.snapshot, cleanup, Enabled);
      var stand := StandFrames(command, e, Positions(e.snapshot));
      if cleanup <= enabled && e.snapshot.ok && faultFree && allEnabled && stand.Frames? {
        state := CleanupHold;
        Load(HoldFrames, stand.count);
        ended := ArmCleanup(now);
        return;
      }
      ended := DisableForCleanup(e.disable, e, now);
    }

    method DisableForCleanup(built: Built, e: Env, now: nat) returns (ended: Option<Terminal>)
      requires e.Sized()
      modifies this`state, this`batch, this`baseline, this`deadlineUs
      ensures (Model(), ended) == CleanupDisabling(old(Model()), built, e, now)
    {
      hide Stamps;
      state := CleanupDisable;
      Load(DisableFrames, if built.Frames? then built.count else 0);
      CaptureBaseline(e.snapshot);
      if built.Rejected? { return Some(Terminal(Failed, failure)); }
      ended := ArmCleanup(now);
    }

    method ArmCleanup(now: nat) returns (ended: Option<Terminal>)
      modifies this`deadlineUs
      ensures (Model(), ended) == Armed(old(Model()), now)
    {
      var d := Deadline(now, ACTION_TIMEOUT_US);
      if d.None? { return Some(Terminal(Failed, failure)); }
      deadlineUs := d.value;
      return None;
    }

    method BeginHold(e: Env, now: nat) returns (ended: Option<Terminal>)
      requires Valid() && e.Sized()
      modifies this
      ensures (Model(), ended) == StartHold(old(Model()), e, now)
    {
      hide Cleanup, StandFrames;
      var stand := StandFrames(command, e, targets);
      if stand.Rejected? {
        ended := BeginCleanup(Failure(HoldStage, stand.error, 0), e, now);
        return;
      }
      state := HoldWait;
      Load(HoldFrames, stand.count);
      ended := ArmOr(if command.mit then command.holdUs else ACTION_TIMEOUT_US, HoldStage, e, now);
    }

    /** Arms a deadline, or starts the cleanup of the given stage when it is not representable. */
    method ArmOr(interval: nat, stage: Stage, e: Env, now: nat) returns (ended: Option<Terminal>)
      requires Valid() && e.Sized()
      modifies this
      ensures (Model(), ended) == match Deadline(now, interval)
                                  case Some(d) => (old(Model()).(deadlineUs := d), None)
                                  case None => Cleanup(old(Model()), Failure(stage, ActionFailed, 0), e, now)
    {
      hide Cleanup;
      var d := Deadline(now, interval);
      if d.None? {
        ended := BeginCleanup(Failure(stage, ActionFailed, 0), e, now);
        return;
      }
      deadlineUs := d.value;
      return None;
    }

    method BeginDisable(e: Env, now: nat) returns (ended: Option<Terminal>)
      requires Valid() && e.Sized()
      modifies this
      ensures (Model(), ended) == StartDisable(old(Model()), e, now)
    {
      hide Cleanup, Stamps;
      if e.disable.Rejected? {
        ended := BeginCleanup(Failure(DisableStage, e.disable.error, 0), e, now);
        return;
      }
      state := DisableWait;
      Load(DisableFrames, e.disable.count);
      CaptureBaseline(e.snapshot);
      assert |baseline| == JOINTS by { StampsLength(e.snapshot); }
      ended := ArmOr(ACTION_TIMEOUT_US, DisableStage, e, now);
    }

    method BeginMotion(e: Env, now: nat) returns (ended: Option<Terminal>)
      requires Valid() && e.Sized()
      modifies this
      ensures (Model(), ended) == StartMotion(old(Model()), e, now)
    {
      hide Cleanup, StartHold, SpanOf, StartReference, StartEndpoint;
      if !(command.mask <= e.snapshot.valid) {
        ended := BeginCleanup(Failure(MotionStage, Stale, 0), e, now);
        return;
      }
      if command.kind == Mit && command.hold {
        ended := BeginHold(e, now);
        return;
      }
      var span := ChooseSpan(e);
      match span
      case TooLong(motor) => ended := BeginCleanup(Failure(MotionStage, ActionFailed, motor), e, now);
      case Lasting(us) =>
        if command.Reference() { ended := BeginReference(e, now, us); } else { ended := BeginEndpoint(e, now, us); }
    }

    /** The loop over the selected joints: the first one without a representable time, or the time the
        slowest one needs. */
    method ChooseSpan(e: Env) returns (span: Span)
      requires Valid() && e.Sized()
      ensures span == SpanOf(Model(), e)
    {
      hide Endless, Seconds, EndpointUs, Distance, Speeds;
      var a, maximum := Model(), 0.0;
      var j := 0;
      while j < JOINTS
        invariant 0 <= j <= JOINTS && maximum >= 0.0
        invariant FirstEndless(a, e, 0) == FirstEndless(a, e, j)
        invariant FirstEndless(a, e, j).None? ==> FirstEndless(a, e, 0).None? && Slowest(a, e, 0) == Max(maximum, Slowest(a, e, j))
      {
        if j in command.mask {
          if Endless(a, e, j) { return TooLong(j + 1); }
          var us := TimeOf(a, e, j);
          if us > maximum { maximum := us; }
        }
        j := j + 1;
      }
      var whole := Ceil(maximum);
      return Lasting(if command.Reference() && whole < Quintic.MINIMUM_US then Quintic.MINIMUM_US else whole);
    }

    method BeginReference(e: Env, now: nat, us: nat) returns (ended: Option<Terminal>)
      requires Valid() && e.Sized()
      modifies this
      ensures (Model(), ended) == StartReference(old(Model()), e, now, us)
    {
      hide Cleanup, ReferenceFrames, Positions;
      assert |Positions(e.snapshot)| == JOINTS;
      plan := Plan(now, us, plan.referenceUs, Positions(e.snapshot));
      var frames := ReferenceFrames(Model(), e, now);
      if frames.Rejected? {
        ended := BeginCleanup(Failure(MotionStage, ActionFailed, 0), e, now);
        return;
      }
      if command.kind == Move { plan := plan.(referenceUs := now); }
      var d := Deadline(now, us + SETTLE_US);
      if d.None? {
        ended := BeginCleanup(Failure(MotionStage, ActionFailed, 0), e, now);
        return;
      }
      ended := EnterMove(frames.count, d.value);
    }

    method BeginEndpoint(e: Env, now: nat, us: nat) returns (ended: Option<Terminal>)
      requires Valid() && e.Sized()
      modifies this
      ensures (Model(), ended) == StartEndpoint(old(Model()), e, now, us)
    {
      hide Cleanup, PosFrames, Speeds;
      var d := Deadline(now, us);
      if d.None? {
        ended := BeginCleanup(Failure(MotionStage, ActionFailed, 0), e, now);
        return;
      }
      var frames := PosFrames(command, e, targets, Speeds(command));
      if frames.Rejected? {
        ended := BeginCleanup(Failure(MotionStage, frames.error, 0), e, now);
        return;
      }
      ended := EnterMove(frames.count, d.value);
    }

    method EnterMove(count: nat, deadline: nat) returns (ended: Option<Terminal>)
      modifies this`state, this`batch, this`deadlineUs
      ensures ended == None && Model() == old(Model()).Enter(MoveWait, TargetFrames, count).(deadlineUs := deadline)
    {
      state := MoveWait;
      Load(TargetFrames, count);
      deadlineUs := deadline;
      return None;
    }

    method Validating(e: Env, now: nat) returns (ended: Option<Terminal>)
      requires Valid() && e.Sized()
      modifies this
      ensures (Model(), ended) == ValidateTargets(old(Model()), e, now)
    {
      hide Cleanup, SafeForModeSwitch, Invalid;
      var safe := SelectedSafe(e.snapshot, command.mask);
      if command.kind != Move && !safe {
        ended := BeginCleanup(Failure(Validate, ActionFailed, 1), e, now);
        return;
      }
      if command.kind == Mit && command.hold { AimAtFeedback(e); }
      var invalid := FindInvalid(e);
      if invalid.Some? {
        ended := BeginCleanup(invalid.value, e, now);
      } else if e.begins.Some? {
        ended := BeginCleanup(Failure(ModeStage, e.begins.value, 0), e, now);
      } else {
        state, deadlineUs := ModeSwitch, now + ACTION_TIMEOUT_US;
        ended := None;
      }
    }

    /** The checks of every kind of command; a MIT move is checked joint by joint before its frames. */
    method FindInvalid(e: Env) returns (failure: Option<Failure>)
      requires Valid() && e.Sized()
      ensures failure == Invalid(Model(), e)
    {
      hide Speeds, MitFrames, MoveFaults;
      var a := Model();
      match command.kind
      case SetMode => return None;
      case Move =>
        var fault := FirstFault(command.mask, MoveFaults(a, e), 0);
        return if fault.Some? then Some(Failure(Validate, fault.value.1, fault.value.0 + 1)) else None;
      case Mit =>
        if !command.hold {
          var j := 0;
          while j < JOINTS
            invariant 0 <= j <= JOINTS && a == Model()
            invariant FirstFault(command.mask, SpeedFaults(a, e), 0) == FirstFault(command.mask, SpeedFaults(a, e), j)
          {
            var speed := Speeds(command)[j];
            if j in command.mask && (!e.limits[j].known || speed <= 0.0 || speed > e.limits[j].MoveSpeed()) {
              return Some(Failure(Validate, SpeedRange, j + 1));
            }
            j := j + 1;
          }
        }
        var frames := MitFrames(command, e, targets, Speeds(command));
        return if frames.Rejected? then Some(Failure(Validate, frames.error, 1)) else None;
    }

    method AimAtFeedback(e: Env)
      requires Valid() && e.Sized() && command.kind == Mit && command.hold
      modifies this`targets
      ensures Model() == Aimed(old(Model()), e)
    {
      var j := 0;
      while j < JOINTS
        invariant 0 <= j <= JOINTS && |targets| == JOINTS
        invariant forall i | 0 <= i < JOINTS ::
          targets[i] == if i < j && i in command.mask then e.snapshot.joints[i].position else old(targets[i])
      {
        if j in command.mask { targets := targets[j := e.snapshot.joints[j].position]; }
        j := j + 1;
      }
    }

    method BeginPreflightDisable(e: Env, now: nat) returns (ended: Option<Terminal>)
      requires Valid() && e.Sized()
      modifies this
      ensures (Model(), ended) == BeginPreflight(old(Model()), e, now)
    {
      hide Cleanup, Stamps;
      CaptureBaseline(e.snapshot);
      assert |baseline| == JOINTS by { StampsLength(e.snapshot); }
      if e.emergency.Rejected? {
        ended := BeginCleanup(Failure(Validate, e.emergency.error, 0), e, now);
        return;
      }
      state := Preflight;
      Load(DisableFrames, e.emergency.count);
      ended := ArmOr(ACTION_TIMEOUT_US, Validate, e, now);
    }

    method PrepareValidation(e: Env, now: nat) returns (ended: Option<Terminal>)
      requires Valid() && e.Sized()
      modifies this
      ensures (Model(), ended) == Prepare(old(Model()), e, now)
    {
      hide ValidateTargets, BeginPreflight, SafeForModeSwitch;
      var safe := SelectedSafe(e.snapshot, command.mask);
      if command.mask <= e.snapshot.valid && (command.kind == Move || safe) {
        ended := Validating(e, now);
      } else {
        ended := BeginPreflightDisable(e, now);
      }
    }

    // ----- Service -----

    method AdvanceDiscovery(e: Env, now: nat) returns (ended: Option<Terminal>)
      requires Valid() && e.Sized()
      modifies this
      ensures (Model(), ended) == InDiscovery(old(Model()), e, now)
    {
      hide Cleanup, Prepare;
      if e.discovery == Complete && command.mask <= e.verified {
        ended := PrepareValidation(e, now);
      } else if e.discovery == Broken {
        ended := BeginCleanup(Failure(DiscoveryStage, ActionFailed, 0), e, now);
      } else if deadlineUs != 0 && now >= deadlineUs {
        ended := BeginCleanup(Failure(DiscoveryStage, Timeout, 0), e, now);
      } else {
        ended := None;
      }
    }

    method AdvancePreflight(e: Env, now: nat) returns (ended: Option<Terminal>)
      requires Valid() && e.Sized()
      modifies this
      ensures (Model(), ended) == InPreflight(old(Model()), e, now)
    {
      hide Cleanup, ValidateTargets, Advanced, HaveState, FaultFree;
      var advanced := SelectedAdvanced(e.snapshot, command.mask, baseline);
      var disabled := SelectedHaveState(e.snapshot, command.mask, Disabled);
      var faultFree := SelectedFaultFree(e.snapshot, command.mask);
      if batch.read >= batch.count && advanced && (disabled || !faultFree) {
        ended := Validating(e, now);
      } else if deadlineUs != 0 && now >= deadlineUs {
        ended := BeginCleanup(Failure(Validate, FeedbackTimeout, 0), e, now);
      } else {
        ended := None;
      }
    }

    method AdvanceModeSwitch(e: Env, now: nat) returns (ended: Option<Terminal>)
      requires Valid() && e.Sized()
      modifies this
      ensures (Model(), ended) == InModeSwitch(old(Model()), e, now)
    {
      hide Cleanup, Stamps;
      if e.modeSwitch == Complete {
        if command.kind == SetMode && command.bench { return Some(Terminal(Completed, failure)); }
        if e.clear.Rejected? {
          ended := BeginCleanup(Failure(ClearStage, e.clear.error, 0), e, now);
          return;
        }
        state := ClearWait;
        Load(ClearFrames, e.clear.count);
        CaptureBaseline(e.snapshot);
        assert |baseline| == JOINTS by { StampsLength(e.snapshot); }
        ended := ArmOr(ACTION_TIMEOUT_US, ClearStage, e, now);
      } else if e.modeSwitch == Broken {
        ended := BeginCleanup(Failure(ModeStage, ActionFailed, 0), e, now);
      } else if deadlineUs != 0 && now >= deadlineUs {
        ended := BeginCleanup(Failure(ModeStage, Timeout, 0), e, now);
      } else {
        ended := None;
      }
    }

    method AdvanceClear(e: Env, now: nat) returns (ended: Option<Terminal>)
      requires Valid() && e.Sized()
      modifies this
      ensures (Model(), ended) == InClearWait(old(Model()), e, now)
    {
      hide Cleanup, Stamps, Advanced, FaultFree;
      var advanced := SelectedAdvanced(e.snapshot, command.mask, baseline);
      var faultFree := SelectedFaultFree(e.snapshot, command.mask);
      if batch.read >= batch.count && advanced && faultFree {
        if e.enable.Rejected? {
          ended := BeginCleanup(Failure(EnableStage, e.enable.error, 0), e, now);
          return;
        }
        state := EnableWait;
        Load(EnableFrames, e.enable.count);
        CaptureBaseline(e.snapshot);
        assert |baseline| == JOINTS by { StampsLength(e.snapshot); }
        ended := ArmOr(ACTION_TIMEOUT_US, EnableStage, e, now);
      } else if deadlineUs != 0 && now >= deadlineUs {
        ended := BeginCleanup(Failure(ClearStage, FeedbackTimeout, 0), e, now);
      } else {
        ended := None;
      }
    }

    method AdvanceEnable(e: Env, now: nat) returns (ended: Option<Terminal>)
      requires Valid() && e.Sized()
      modifies this
      ensures (Model(), ended) == InEnableWait(old(Model()), e, now)
    {
      hide Cleanup, StartMotion, Advanced, HaveState;
      var advanced := SelectedAdvanced(e.snapshot, command.mask, baseline);
      var allEnabled := SelectedHaveState(e.snapshot, command.mask, Enabled);
      if batch.read >= batch.count && advanced && allEnabled {
        enabled := command.mask;
        ended := BeginMotion(e, now);
      } else if deadlineUs != 0 && now >= deadlineUs {
        ended := BeginCleanup(Failure(EnableStage, FeedbackTimeout, 0), e, now);
      } else {
        ended := None;
      }
    }

    method TargetsArrived(e: Env) returns (ok: bool)
      requires Valid() && e.Sized()
      ensures ok == Arrived(Model(), e)
    {
      if !(command.mask <= e.snapshot.valid) { return false; }
      var j := 0;
      while j < JOINTS
        invariant 0 <= j <= JOINTS
        invariant forall i | 0 <= i < j && i in command.mask ::
          Abs(e.snapshot.joints[i].position - targets[i]) <= ARRIVAL && !e.snapshot.joints[i].faulty
      {
        if j in command.mask {
          var error := Abs(e.snapshot.joints[j].position - targets[j]);
          if error > ARRIVAL || e.snapshot.joints[j].faulty { return false; }
        }
        j := j + 1;
      }
      return true;
    }

    method AdvanceMove(e: Env, now: nat) returns (ended: Option<Terminal>)
      requires Valid() && e.Sized()
      modifies this
      ensures (Model(), ended) == InMoveWait(old(Model()), e, now)
    {
      hide Cleanup, StartHold, Arrived, ReferenceFrames;
      var reference := command.Reference();
      if reference && command.kind == Move && (now < plan.referenceUs || now - plan.referenceUs > REFERENCE_GAP_US) {
        ended := BeginCleanup(Failure(MotionStage, Timeout, 0), e, now);
        return;
      }
      var arrived := TargetsArrived(e);
      if arrived && (!reference || PlanAge(Model(), now) >= plan.durationUs) {
        ended := BeginHold(e, now);
      } else if deadlineUs != 0 && now >= deadlineUs {
        ended := BeginCleanup(Failure(MotionStage, Timeout, 0), e, now);
      } else {
        ended := None;
        if batch.read >= batch.count {
          if reference {
            var frames := ReferenceFrames(Model(), e, now);
            if frames.Rejected? {
              ended := BeginCleanup(Failure(MotionStage, ActionFailed, 0), e, now);
              return;
            }
            batch := Batch(TargetFrames, frames.count, 0);
            if command.kind == Move { plan := plan.(referenceUs := now); }
          }
          batch := batch.(read := 0);
        }
      }
    }

    method AdvanceHold(e: Env, now: nat) returns (ended: Option<Terminal>)
      requires Valid() && e.Sized()
      modifies this
      ensures (Model(), ended) == InHoldWait(old(Model()), e, now)
    {
      hide Cleanup, StartDisable;
      var emptied, expired := batch.read >= batch.count, deadlineUs != 0 && now >= deadlineUs;
      ended := None;
      if !command.mit && emptied {
        ended := BeginDisable(e, now);
      } else if command.mit && expired {
        ended := BeginDisable(e, now);
      } else if command.mit && emptied {
        batch := batch.(read := 0);
      } else if !command.mit && expired {
        ended := BeginCleanup(Failure(HoldStage, Timeout, 0), e, now);
      }
    }

    method AdvanceDisable(e: Env, now: nat) returns (ended: Option<Terminal>)
      requires Valid() && e.Sized()
      modifies this
      ensures (Model(), ended) == InDisableWait(old(Model()), e, now)
    {
      hide Cleanup, Advanced, HaveState;
      var advanced := SelectedAdvanced(e.snapshot, command.mask, baseline);
      var disabled := SelectedHaveState(e.snapshot, command.mask, Disabled);
      if batch.read >= batch.count && advanced && disabled {
        ended := Some(Terminal(Completed, failure));
      } else if deadlineUs != 0 && now >= deadlineUs {
        ended := BeginCleanup(Failure(DisableStage, FeedbackTimeout, 0), e, now);
      } else {
        ended := None;
      }
    }

    method AdvanceCleanup(e: Env, now: nat) returns (ended: Option<Terminal>)
      requires Valid() && e.Sized() && (state == CleanupHold || state == CleanupDisable)
      modifies this
      ensures (Model(), ended) == Setup(old(Model()), e, now)
    {
      hide Advanced, HaveState, Stamps;
      var expired := deadlineUs != 0 && now >= deadlineUs;
      var advanced := SelectedAdvanced(e.snapshot, cleanup, baseline);
      var disabled := SelectedHaveState(e.snapshot, cleanup, Disabled);
      if state == CleanupHold {
        if batch.read < batch.count && !expired { return None; }
        if e.disable.Rejected? { return Some(Terminal(Failed, failure)); }
        ended := DisableForCleanup(e.disable, e, now);
      } else if (batch.read >= batch.count && advanced && disabled) || expired {
        ended := Some(Terminal(Failed, failure));
      } else {
        ended := None;
      }
    }

    method Advance(e: Env, now: nat) returns (ended: Option<Terminal>)
      requires Valid() && e.Sized()
      modifies this
      ensures (Model(), ended) == Setup(old(Model()), e, now)
    {
      hide InDiscovery, InPreflight, InModeSwitch, InClearWait, InEnableWait, InMoveWait, InHoldWait, InDisableWait,
           InCleanupHold, InCleanupDisable;
      match state
      case Discovery => ended := AdvanceDiscovery(e, now);
      case Preflight => ended := AdvancePreflight(e, now);
      case ModeSwitch => ended := AdvanceModeSwitch(e, now);
      case ClearWait => ended := AdvanceClear(e, now);
      case EnableWait => ended := AdvanceEnable(e, now);
      case MoveWait => ended := AdvanceMove(e, now);
      case HoldWait => ended := AdvanceHold(e, now);
      case DisableWait => ended := AdvanceDisable(e, now);
      case CleanupHold => ended := AdvanceCleanup(e, now);
      case CleanupDisable => ended := AdvanceCleanup(e, now);
    }

    method Service(e: Env, now: nat) returns (ended: Option<Terminal>)
      requires Valid() && e.Sized()
      modifies this
      ensures (Model(), ended) == Serviced(old(Model()), e, now)
    {
      hide Setup, Cleanup, Unsafe;
      var stage := GuardedStage(state);
      if stage.Some? {
        var j := 0;
        while j < JOINTS
          invariant 0 <= j <= JOINTS && Model() == old(Model())
          invariant FirstUnsafe(Model(), e, 0, now) == FirstUnsafe(Model(), e, j, now)
        {
          var problem := Unsafe(Model(), e, j, now);
          if problem.Some? {
            ended := BeginCleanup(Failure(stage.value, problem.value, j + 1), e, now);
            return;
          }
          j := j + 1;
        }
      }
      ended := Advance(e, now);
    }

    method PopFrame(now: nat) returns (popped: bool)
      modifies this`batch, this`deadlineUs
      ensures popped == !old(batch).Emptied() && Model() == Popped(old(Model()), now)
    {
      if batch.read >= batch.count { return false; }
      batch := batch.(read := batch.read + 1);
      if batch.read == batch.count &&
         (state == Preflight || state == ClearWait || state == EnableWait || (state == HoldWait && !command.mit)
          || state == DisableWait || state == CleanupHold || state == CleanupDisable) {
        var d := Deadline(now, ACTION_TIMEOUT_US);
        deadlineUs := if d.Some? then d.value else now;
      }
      return true;
    }

    /** Admission of a fresh record. */
    method Begin(e: Env, now: nat) returns (ended: Option<Terminal>)
      requires command.Valid() && e.Sized() && Model() == OneShot.Fresh(command)
      modifies this
      ensures (Model(), ended) == Started(old(command), e, now)
    {
      hide Cleanup, Prepare;
      assert OneShot.Fresh(command).Valid();
      var j := 0;
      while j < JOINTS
        invariant 0 <= j <= JOINTS && Model() == old(Model())
        invariant FirstNotFinite(command, 0) == FirstNotFinite(command, j)
      {
        if j in command.mask && command.kind != SetMode && (command.targets[j].NotFinite? || command.speeds[j].NotFinite?) {
          ended := BeginCleanup(Failure(Validate, ActionFailed, j + 1), e, now);
          return;
        }
        j := j + 1;
      }
      if command.mask <= e.verified {
        ended := PrepareValidation(e, now);
      } else if e.begins.Some? {
        ended := BeginCleanup(Failure(DiscoveryStage, e.begins.value, 0), e, now);
      } else {
        deadlineUs := now + DISCOVERY_TIMEOUT_US;
        ended := None;
      }
    }
  }

  lemma StampsLength(s: Snapshot)
    requires s.Sized()
    ensures |Stamps(s)| == JOINTS
  {
  }

}
