/** Which one-shot commands can complete at all: exactly those whose selected targets, speeds and gains
    the discovered limits of the motors admit, as far as the clock can still represent their
    deadlines. */
module OneShotCompletion {
  import opened Common
  import opened OneShot
  import opened OneShotRuns
  import Quintic

  const ALL := {0, 1, 2, 3, 4, 5, 6}

  // ----- The guards of a command -----

  predicate Still(c: Command) {
    c.kind == Mit && c.hold
  }

  /** What a move or MIT command must satisfy under the limits of its motors, checkable before it is sent:
      finite values, known limits, targets and positive speeds in range unless it holds still, and
      gains and torque in range where the MIT protocol carries them. */
  predicate Guards(c: Command, limits: seq<Limits>)
    requires c.Valid() && |limits| == JOINTS
  {
    Ranges(c, limits) && (c.kind == Mit || c.mit ==> GainsFit(c, limits))
  }

  predicate Ranges(c: Command, limits: seq<Limits>)
    requires c.Valid() && |limits| == JOINTS
  {
    forall j | j in c.mask ::
      && c.targets[j].Finite? && c.speeds[j].Finite? && limits[j].known
      && (!Still(c) ==> Abs(c.targets[j].v) <= limits[j].position && 0.0 < c.speeds[j].v <= limits[j].MoveSpeed())
  }

  predicate GainsFit(c: Command, limits: seq<Limits>)
    requires c.Valid() && |limits| == JOINTS
  {
    c.gains.Ok() && forall j | j in c.mask :: Abs(c.gains.torque.v) <= limits[j].torque
  }

  // ----- First faults -----

  lemma {:induction false} NoFault(mask: set<nat>, faults: seq<Option<Error>>, j: nat)
    requires |faults| == JOINTS && j <= JOINTS
    ensures FirstFault(mask, faults, j).None? <==> forall i | j <= i < JOINTS && i in mask :: faults[i].None?
    decreases JOINTS - j
  {
    if j < JOINTS { NoFault(mask, faults, j + 1); }
  }

  lemma FramedIff(mask: set<nat>, faults: seq<Option<Error>>)
    requires |faults| == JOINTS
    ensures Framed(mask, faults).Frames? <==> forall i | 0 <= i < JOINTS && i in mask :: faults[i].None?
    ensures Framed(mask, faults).Frames? ==> Framed(mask, faults).count == |mask|
  {
    NoFault(mask, faults, 0);
  }

  // ----- What validation and holding establish -----

  /** Validated targets are in range, and so are the gains of a MIT command. */
  lemma ValidMeansRanges(a: Action, e: Env)
    requires a.Valid() && e.Sized() && a.command.kind != SetMode && Invalid(a, e).None? && AllFinite(a.command)
    requires Still(a.command) || a.targets == TargetsOf(a.command)
    ensures Ranges(a.command, e.limits) && (a.command.kind == Mit ==> GainsFit(a.command, e.limits))
  {
    var c := a.command;
    if c.kind == Move {
      NoFault(c.mask, MoveFaults(a, e), 0);
      forall j | j in c.mask ensures MoveFaults(a, e)[j].None? { }
    } else {
      NoFault(c.mask, SpeedFaults(a, e), 0);
      FramedIff(c.mask, MitFaults(e, a.targets, Speeds(c), c.gains.torque.v));
      forall j | j in c.mask ensures MitFaults(e, a.targets, Speeds(c), c.gains.torque.v)[j].None? { }
      if !c.hold { forall j | j in c.mask ensures SpeedFaults(a, e)[j].None? { } }
    }
  }

  lemma HoldMeansGains(c: Command, e: Env, positions: seq<real>)
    requires c.Valid() && e.Sized() && |positions| == JOINTS && c.mit && StandFrames(c, e, positions).Frames?
    ensures GainsFit(c, e.limits)
  {
    FramedIff(c.mask, MitFaults(e, positions, Zero(), c.gains.torque.v));
    forall j | j in c.mask ensures MitFaults(e, positions, Zero(), c.gains.torque.v)[j].None? { }
  }

  predicate AllFinite(c: Command)
    requires c.Valid()
  {
    forall j | j in c.mask :: c.targets[j].Finite? && c.speeds[j].Finite?
  }

  lemma {:induction false} FiniteMeansNone(c: Command, j: nat)
    requires c.Valid() && j <= JOINTS && c.kind != SetMode
    ensures FirstNotFinite(c, j).None? <==> forall k | k in c.mask && k >= j :: c.targets[k].Finite? && c.speeds[k].Finite?
    decreases JOINTS - j
  {
    if j < JOINTS { FiniteMeansNone(c, j + 1); }
  }

  // ----- Necessity: what a run has checked -----

  /** Going up the cycle past validation, and into holding, takes these checks. */
  predicate Justified(a: Action, e: Env, r: (Action, Option<Terminal>))
    requires a.Valid() && e.Sized()
  {
    r.1.None? ==>
      && r.0.Valid() && r.0.command == a.command && (r.0.targets == a.targets || Still(a.command))
      && (Rank(a.state) <= 2 && 3 <= Rank(r.0.state) <= 8 ==> r.0.state == ModeSwitch && Invalid(r.0, e).None?)
      && (Rank(a.state) <= 6 && 7 <= Rank(r.0.state) <= 8 ==> StandFrames(a.command, e, a.targets).Frames?)
  }

  /** Below a cleanup nothing needs a check. */
  lemma CleanupJustified(a: Action, b: Action, f: Failure, e: Env, now: nat)
    requires a.Valid() && b.Valid() && b.command == a.command && (b.targets == a.targets || Still(a.command)) && e.Sized()
    requires Rank(b.state) <= 8
    ensures Justified(a, e, Cleanup(b, f, e, now))
  {
    CleanupProgresses(b, f, e, now);
    CleanupKeepsTargets(b, f, e, now);
    hide Cleanup, Invalid, StandFrames;
  }

  lemma CleanupKeepsTargets(b: Action, f: Failure, e: Env, now: nat)
    requires b.Valid() && e.Sized()
    ensures Cleanup(b, f, e, now).0.targets == b.targets
  {
    hide MayHold, StandFrames, Positions, Stamps;
  }

  lemma HoldJustified(a: Action, b: Action, e: Env, now: nat)
    requires a.Valid() && b.Valid() && b.command == a.command && b.targets == a.targets && e.Sized()
    requires 3 <= Rank(a.state) && Rank(b.state) <= 6
    ensures Justified(a, e, StartHold(b, e, now))
  {
    hide Cleanup, StandFrames, Invalid;
    match StandFrames(b.command, e, b.targets)
    case Rejected(error) => CleanupJustified(a, b, Failure(HoldStage, error, 0), e, now);
    case Frames(count) => CleanupJustified(a, b.Enter(HoldWait, HoldFrames, count), Failure(HoldStage, ActionFailed, 0), e, now);
  }

  lemma MotionJustified(a: Action, b: Action, e: Env, now: nat)
    requires a.Valid() && b.Valid() && b.command == a.command && b.targets == a.targets && e.Sized()
    requires 3 <= Rank(a.state) && Rank(b.state) <= 5
    ensures Justified(a, e, StartMotion(b, e, now))
  {
    hide Cleanup, StartHold, SpanOf, ReferenceFrames, PosFrames, StandFrames, Invalid, Positions;
    HoldJustified(a, b, e, now);
    CleanupJustified(a, b, Failure(MotionStage, Stale, 0), e, now);
    CleanupJustified(a, b, Failure(MotionStage, ActionFailed, 0), e, now);
    match SpanOf(b, e)
    case TooLong(motor) => CleanupJustified(a, b, Failure(MotionStage, ActionFailed, motor), e, now);
    case Lasting(us) =>
      var c := Planned(b, e, now, us);
      CleanupJustified(a, c, Failure(MotionStage, ActionFailed, 0), e, now);
      CleanupJustified(a, Referenced(c, now), Failure(MotionStage, ActionFailed, 0), e, now);
      match PosFrames(b.command, e, b.targets, Speeds(b.command)) {
        case Rejected(error) => CleanupJustified(a, b, Failure(MotionStage, error, 0), e, now);
        case Frames(_) =>
      }
  }

  lemma DisableJustified(a: Action, e: Env, now: nat)
    requires a.Valid() && e.Sized() && a.state == HoldWait
    ensures Justified(a, e, StartDisable(a, e, now))
  {
    hide Cleanup, StandFrames, Invalid, Stamps;
    if e.disable.Rejected? {
      CleanupJustified(a, a, Failure(DisableStage, e.disable.error, 0), e, now);
    } else {
      CleanupJustified(a, a.Enter(DisableWait, DisableFrames, e.disable.count).(baseline := Stamps(e.snapshot)),
                       Failure(DisableStage, ActionFailed, 0), e, now);
    }
  }

  lemma ValidationJustified(a: Action, e: Env, now: nat)
    requires a.Valid() && e.Sized() && Rank(a.state) <= 2
    ensures Justified(a, e, ValidateTargets(a, e, now))
  {
    hide Cleanup, StandFrames, SafeForModeSwitch, Invalid;
    var b := Aimed(a, e);
    CleanupJustified(a, a, Failure(Validate, ActionFailed, 1), e, now);
    if Invalid(b, e).Some? { CleanupJustified(a, b, Invalid(b, e).value, e, now); }
    else if e.begins.Some? { CleanupJustified(a, b, Failure(ModeStage, e.begins.value, 0), e, now); }
    SameTargetsSameFaults(b, b.(state := ModeSwitch, deadlineUs := now + ACTION_TIMEOUT_US), e);
  }

  lemma SameTargetsSameFaults(a: Action, b: Action, e: Env)
    requires a.Valid() && b.Valid() && e.Sized() && a.command == b.command && a.targets == b.targets
    ensures Invalid(a, e) == Invalid(b, e)
  {
    assert MoveFaults(a, e) == MoveFaults(b, e) && SpeedFaults(a, e) == SpeedFaults(b, e);
  }

  lemma PrepareJustified(a: Action, e: Env, now: nat)
    requires a.Valid() && e.Sized() && a.state == Discovery
    ensures Justified(a, e, Prepare(a, e, now))
  {
    hide Cleanup, StandFrames, SafeForModeSwitch, Invalid, ValidateTargets, Stamps;
    ValidationJustified(a, e, now);
    var b := a.(baseline := Stamps(e.snapshot));
    if e.emergency.Rejected? {
      CleanupJustified(a, b, Failure(Validate, e.emergency.error, 0), e, now);
    } else {
      CleanupJustified(a, b.Enter(Preflight, DisableFrames, e.emergency.count), Failure(Validate, ActionFailed, 0), e, now);
    }
  }

  lemma EarlyJustified(a: Action, e: Env, now: nat)
    requires a.Valid() && e.Sized() && Rank(a.state) <= 3
    ensures Justified(a, e, Setup(a, e, now))
  {
    hide Prepare, ValidateTargets, Cleanup, Advanced, HaveState, FaultFree, Stamps, Invalid, StandFrames;
    match a.state
    case Discovery =>
      PrepareJustified(a, e, now);
      CleanupJustified(a, a, Failure(DiscoveryStage, ActionFailed, 0), e, now);
      CleanupJustified(a, a, Failure(DiscoveryStage, Timeout, 0), e, now);
    case Preflight =>
      ValidationJustified(a, e, now);
      CleanupJustified(a, a, Failure(Validate, FeedbackTimeout, 0), e, now);
    case ModeSwitch =>
      CleanupJustified(a, a, Failure(ModeStage, ActionFailed, 0), e, now);
      CleanupJustified(a, a, Failure(ModeStage, Timeout, 0), e, now);
      if e.clear.Rejected? { CleanupJustified(a, a, Failure(ClearStage, e.clear.error, 0), e, now); }
      else { CleanupJustified(a, a.Enter(ClearWait, ClearFrames, e.clear.count).(baseline := Stamps(e.snapshot)), Failure(ClearStage, ActionFailed, 0), e, now); }
  }

  lemma MiddleJustified(a: Action, e: Env, now: nat)
    requires a.Valid() && e.Sized() && 4 <= Rank(a.state) <= 5
    ensures Justified(a, e, Setup(a, e, now))
  {
    hide StartMotion, Cleanup, Advanced, HaveState, FaultFree, Stamps, Invalid, StandFrames;
    if a.state == ClearWait {
      CleanupJustified(a, a, Failure(ClearStage, FeedbackTimeout, 0), e, now);
      if e.enable.Rejected? { CleanupJustified(a, a, Failure(EnableStage, e.enable.error, 0), e, now); }
      else { CleanupJustified(a, a.Enter(EnableWait, EnableFrames, e.enable.count).(baseline := Stamps(e.snapshot)), Failure(EnableStage, ActionFailed, 0), e, now); }
    } else {
      MotionJustified(a, a.(enabled := a.command.mask), e, now);
      CleanupJustified(a, a, Failure(EnableStage, FeedbackTimeout, 0), e, now);
    }
  }

  lemma LateJustified(a: Action, e: Env, now: nat)
    requires a.Valid() && e.Sized() && 6 <= Rank(a.state) <= 8
    ensures Justified(a, e, Setup(a, e, now))
  {
    hide StartHold, StartDisable, Cleanup, Advanced, HaveState, Arrived, SenderStalled, ReferenceFrames, Invalid, StandFrames;
    CleanupJustified(a, a, Failure(MotionStage, Timeout, 0), e, now);
    CleanupJustified(a, a, Failure(MotionStage, ActionFailed, 0), e, now);
    CleanupJustified(a, a, Failure(HoldStage, Timeout, 0), e, now);
    CleanupJustified(a, a, Failure(DisableStage, FeedbackTimeout, 0), e, now);
    if a.state == MoveWait { HoldJustified(a, a, e, now); }
    if a.state == HoldWait { DisableJustified(a, e, now); }
  }

  lemma ServiceJustified(a: Action, e: Env, now: nat)
    requires a.Valid() && e.Sized()
    ensures Justified(a, e, Serviced(a, e, now))
  {
    hide Setup, Cleanup, FirstUnsafe, Invalid, StandFrames;
    if GuardedStage(a.state).Some? && FirstUnsafe(a, e, 0, now).Some? {
      CleanupJustified(a, a, FirstUnsafe(a, e, 0, now).value, e, now);
    } else if Rank(a.state) <= 3 {
      EarlyJustified(a, e, now);
    } else if Rank(a.state) <= 5 {
      MiddleJustified(a, e, now);
    } else if Rank(a.state) <= 8 {
      LateJustified(a, e, now);
    } else {
      CleaningJustified(a, e, now);
    }
  }

  lemma CleaningJustified(a: Action, e: Env, now: nat)
    requires a.Valid() && e.Sized() && Rank(a.state) >= 9
    ensures Justified(a, e, Setup(a, e, now))
  {
    hide Advanced, HaveState, Stamps, Invalid, StandFrames;
    StampsSized(e.snapshot);
  }

  /** The discovered limits are the same at admission and in every service call. */
  ghost predicate UnderLimits(e: Env, run: seq<Event>, limits: seq<Limits>) {
    e.limits == limits && forall i | 0 <= i < |run| && run[i].call.Service? :: run[i].call.env.limits == limits
  }

  /** What an action has behind it. */
  predicate Checked(a: Action, limits: seq<Limits>)
    requires a.Valid() && |limits| == JOINTS
  {
    && a.command.kind != SetMode && AllFinite(a.command) && (a.targets == TargetsOf(a.command) || Still(a.command))
    && (3 <= Rank(a.state) <= 8 ==> Ranges(a.command, limits) && (a.command.kind == Mit ==> GainsFit(a.command, limits)))
    && (7 <= Rank(a.state) <= 8 && a.command.mit ==> GainsFit(a.command, limits))
  }

  lemma JustifiedIsChecked(a: Action, e: Env, r: (Action, Option<Terminal>))
    requires a.Valid() && e.Sized() && Checked(a, e.limits) && Justified(a, e, r) && r.1.None? && Rank(r.0.state) >= Rank(a.state)
    ensures Checked(r.0, e.limits)
  {
    hide Ranges, GainsFit, Invalid, StandFrames, AllFinite;
    if Rank(a.state) <= 2 && 3 <= Rank(r.0.state) <= 8 { ValidMeansRanges(r.0, e); }
    if Rank(a.state) <= 6 && 7 <= Rank(r.0.state) <= 8 && a.command.mit { HoldMeansGains(a.command, e, a.targets); }
  }

  lemma StartChecked(c: Command, e: Env, now: nat)
    requires c.Valid() && e.Sized() && now > 0 && c.kind != SetMode && Started(c, e, now).1.None?
    ensures Started(c, e, now).0.Valid() && Checked(Started(c, e, now).0, e.limits)
  {
    hide Prepare, Cleanup, Ranges, GainsFit, Invalid, StandFrames;
    var a := Fresh(c);
    FiniteMeansNone(c, 0);
    if FirstNotFinite(c, 0).Some? {
      ValidateFailureEnds(a, e, now, FirstNotFinite(c, 0).value + 1);
    } else {
      assert Checked(a, e.limits);
      PrepareJustified(a, e, now);
      PrepareProgresses(a, e, now);
      if c.mask <= e.verified {
        JustifiedIsChecked(a, e, Prepare(a, e, now));
      } else if e.begins.Some? {
        var f := Failure(DiscoveryStage, e.begins.value, 0);
        CleanupJustified(a, a, f, e, now);
        CleanupProgresses(a, f, e, now);
        JustifiedIsChecked(a, e, Cleanup(a, f, e, now));
      }
    }
  }

  lemma ValidateFailureEnds(a: Action, e: Env, now: nat, motor: nat)
    requires a.Valid() && e.Sized() && a.failure.stage == NoStage
    ensures var r := Cleanup(a, Failure(Validate, ActionFailed, motor), e, now); r.1.Some? && r.1.value.code == Failed
  {
  }

  lemma {:induction false} RunChecked(c: Command, e: Env, now: nat, run: seq<Event>, i: nat)
    requires IsRun(c, e, now, run) && UnderLimits(e, run, e.limits) && c.kind != SetMode && i < |run|
    ensures run[i].pre.Valid() && Checked(run[i].pre, e.limits)
  {
    hide Act, OneShot.Started, Checked;
    if i == 0 {
      StartChecked(c, e, now);
    } else {
      RunChecked(c, e, now, run, i - 1);
      RunLive(c, e, now, run, i - 1);
      EventChecked(run[i - 1], e.limits);
    }
  }

  lemma EventChecked(e: Event, limits: seq<Limits>)
    requires CallOk(e.call) && Live(e.pre) && (e.post, e.ended) == Act(e.pre, e.call) && e.ended.None?
    requires |limits| == JOINTS && Checked(e.pre, limits) && (e.call.Service? ==> e.call.env.limits == limits)
    ensures e.post.Valid() && Checked(e.post, limits)
  {
    CallKeepsLive(e.pre, e.call);
    if e.call.Service? {
      ServiceJustified(e.pre, e.call.env, e.call.now);
      hide Serviced, Checked, Justified;
      JustifiedIsChecked(e.pre, e.call.env, Serviced(e.pre, e.call.env, e.call.now));
    } else {
      PoppedIsChecked(e.pre, e.call.now, limits);
    }
  }

  lemma PoppedIsChecked(a: Action, now: nat, limits: seq<Limits>)
    requires a.Valid() && |limits| == JOINTS && Checked(a, limits)
    ensures Popped(a, now).Valid() && Checked(Popped(a, now), limits)
  {
    hide Ranges, GainsFit, AllFinite;
  }

  ghost predicate Completes(c: Command, e: Env, now: nat, run: seq<Event>) {
    IsRun(c, e, now, run) && run != [] && run[|run| - 1].ended.Some? && run[|run| - 1].ended.value.code == Completed
  }

  /** Nothing completes that its guards refuse. */
  lemma CompletedMeansGuards(c: Command, e: Env, now: nat, run: seq<Event>)
    requires Completes(c, e, now, run) && UnderLimits(e, run, e.limits) && c.kind != SetMode
    ensures Guards(c, e.limits)
  {
    var last := run[|run| - 1];
    RunLive(c, e, now, run, |run| - 1);
    RunChecked(c, e, now, run, |run| - 1);
    hide Act, OneShot.Started, Ranges, GainsFit;
    EndedInDisable(last);
  }

  lemma EndedInDisable(e: Event)
    requires CallOk(e.call) && Live(e.pre) && (e.post, e.ended) == Act(e.pre, e.call)
    requires e.ended.Some? && e.ended.value.code == Completed && e.pre.command.kind != SetMode
    ensures e.pre.state == DisableWait
  {
    CompletedIsSuccess(e);
    hide Act;
  }

  // ----- Sufficiency: cooperative motors -----

  /** Where cooperative motors stand: on the targets, or anywhere for a hold. */
  function Goal(c: Command): (g: seq<real>)
    requires c.Valid()
    ensures |g| == JOINTS
  {
    if Still(c) then Zero() else TargetsOf(c)
  }

  /** Every motor reports at the goal, at rest and without fault. */
  function Report(stamp: nat, driver: Driver, goal: seq<real>): Snapshot
    requires |goal| == JOINTS
  {
    Snapshot(true, ALL, seq(JOINTS, j requires 0 <= j < JOINTS => Sample(stamp, driver, false, goal[j], 0.0)))
  }

  predicate ValidLimits(limits: seq<Limits>) {
    |limits| == JOINTS && forall j | 0 <= j < JOINTS :: limits[j].Valid()
  }

  function World(stamp: nat, driver: Driver, c: Command, limits: seq<Limits>): (e: Env)
    requires c.Valid() && ValidLimits(limits)
    ensures e.Sized() && e.limits == limits
  {
    var all := Frames(|c.mask|);
    Env(Report(stamp, driver, Goal(c)), ALL, Complete, Complete, None, limits, all, all, all, all)
  }

  /** Nothing is discovered yet. */
  function Undiscovered(c: Command, limits: seq<Limits>): (e: Env)
    requires c.Valid() && ValidLimits(limits)
    ensures e.Sized() && e.limits == limits
  {
    World(0, Disabled, c, limits).(verified := {})
  }

  /** The clock can still represent every fixed deadline. */
  predicate Soon(now: nat) {
    now > 0 && now + 2 * SETTLE_US < U64_MAX
  }

  lemma InAll(mask: set<nat>)
    requires forall j | j in mask :: j < JOINTS
    ensures mask <= ALL
  {
  }

  function Flat(stamp: nat): seq<nat> {
    seq(JOINTS, _ => stamp)
  }

  /** An action of a command, aimed at the goal, waiting in a state with the batch of its motors. */
  predicate Waits(a: Action, c: Command, state: State, stamp: nat, read: nat) {
    && a.Valid() && c.Valid() && a.command == c && a.targets == Goal(c) && a.state == state
    && a.batch.count == |c.mask| && a.batch.read == read && a.baseline == Flat(stamp)
  }

  lemma ReportStamps(stamp: nat, driver: Driver, goal: seq<real>)
    requires |goal| == JOINTS
    ensures Stamps(Report(stamp, driver, goal)) == Flat(stamp) && Positions(Report(stamp, driver, goal)) == goal
  {
  }

  lemma ReportIsGood(before: nat, stamp: nat, driver: Driver, c: Command)
    requires c.Valid()
    ensures var s := Report(stamp, driver, Goal(c));
            && c.mask <= s.valid && HaveState(s, c.mask, driver) && FaultFree(s, c.mask)
            && (driver == Disabled ==> SafeForModeSwitch(s, c.mask))
            && (before < stamp ==> Advanced(s, c.mask, Flat(before)))
  {
    InAll(c.mask);
  }

  lemma ArrivedAtGoal(a: Action, stamp: nat, driver: Driver, limits: seq<Limits>)
    requires a.Valid() && ValidLimits(limits) && a.targets == Goal(a.command)
    ensures Arrived(a, World(stamp, driver, a.command, limits))
  {
    InAll(a.command.mask);
  }

  // ----- What the guards let through -----

  lemma GuardsValidate(a: Action, stamp: nat, driver: Driver, limits: seq<Limits>)
    requires a.Valid() && ValidLimits(limits) && Guards(a.command, limits) && a.command.kind != SetMode && a.targets == Goal(a.command)
    ensures Invalid(a, World(stamp, driver, a.command, limits)).None?
  {
    var c, e := a.command, World(stamp, driver, a.command, limits);
    InAll(c.mask);
    if c.kind == Move {
      NoFault(c.mask, MoveFaults(a, e), 0);
    } else {
      NoFault(c.mask, SpeedFaults(a, e), 0);
      FramedIff(c.mask, MitFaults(e, a.targets, Speeds(c), c.gains.torque.v));
    }
  }

  lemma GuardsStand(c: Command, e: Env)
    requires c.Valid() && e.Sized() && c.kind != SetMode && Guards(c, e.limits)
    ensures StandFrames(c, e, Goal(c)) == Frames(|c.mask|)
  {
    FramedIff(c.mask, PosFaults(e, Goal(c), Zero()));
    if c.mit { FramedIff(c.mask, MitFaults(e, Goal(c), Zero(), c.gains.torque.v)); }
  }

  lemma GuardsMove(c: Command, e: Env)
    requires c.Valid() && e.Sized() && c.kind == Move && Guards(c, e.limits)
    ensures PosFrames(c, e, Goal(c), Speeds(c)) == Frames(|c.mask|)
  {
    FramedIff(c.mask, PosFaults(e, Goal(c), Speeds(c)));
  }

  /** A reference that starts at the goal stays there. */
  lemma SampledAtGoal(a: Action, at: int)
    requires a.Valid() && a.plan.durationUs > 0 && a.plan.starts == a.targets
    ensures Sampled(a, at) == a.targets && SampledVelocities(a, at) == Zero()
  {
    hide Quintic.Shape, Fraction, Slope;
  }

  lemma GuardsSample(a: Action, e: Env, at: int)
    requires a.Valid() && e.Sized() && a.command.kind != SetMode && !Still(a.command) && Guards(a.command, e.limits)
    requires a.plan.durationUs > 0 && a.plan.starts == a.targets == Goal(a.command)
    ensures ReferenceFrames(a, e, at) == Frames(|a.command.mask|)
  {
    SampledAtGoal(a, at);
    hide Sampled, SampledVelocities;
    if a.command.kind == Mit {
      FramedIff(a.command.mask, MitFaults(e, a.targets, Zero(), a.command.gains.torque.v));
    } else {
      GuardsMove(a.command, e);
    }
  }

  lemma NoDistance(a: Action, e: Env, j: nat)
    requires a.Valid() && e.Sized() && j < JOINTS && Guards(a.command, e.limits) && a.command.kind != SetMode && !Still(a.command)
    requires j in a.command.mask && e.snapshot.joints[j].position == a.targets[j]
    ensures !Endless(a, e, j) && TimeOf(a, e, j) == if a.command.Reference() then 0.0 else SETTLE_US as real
  {
    var speed := Speeds(a.command)[j];
    assert speed > 0.0 && Distance(a, e, j) == 0.0;
    assert 0.0 / speed == 0.0;
  }

  lemma {:induction false} SpanFits(a: Action, e: Env, j: nat)
    requires a.Valid() && e.Sized() && j <= JOINTS && Guards(a.command, e.limits) && a.command.kind != SetMode && !Still(a.command)
    requires Positions(e.snapshot) == a.targets
    ensures FirstEndless(a, e, j).None? && Slowest(a, e, j) <= if a.command.Reference() then 0.0 else SETTLE_US as real
    decreases JOINTS - j
  {
    hide Guards, Endless, TimeOf;
    if j < JOINTS {
      assert Positions(e.snapshot)[j] == e.snapshot.joints[j].position;
      SpanFits(a, e, j + 1);
      if j in a.command.mask { NoDistance(a, e, j); }
    }
  }

  /** On the goal already, a reference takes the least time and an endpoint move its settle time. */
  lemma SpanAtGoal(a: Action, e: Env)
    requires a.Valid() && e.Sized() && Guards(a.command, e.limits) && a.command.kind != SetMode && !Still(a.command)
    requires Positions(e.snapshot) == a.targets
    ensures SpanOf(a, e).Lasting? && SpanOf(a, e).us <= SETTLE_US
    ensures a.command.Reference() ==> SpanOf(a, e).us == Quintic.MINIMUM_US
  {
    SpanFits(a, e, 0);
    hide Slowest, FirstEndless, Guards;
    assert 0 <= Ceil(Slowest(a, e, 0)) <= (if a.command.Reference() then 0 else SETTLE_US);
  }

  // ----- The cycle, call by call -----

  lemma {:induction false} NoneUnsafe(a: Action, stamp: nat, driver: Driver, limits: seq<Limits>, j: nat, now: nat)
    requires a.Valid() && ValidLimits(limits) && j <= JOINTS && GuardedStage(a.state).Some? && a.targets == Goal(a.command)
    requires a.state == MoveWait && a.command.kind == Move && a.command.bench ==> stamp <= now && a.plan.durationUs > 0 && a.plan.starts == a.targets
    ensures FirstUnsafe(a, World(stamp, driver, a.command, limits), j, now).None?
    decreases JOINTS - j
  {
    if j < JOINTS {
      NoneUnsafe(a, stamp, driver, limits, j + 1, now);
      NotUnsafe(a, stamp, driver, limits, j, now);
      hide Unsafe;
    }
  }

  lemma NotUnsafe(a: Action, stamp: nat, driver: Driver, limits: seq<Limits>, j: nat, now: nat)
    requires a.Valid() && ValidLimits(limits) && j < JOINTS && a.targets == Goal(a.command)
    requires a.state == MoveWait && a.command.kind == Move && a.command.bench ==> stamp <= now && a.plan.durationUs > 0 && a.plan.starts == a.targets
    ensures Unsafe(a, World(stamp, driver, a.command, limits), j, now).None?
  {
    var e := World(stamp, driver, a.command, limits);
    assert j in ALL;
    if a.state == MoveWait && a.command.kind == Move && a.command.bench {
      SampledAtGoal(a, if stamp > a.plan.referenceUs then a.plan.referenceUs else stamp);
      assert e.snapshot.joints[j].position == a.targets[j];
      hide Sampled;
    }
  }

  lemma Discovers(a: Action, limits: seq<Limits>, now: nat)
    requires a.Valid() && ValidLimits(limits) && a.command.kind != SetMode && a.state == Discovery && a.targets == TargetsOf(a.command)
    requires Guards(a.command, limits) && forall j | 0 <= j < JOINTS && j !in a.command.mask :: a.targets[j] == 0.0
    ensures var r := Serviced(a, World(0, Disabled, a.command, limits), now);
            r.1.None? && r.0.Valid() && r.0.state == ModeSwitch && r.0.command == a.command && r.0.targets == Goal(a.command)
  {
    var e := World(0, Disabled, a.command, limits);
    ReportIsGood(0, 0, Disabled, a.command);
    var b := Aimed(a, e);
    assert b.targets == Goal(a.command);
    GuardsValidate(b, 0, Disabled, limits);
    InAll(a.command.mask);
    hide SafeForModeSwitch, HaveState, FaultFree, Advanced, Cleanup, BeginPreflight, Invalid, Goal, TargetsOf, Aimed, Guards;
  }

  lemma Switches(a: Action, limits: seq<Limits>, now: nat)
    requires a.Valid() && ValidLimits(limits) && a.command.kind != SetMode && a.state == ModeSwitch && Soon(now) && a.targets == Goal(a.command)
    ensures var r := Serviced(a, World(0, Disabled, a.command, limits), now);
            r.1.None? && Waits(r.0, a.command, ClearWait, 0, 0)
  {
    ReportStamps(0, Disabled, Goal(a.command));
    hide Stamps, Cleanup, Goal, Report, Flat;
  }

  lemma Clears(a: Action, c: Command, limits: seq<Limits>, now: nat)
    requires Waits(a, c, ClearWait, 0, |c.mask|) && ValidLimits(limits) && Soon(now)
    ensures var r := Serviced(a, World(1, Disabled, c, limits), now); r.1.None? && Waits(r.0, c, EnableWait, 1, 0)
  {
    ReportStamps(1, Disabled, Goal(c));
    ReportIsGood(0, 1, Disabled, c);
    hide Stamps, Cleanup, SafeForModeSwitch, HaveState, FaultFree, Advanced, Report, Goal, Flat;
  }

  /** Moving toward the goal it already has reached. */
  predicate OnTheWay(a: Action, c: Command, now: nat) {
    && a.Valid() && c.Valid() && a.command == c && a.targets == Goal(c) && a.state == MoveWait
    && (c.Reference() ==> a.plan.startUs == now && a.plan.durationUs == Quintic.MINIMUM_US && a.plan.starts == a.targets
                          && (c.kind == Move ==> a.plan.referenceUs == now))
  }

  predicate Holding(a: Action, c: Command, now: nat) {
    && a.Valid() && c.Valid() && a.command == c && a.targets == Goal(c) && a.state == HoldWait
    && a.batch.count == |c.mask| && a.batch.read == 0 && a.deadlineUs == now + if c.mit then c.holdUs else ACTION_TIMEOUT_US
  }

  lemma StartsToHold(a: Action, c: Command, e: Env, now: nat)
    requires a.Valid() && c.Valid() && a.command == c && a.targets == Goal(c) && e.Sized() && c.kind != SetMode && Guards(c, e.limits)
    requires Soon(now + c.holdUs)
    ensures var r := StartHold(a, e, now); r.1.None? && Holding(r.0, c, now)
  {
    GuardsStand(c, e);
    hide StandFrames, Cleanup, Goal, Guards;
  }

  /** Either the motion starts, or a MIT hold is held at once. */
  lemma Enables(a: Action, c: Command, limits: seq<Limits>, now: nat)
    requires Waits(a, c, EnableWait, 1, |c.mask|) && ValidLimits(limits) && c.kind != SetMode && Guards(c, limits)
    requires Soon(now) && Soon(now + c.holdUs)
    ensures var r := Serviced(a, World(2, Enabled, c, limits), now); r.1.None? && (Holding(r.0, c, now) || OnTheWay(r.0, c, now))
  {
    var e := World(2, Enabled, c, limits);
    var b := a.(enabled := c.mask);
    ReportStamps(2, Enabled, Goal(c));
    ReportIsGood(1, 2, Enabled, c);
    NoneUnsafe(a, 2, Enabled, limits, 0, now);
    if Still(c) { StartsToHold(b, c, e, now); } else { StartsToMove(b, c, e, now); }
    hide Cleanup, HaveState, FaultFree, Advanced, FirstUnsafe, Report, Goal, Flat, StartHold, Guards, SpanOf, StartReference, StartEndpoint;
  }

  lemma StartsToMove(a: Action, c: Command, e: Env, now: nat)
    requires a.Valid() && c.Valid() && a.command == c && a.targets == Goal(c) && e.Sized() && c.kind != SetMode && !Still(c)
    requires Guards(c, e.limits) && Positions(e.snapshot) == Goal(c) && Soon(now) && c.mask <= e.snapshot.valid
    ensures var r := StartMotion(a, e, now); r.1.None? && OnTheWay(r.0, c, now)
  {
    SpanAtGoal(a, e);
    var us := SpanOf(a, e).us;
    if c.Reference() {
      GuardsSample(Planned(a, e, now, us), e, now);
    } else {
      GuardsMove(c, e);
    }
    hide Cleanup, SpanOf, ReferenceFrames, PosFrames, Goal, Guards, Positions;
  }

  lemma Arrives(a: Action, c: Command, limits: seq<Limits>, start: nat, now: nat)
    requires OnTheWay(a, c, start) && ValidLimits(limits) && c.kind != SetMode && Guards(c, limits)
    requires now == start + Quintic.MINIMUM_US && Soon(now) && Soon(now + c.holdUs)
    ensures var r := Serviced(a, World(3, Enabled, c, limits), now); r.1.None? && Holding(r.0, c, now)
  {
    var e := World(3, Enabled, c, limits);
    ArrivedAtGoal(a, 3, Enabled, limits);
    NoneUnsafe(a, 3, Enabled, limits, 0, now);
    StartsToHold(a, c, e, now);
    hide Cleanup, StartHold, Arrived, FirstUnsafe, Goal, Guards, Report;
  }

  /** A MIT hold lasts until its deadline, any other until its frames have left. */
  lemma Releases(a: Action, c: Command, limits: seq<Limits>, now: nat)
    requires a.Valid() && ValidLimits(limits) && a.command == c && a.targets == Goal(c) && a.state == HoldWait && Soon(now)
    requires if c.mit then a.deadlineUs == now else a.batch.Emptied()
    ensures var r := Serviced(a, World(4, Enabled, c, limits), now); r.1.None? && Waits(r.0, c, DisableWait, 4, 0)
  {
    NoneUnsafe(a, 4, Enabled, limits, 0, now);
    ReportStamps(4, Enabled, Goal(c));
    hide Stamps, Cleanup, FirstUnsafe, Report, Goal, Flat;
  }

  lemma Ends(a: Action, c: Command, limits: seq<Limits>, now: nat)
    requires Waits(a, c, DisableWait, 4, |c.mask|) && ValidLimits(limits)
    ensures Serviced(a, World(5, Disabled, c, limits), now).1 == Some(Terminal(Completed, a.failure))
  {
    ReportIsGood(4, 5, Disabled, c);
    NoneUnsafe(a, 5, Disabled, limits, 0, now);
    hide Cleanup, SafeForModeSwitch, HaveState, FaultFree, Advanced, FirstUnsafe, Report, Goal, Flat;
  }

  // ----- The whole cycle -----

  function Last(c: Command, e: Env, now: nat, run: seq<Event>): Action
    requires c.Valid() && e.Sized()
  {
    if run == [] then Started(c, e, now).0 else run[|run| - 1].post
  }

  /** A run of an action that has not ended. */
  ghost predicate Open(c: Command, now: nat, limits: seq<Limits>, run: seq<Event>)
    requires c.Valid() && ValidLimits(limits)
  {
    var e := Undiscovered(c, limits);
    IsRun(c, e, now, run) && UnderLimits(e, run, limits) && (run != [] ==> run[|run| - 1].ended.None?)
  }

  /** One more call of an action that has not ended. */
  lemma Extend(c: Command, now: nat, limits: seq<Limits>, run: seq<Event>, call: Call) returns (longer: seq<Event>)
    requires c.Valid() && ValidLimits(limits) && Open(c, now, limits, run) && CallOk(call) && (call.Service? ==> call.env.limits == limits)
    ensures var e := Undiscovered(c, limits); var a := Last(c, e, now, run);
            && a.Valid() && IsRun(c, e, now, longer) && UnderLimits(e, longer, limits) && longer != []
            && (Last(c, e, now, longer), longer[|longer| - 1].ended) == Act(a, call)
            && (Act(a, call).1.None? ==> Open(c, now, limits, longer))
  {
    hide Act, OneShot.Started;
    var e := Undiscovered(c, limits);
    var a := Last(c, e, now, run);
    if run == [] {
      StartOk(c, e, now);
    } else {
      RunLive(c, e, now, run, |run| - 1);
      CallKeepsLive(run[|run| - 1].pre, run[|run| - 1].call);
    }
    var (post, ended) := Act(a, call);
    longer := run + [Event(call, a, post, ended)];
  }

  lemma Serve(c: Command, now: nat, limits: seq<Limits>, run: seq<Event>, env: Env, at: nat) returns (longer: seq<Event>)
    requires c.Valid() && ValidLimits(limits) && Open(c, now, limits, run) && env.Sized() && env.limits == limits && at > 0
    requires var a := Last(c, Undiscovered(c, limits), now, run); a.Valid() && Serviced(a, env, at).1.None?
    ensures Open(c, now, limits, longer)
    ensures Last(c, Undiscovered(c, limits), now, longer) == Serviced(Last(c, Undiscovered(c, limits), now, run), env, at).0
  {
    hide Serviced, OneShot.Started, IsRun, Open, Last, Undiscovered;
    longer := Extend(c, now, limits, run, Service(env, at));
  }

  /** The pump sends the whole batch. */
  lemma {:induction false} SendAll(c: Command, now: nat, limits: seq<Limits>, run: seq<Event>, at: nat) returns (longer: seq<Event>)
    requires c.Valid() && ValidLimits(limits) && Open(c, now, limits, run) && at > 0
    ensures Open(c, now, limits, longer)
    ensures var a, b := Last(c, Undiscovered(c, limits), now, run), Last(c, Undiscovered(c, limits), now, longer);
            b.Valid() && b.command == a.command && b.targets == a.targets && b.state == a.state && b.baseline == a.baseline
            && b.batch.count == a.batch.count && b.batch.read == if a.batch.Emptied() then a.batch.read else a.batch.count
    decreases var a := Last(c, Undiscovered(c, limits), now, run); if a.batch.Emptied() then 0 else a.batch.count - a.batch.read
  {
    hide OneShot.Started, IsRun, Open, Last, Undiscovered;
    var a := Last(c, Undiscovered(c, limits), now, run);
    var next := Extend(c, now, limits, run, Pop(at));
    PoppedOne(a, at);
    if a.batch.Emptied() {
      longer := next;
    } else {
      longer := SendAll(c, now, limits, next, at);
    }
  }

  lemma PoppedOne(a: Action, at: nat)
    requires a.Valid()
    ensures var b := Popped(a, at);
            b.Valid() && b.command == a.command && b.targets == a.targets && b.state == a.state && b.baseline == a.baseline
            && b.batch.count == a.batch.count && b.batch.read == if a.batch.Emptied() then a.batch.read else a.batch.read + 1
  {
  }

  lemma Begins(c: Command, limits: seq<Limits>, now: nat)
    requires c.Valid() && ValidLimits(limits) && c.kind != SetMode && Guards(c, limits) && now > 0
    ensures Open(c, now, limits, [])
    ensures var a := Last(c, Undiscovered(c, limits), now, []);
            a.Valid() && a.state == Discovery && a.command == c && a.targets == TargetsOf(c)
            && forall j | 0 <= j < JOINTS && j !in c.mask :: a.targets[j] == 0.0
  {
    FiniteMeansNone(c, 0);
    var j :| j in c.mask;
    assert !(c.mask <= Undiscovered(c, limits).verified);
  }

  /** From discovery to enabled motors. */
  lemma ReachesEnabled(c: Command, limits: seq<Limits>, now: nat) returns (run: seq<Event>)
    requires c.Valid() && ValidLimits(limits) && c.kind != SetMode && Guards(c, limits) && Soon(now)
    ensures Open(c, now, limits, run) && Waits(Last(c, Undiscovered(c, limits), now, run), c, EnableWait, 1, |c.mask|)
  {
    hide OneShot.Started, Serviced, Open, Last, Undiscovered, World, Guards, Goal, TargetsOf;
    var e := Undiscovered(c, limits);
    Begins(c, limits, now);
    Discovers(Last(c, e, now, []), limits, now);
    run := Serve(c, now, limits, [], World(0, Disabled, c, limits), now);
    Switches(Last(c, e, now, run), limits, now);
    run := Serve(c, now, limits, run, World(0, Disabled, c, limits), now);
    run := SendAll(c, now, limits, run, now);
    Clears(Last(c, e, now, run), c, limits, now);
    run := Serve(c, now, limits, run, World(1, Disabled, c, limits), now);
    run := SendAll(c, now, limits, run, now);
  }

  /** From enabled motors to a hold. */
  lemma ReachesHold(c: Command, limits: seq<Limits>, now: nat) returns (run: seq<Event>, at: nat)
    requires c.Valid() && ValidLimits(limits) && c.kind != SetMode && Guards(c, limits) && Soon(now + Quintic.MINIMUM_US + c.holdUs) && now > 0
    ensures Open(c, now, limits, run) && Holding(Last(c, Undiscovered(c, limits), now, run), c, at) && now <= at <= now + Quintic.MINIMUM_US
  {
    var e := Undiscovered(c, limits);
    run := ReachesEnabled(c, limits, now);
    hide OneShot.Started, Serviced, Open, Last, Undiscovered, World, Guards, Goal, TargetsOf, Waits, Holding, OnTheWay;
    Enables(Last(c, e, now, run), c, limits, now);
    assert Last(c, e, now, run).Valid();
    run := Serve(c, now, limits, run, World(2, Enabled, c, limits), now);
    at := now;
    var a := Last(c, e, now, run);
    if !Holding(a, c, now) {
      at := now + Quintic.MINIMUM_US;
      assert a.Valid();
      Arrives(a, c, limits, now, at);
      run := Serve(c, now, limits, run, World(3, Enabled, c, limits), at);
    }
  }

  /** A command that its guards admit has a run to COMPLETED. */
  lemma GuardsCanComplete(c: Command, limits: seq<Limits>, now: nat) returns (run: seq<Event>)
    requires c.Valid() && ValidLimits(limits) && c.kind != SetMode && Guards(c, limits) && Soon(now + Quintic.MINIMUM_US + c.holdUs) && now > 0
    ensures Completes(c, Undiscovered(c, limits), now, run) && UnderLimits(Undiscovered(c, limits), run, limits)
  {
    var e := Undiscovered(c, limits);
    var at: nat;
    run, at := ReachesHold(c, limits, now);
    var until := at + if c.mit then c.holdUs else 0;
    hide OneShot.Started, Serviced, Popped, IsRun, Open, Last, Undiscovered, World, Guards, Goal;
    if !c.mit { run := SendAll(c, now, limits, run, at); }
    Releases(Last(c, e, now, run), c, limits, until);
    run := Serve(c, now, limits, run, World(4, Enabled, c, limits), until);
    run := SendAll(c, now, limits, run, until);
    Ends(Last(c, e, now, run), c, limits, until);
    run := Extend(c, now, limits, run, Service(World(5, Disabled, c, limits), until));
  }

  /** Under given limits, and while the clock can represent the deadlines, a move or MIT command has a run
      that completes if and only if its guards hold. */
  lemma CompletableIffGuards(c: Command, limits: seq<Limits>, now: nat)
    requires c.Valid() && ValidLimits(limits) && c.kind != SetMode && now > 0 && Soon(now + Quintic.MINIMUM_US + c.holdUs)
    ensures (exists e: Env, run: seq<Event> :: e.Sized() && Completes(c, e, now, run) && UnderLimits(e, run, limits)) <==> Guards(c, limits)
  {
    if Guards(c, limits) {
      var run := GuardsCanComplete(c, limits, now);
      assert Undiscovered(c, limits).Sized();
    }
    forall e: Env, run: seq<Event> | e.Sized() && Completes(c, e, now, run) && UnderLimits(e, run, limits)
      ensures Guards(c, limits)
    {
      CompletedMeansGuards(c, e, now, run);
    }
  }
}
