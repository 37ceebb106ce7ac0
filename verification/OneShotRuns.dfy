/** Properties of the one-shot action over every run of service calls and frame pops. */
module OneShotRuns {
  import opened Common
  import opened OneShot

  // ----- What one service call may do -----

  /** Only a batch that never restarts the deadline is refilled in place. */
  predicate Stays(a: Action, b: Action) {
    && b.state == a.state && b.deadlineUs == a.deadlineUs && b.baseline == a.baseline
    && (Rearms(a) ==> b.batch == a.batch)
  }

  /** A state change goes up the cycle and arms a new deadline. The closing DISABLE batch starts
      with no frame sent and the snapshot's stamps as its baseline. */
  predicate Climbs(a: Action, b: Action, e: Env, now: nat)
    requires e.Sized()
  {
    && Rank(b.state) > Rank(a.state) && (now > 0 ==> b.deadlineUs > 0)
    && (b.state == DisableWait ==> b.baseline == Stamps(e.snapshot) && e.disable.Frames? && b.batch == Batch(DisableFrames, e.disable.count, 0))
  }

  /** The only two ways to succeed: a bench mode switch, and a confirmed final DISABLE. */
  predicate Success(a: Action, e: Env)
    requires a.Valid() && e.Sized()
  {
    || (a.state == ModeSwitch && a.command.kind == SetMode && a.command.bench && e.modeSwitch == Complete)
    || (a.state == DisableWait && a.batch.Emptied() && Advanced(e.snapshot, a.command.mask, a.baseline)
        && HaveState(e.snapshot, a.command.mask, Disabled))
  }

  /** Moves on, or fails. */
  predicate Progresses(a: Action, e: Env, now: nat, r: (Action, Option<Terminal>))
    requires e.Sized()
  {
    && r.0.Valid() && r.0.command == a.command
    && match r.1
       case None => Climbs(a, r.0, e, now)
       case Some(t) => t.code == Failed
  }

  predicate Sound(a: Action, e: Env, now: nat, r: (Action, Option<Terminal>))
    requires a.Valid() && e.Sized()
  {
    || Progresses(a, e, now, r)
    || (r.0.Valid() && r.0.command == a.command && r.1.None? && Stays(a, r.0) && !Expired(a, now))
    || (r == (a, Some(Terminal(Completed, a.failure))) && Success(a, e))
  }

  lemma CleanupProgresses(a: Action, f: Failure, e: Env, now: nat)
    requires a.Valid() && e.Sized() && Rank(a.state) <= 8
    ensures Progresses(a, e, now, Cleanup(a, f, e, now))
    ensures Cleanup(a, f, e, now).1.None? ==> Rank(Cleanup(a, f, e, now).0.state) >= 9
  {
    hide MayHold, Stamps, StandFrames, Positions;
    StampsSized(e.snapshot);
  }

  /** A cleanup begun from a state further up still counts as progress from below. */
  lemma CleanupFrom(a: Action, b: Action, f: Failure, e: Env, now: nat)
    requires a.Valid() && b.Valid() && b.command == a.command && e.Sized() && Rank(a.state) <= 8 && Rank(b.state) <= 8
    ensures Progresses(a, e, now, Cleanup(b, f, e, now))
  {
    CleanupProgresses(b, f, e, now);
    hide Cleanup;
  }

  lemma HoldProgresses(a: Action, b: Action, e: Env, now: nat)
    requires a.Valid() && b.Valid() && b.command == a.command && e.Sized() && Rank(a.state) < 7 && Rank(b.state) < 7
    ensures Progresses(a, e, now, StartHold(b, e, now))
  {
    hide Cleanup, StandFrames;
    match StandFrames(b.command, e, b.targets)
    case Rejected(error) => CleanupFrom(a, b, Failure(HoldStage, error, 0), e, now);
    case Frames(count) => CleanupFrom(a, b.Enter(HoldWait, HoldFrames, count), Failure(HoldStage, ActionFailed, 0), e, now);
  }

  lemma DisableProgresses(a: Action, e: Env, now: nat)
    requires a.Valid() && e.Sized() && Rank(a.state) < 8
    ensures Progresses(a, e, now, StartDisable(a, e, now))
  {
    hide Cleanup, Stamps;
    if e.disable.Rejected? {
      CleanupFrom(a, a, Failure(DisableStage, e.disable.error, 0), e, now);
    } else {
      StampsSized(e.snapshot);
      CleanupFrom(a, a.Enter(DisableWait, DisableFrames, e.disable.count).(baseline := Stamps(e.snapshot)), Failure(DisableStage, ActionFailed, 0), e, now);
    }
  }

  lemma StampsSized(s: Snapshot)
    requires s.Sized()
    ensures |Stamps(s)| == JOINTS
  {
  }

  lemma MotionProgresses(a: Action, b: Action, e: Env, now: nat)
    requires a.Valid() && b.Valid() && b.command == a.command && e.Sized() && Rank(a.state) <= 5 && Rank(b.state) <= 5
    ensures Progresses(a, e, now, StartMotion(b, e, now))
  {
    hide Cleanup, StartHold, SpanOf, StartReference, StartEndpoint;
    HoldProgresses(a, b, e, now);
    CleanupFrom(a, b, Failure(MotionStage, Stale, 0), e, now);
    match SpanOf(b, e)
    case TooLong(motor) => CleanupFrom(a, b, Failure(MotionStage, ActionFailed, motor), e, now);
    case Lasting(us) =>
      ReferenceProgresses(a, b, e, now, us);
      EndpointProgresses(a, b, e, now, us);
  }

  lemma ReferenceProgresses(a: Action, b: Action, e: Env, now: nat, us: nat)
    requires a.Valid() && b.Valid() && b.command == a.command && e.Sized() && Rank(a.state) <= 5 && Rank(b.state) <= 5
    ensures Progresses(a, e, now, StartReference(b, e, now, us))
  {
    hide Cleanup, ReferenceFrames, Positions;
    assert |Positions(e.snapshot)| == JOINTS;
    var c := Planned(b, e, now, us);
    CleanupFrom(a, c, Failure(MotionStage, ActionFailed, 0), e, now);
    CleanupFrom(a, Referenced(c, now), Failure(MotionStage, ActionFailed, 0), e, now);
  }

  lemma EndpointProgresses(a: Action, b: Action, e: Env, now: nat, us: nat)
    requires a.Valid() && b.Valid() && b.command == a.command && e.Sized() && Rank(a.state) <= 5 && Rank(b.state) <= 5
    ensures Progresses(a, e, now, StartEndpoint(b, e, now, us))
  {
    hide Cleanup, PosFrames;
    CleanupFrom(a, b, Failure(MotionStage, ActionFailed, 0), e, now);
    match PosFrames(b.command, e, b.targets, Speeds(b.command))
    case Rejected(error) => CleanupFrom(a, b, Failure(MotionStage, error, 0), e, now);
    case Frames(_) =>
  }

  lemma ValidateProgresses(a: Action, e: Env, now: nat)
    requires a.Valid() && e.Sized() && Rank(a.state) <= 2
    ensures Progresses(a, e, now, ValidateTargets(a, e, now))
  {
    hide Cleanup, SafeForModeSwitch, Invalid;
    var b := Aimed(a, e);
    CleanupFrom(a, a, Failure(Validate, ActionFailed, 1), e, now);
    if Invalid(b, e).Some? { CleanupFrom(a, b, Invalid(b, e).value, e, now); }
    if e.begins.Some? { CleanupFrom(a, b, Failure(ModeStage, e.begins.value, 0), e, now); }
  }

  lemma PreflightProgresses(a: Action, e: Env, now: nat)
    requires a.Valid() && e.Sized() && a.state == Discovery
    ensures Progresses(a, e, now, BeginPreflight(a, e, now))
  {
    hide Cleanup, Stamps;
    StampsSized(e.snapshot);
    var b := a.(baseline := Stamps(e.snapshot));
    if e.emergency.Rejected? {
      CleanupFrom(a, b, Failure(Validate, e.emergency.error, 0), e, now);
    } else {
      CleanupFrom(a, b.Enter(Preflight, DisableFrames, e.emergency.count), Failure(Validate, ActionFailed, 0), e, now);
    }
  }

  lemma PrepareProgresses(a: Action, e: Env, now: nat)
    requires a.Valid() && e.Sized() && a.state == Discovery
    ensures Progresses(a, e, now, Prepare(a, e, now))
  {
    hide ValidateTargets, BeginPreflight, SafeForModeSwitch;
    ValidateProgresses(a, e, now);
    PreflightProgresses(a, e, now);
  }

  lemma SetupEarly(a: Action, e: Env, now: nat)
    requires a.Valid() && e.Sized() && Rank(a.state) <= 3
    ensures Sound(a, e, now, Setup(a, e, now))
  {
    hide Prepare, ValidateTargets, Cleanup, Advanced, HaveState, FaultFree, Stamps;
    match a.state
    case Discovery =>
      PrepareProgresses(a, e, now);
      CleanupFrom(a, a, Failure(DiscoveryStage, ActionFailed, 0), e, now);
      CleanupFrom(a, a, Failure(DiscoveryStage, Timeout, 0), e, now);
    case Preflight =>
      ValidateProgresses(a, e, now);
      CleanupFrom(a, a, Failure(Validate, FeedbackTimeout, 0), e, now);
    case ModeSwitch =>
      CleanupFrom(a, a, Failure(ModeStage, ActionFailed, 0), e, now);
      CleanupFrom(a, a, Failure(ModeStage, Timeout, 0), e, now);
      StampsSized(e.snapshot);
      if e.clear.Rejected? { CleanupFrom(a, a, Failure(ClearStage, e.clear.error, 0), e, now); }
      else { CleanupFrom(a, a.Enter(ClearWait, ClearFrames, e.clear.count).(baseline := Stamps(e.snapshot)), Failure(ClearStage, ActionFailed, 0), e, now); }
  }

  lemma SetupMiddle(a: Action, e: Env, now: nat)
    requires a.Valid() && e.Sized() && 4 <= Rank(a.state) <= 5
    ensures Sound(a, e, now, Setup(a, e, now))
  {
    hide StartMotion, Cleanup, Advanced, HaveState, FaultFree, Stamps;
    if a.state == ClearWait {
      CleanupFrom(a, a, Failure(ClearStage, FeedbackTimeout, 0), e, now);
      StampsSized(e.snapshot);
      if e.enable.Rejected? { CleanupFrom(a, a, Failure(EnableStage, e.enable.error, 0), e, now); }
      else { CleanupFrom(a, a.Enter(EnableWait, EnableFrames, e.enable.count).(baseline := Stamps(e.snapshot)), Failure(EnableStage, ActionFailed, 0), e, now); }
    } else {
      MotionProgresses(a, a.(enabled := a.command.mask), e, now);
      CleanupFrom(a, a, Failure(EnableStage, FeedbackTimeout, 0), e, now);
    }
  }

  lemma SetupLate(a: Action, e: Env, now: nat)
    requires a.Valid() && e.Sized() && 6 <= Rank(a.state) <= 8
    ensures Sound(a, e, now, Setup(a, e, now))
  {
    hide StartHold, StartDisable, Cleanup, Advanced, HaveState, Arrived, SenderStalled, ReferenceFrames;
    CleanupFrom(a, a, Failure(MotionStage, Timeout, 0), e, now);
    CleanupFrom(a, a, Failure(MotionStage, ActionFailed, 0), e, now);
    CleanupFrom(a, a, Failure(HoldStage, Timeout, 0), e, now);
    CleanupFrom(a, a, Failure(DisableStage, FeedbackTimeout, 0), e, now);
    if a.state == MoveWait { HoldProgresses(a, a, e, now); }
    if a.state == HoldWait { DisableProgresses(a, e, now); }
  }

  lemma SetupCleanup(a: Action, e: Env, now: nat)
    requires a.Valid() && e.Sized() && 9 <= Rank(a.state)
    ensures Sound(a, e, now, Setup(a, e, now))
  {
    hide Advanced, HaveState, Stamps;
    StampsSized(e.snapshot);
  }

  /** A service call ends the action, moves it up the cycle, or leaves state and deadline alone;
      the last is impossible at or past the deadline. */
  lemma ServiceSound(a: Action, e: Env, now: nat)
    requires a.Valid() && e.Sized()
    ensures Sound(a, e, now, Serviced(a, e, now))
  {
    hide Setup, Cleanup, FirstUnsafe;
    if GuardedStage(a.state).Some? && FirstUnsafe(a, e, 0, now).Some? {
      CleanupFrom(a, a, FirstUnsafe(a, e, 0, now).value, e, now);
    } else if Rank(a.state) <= 3 {
      SetupEarly(a, e, now);
    } else if Rank(a.state) <= 5 {
      SetupMiddle(a, e, now);
    } else if Rank(a.state) <= 8 {
      SetupLate(a, e, now);
    } else {
      SetupCleanup(a, e, now);
    }
  }

  // ----- Runs of one action -----

  datatype Call = Service(env: Env, now: nat) | Pop(now: nat)

  predicate CallOk(call: Call) {
    call.now > 0 && (call.Service? ==> call.env.Sized())
  }

  function Act(a: Action, call: Call): (Action, Option<Terminal>)
    requires a.Valid() && CallOk(call)
  {
    match call
    case Service(e, now) => Serviced(a, e, now)
    case Pop(now) => (Popped(a, now), None)
  }

  datatype Event = Event(call: Call, pre: Action, post: Action, ended: Option<Terminal>)

  /** The action was admitted by `first` and only its last call may end it. */
  ghost predicate IsRun(c: Command, e: Env, now: nat, run: seq<Event>) {
    && c.Valid() && e.Sized() && now > 0 && Started(c, e, now).1.None?
    && (forall i | 0 <= i < |run| :: CallOk(run[i].call) && run[i].pre.Valid()
          && (run[i].post, run[i].ended) == Act(run[i].pre, run[i].call))
    && (forall i | 0 <= i < |run| - 1 :: run[i].post == run[i + 1].pre && run[i].ended.None?)
    && (run != [] ==> run[0].pre == Started(c, e, now).0)
  }

  /** An admitted action is at the start of the cycle with a deadline, or already in cleanup. */
  lemma StartOk(c: Command, e: Env, now: nat)
    requires c.Valid() && e.Sized() && now > 0
    ensures var r := Started(c, e, now); r.0.Valid() && r.0.command == c
    ensures Started(c, e, now).1.Some? ==> Started(c, e, now).1.value.code == Failed
    ensures Started(c, e, now).1.None? ==> Started(c, e, now).0.deadlineUs > 0 && Started(c, e, now).0.state != DisableWait
  {
    hide Prepare, Cleanup, FirstNotFinite;
    var a := Fresh(c);
    PrepareProgresses(a, e, now);
    PrepareSkips(a, e, now);
    if FirstNotFinite(c, 0).Some? { StartCleanup(a, Failure(Validate, ActionFailed, FirstNotFinite(c, 0).value + 1), e, now); }
    if e.begins.Some? { StartCleanup(a, Failure(DiscoveryStage, e.begins.value, 0), e, now); }
  }

  lemma StartCleanup(a: Action, f: Failure, e: Env, now: nat)
    requires a.Valid() && e.Sized() && a.state == Discovery
    ensures Progresses(a, e, now, Cleanup(a, f, e, now))
    ensures Cleanup(a, f, e, now).1.None? ==> Cleanup(a, f, e, now).0.state != DisableWait
  {
    CleanupProgresses(a, f, e, now);
  }

  lemma PrepareSkips(a: Action, e: Env, now: nat)
    requires a.Valid() && e.Sized() && a.state == Discovery
    ensures Prepare(a, e, now).0.state != DisableWait
  {
    hide MayHold, SafeForModeSwitch, Stamps;
  }

  predicate Live(a: Action) {
    a.Valid() && a.deadlineUs > 0
  }

  lemma PopKeeps(a: Action, now: nat)
    requires Live(a) && now > 0
    ensures Live(Popped(a, now)) && Popped(a, now).state == a.state && Popped(a, now).baseline == a.baseline
    ensures Popped(a, now).command == a.command
    ensures Popped(a, now).batch.content == a.batch.content && Popped(a, now).batch.count == a.batch.count
    ensures Popped(a, now).batch.read == if a.batch.Emptied() then a.batch.read else a.batch.read + 1
  {
  }

  lemma CallKeepsLive(a: Action, call: Call)
    requires Live(a) && CallOk(call)
    ensures Act(a, call).0.Valid() && Act(a, call).0.command == a.command
    ensures Act(a, call).1.None? ==> Live(Act(a, call).0)
    ensures Act(a, call).1.None? ==> Rank(Act(a, call).0.state) >= Rank(a.state)
  {
    hide Serviced, Popped, Success;
    if call.Service? { ServiceSound(a, call.env, call.now); } else { PopKeeps(a, call.now); }
  }

  lemma {:induction false} RunLive(c: Command, e: Env, now: nat, run: seq<Event>, i: nat)
    requires IsRun(c, e, now, run) && i < |run|
    ensures Live(run[i].pre) && run[i].pre.command == c
  {
    hide Act, Started;
    if i == 0 {
      StartOk(c, e, now);
    } else {
      RunLive(c, e, now, run, i - 1);
      CallKeepsLive(run[i - 1].pre, run[i - 1].call);
    }
  }

  /** The state never moves down the enumeration while the action lives. */
  lemma {:induction false} StateNeverDecreases(c: Command, e: Env, now: nat, run: seq<Event>, i: nat, j: nat)
    requires IsRun(c, e, now, run) && i <= j < |run|
    ensures Rank(run[i].pre.state) <= Rank(run[j].pre.state)
  {
    hide Act, Started;
    if i < j {
      StateNeverDecreases(c, e, now, run, i, j - 1);
      RunLive(c, e, now, run, j - 1);
      CallKeepsLive(run[j - 1].pre, run[j - 1].call);
    }
  }

  /** At or past its deadline every service call ends the action or changes its state. */
  lemma ExpiredServiceMoves(c: Command, e: Env, now: nat, run: seq<Event>, i: nat)
    requires IsRun(c, e, now, run) && i < |run| && run[i].call.Service? && run[i].call.now >= run[i].pre.deadlineUs
    ensures run[i].ended.Some? || Rank(run[i].post.state) > Rank(run[i].pre.state)
  {
    RunLive(c, e, now, run, i);
    ServiceSound(run[i].pre, run[i].call.env, run[i].call.now);
    hide Serviced, Success, Started;
  }

  // ----- Boundedly many changes -----

  /** The pump restarts the deadline of the current state. */
  predicate RearmsNow(e: Event) {
    e.call.Pop? && Rearms(e.pre) && !e.pre.batch.Emptied() && e.pre.batch.read + 1 == e.pre.batch.count
  }

  /** Only such a pop changes a deadline without changing the state. */
  lemma OnlyRearmingMovesDeadline(e: Event)
    requires CallOk(e.call) && Live(e.pre) && (e.post, e.ended) == Act(e.pre, e.call) && e.ended.None?
    requires e.post.state == e.pre.state && e.post.deadlineUs != e.pre.deadlineUs
    ensures RearmsNow(e)
  {
    if e.call.Service? {
      ServiceSound(e.pre, e.call.env, e.call.now);
      hide Serviced, Success;
    }
  }

  predicate Costly(e: Event) {
    RearmsNow(e) || (e.call.Service? && e.call.now >= e.pre.deadlineUs)
  }

  function Cost(run: seq<Event>): nat {
    if run == [] then 0 else Cost(run[..|run| - 1]) + if Costly(run[|run| - 1]) then 1 else 0
  }

  /** Two units for every state above, one while the pump may still restart this state's deadline. */
  function Potential(a: Action): nat {
    2 * (10 - Rank(a.state)) + if Rearms(a) && !a.batch.Emptied() then 1 else 0
  }

  lemma CallPays(e: Event)
    requires CallOk(e.call) && Live(e.pre) && (e.post, e.ended) == Act(e.pre, e.call) && e.ended.None?
    ensures Potential(e.post) + (if Costly(e) then 1 else 0) <= Potential(e.pre)
  {
    if e.call.Service? {
      ServiceSound(e.pre, e.call.env, e.call.now);
      hide Serviced, Success;
    }
  }

  lemma {:induction false} CostIsPaid(c: Command, e: Env, now: nat, run: seq<Event>)
    requires IsRun(c, e, now, run)
    ensures run == [] ==> Cost(run) == 0
    ensures run != [] && run[|run| - 1].ended.None? ==> Cost(run) + Potential(run[|run| - 1].post) <= Potential(Started(c, e, now).0)
    ensures run != [] ==> Cost(run) <= Potential(Started(c, e, now).0) + 1
  {
    hide Act, Started, Costly, Potential;
    if run != [] {
      var before, last := run[..|run| - 1], run[|run| - 1];
      CostIsPaid(c, e, now, before);
      RunLive(c, e, now, run, |run| - 1);
      if before != [] { assert before[|before| - 1].post == last.pre; }
      if last.ended.None? { CallPays(last); }
    }
  }

  /** However often it is serviced and whatever the motors answer, an action meets at most nineteen
      expired services and deadline restarts before it has ended. */
  lemma BoundedChanges(c: Command, e: Env, now: nat, run: seq<Event>)
    requires IsRun(c, e, now, run)
    ensures Cost(run) <= 19
  {
    CostIsPaid(c, e, now, run);
    StartPotential(c, e, now);
  }

  lemma StartPotential(c: Command, e: Env, now: nat)
    requires c.Valid() && e.Sized() && Started(c, e, now).1.None?
    ensures Potential(Started(c, e, now).0) <= 18
  {
    hide Prepare, Cleanup, FirstNotFinite;
    var a := Fresh(c);
    PrepareProgresses(a, e, now);
    if FirstNotFinite(c, 0).Some? { CleanupProgresses(a, Failure(Validate, ActionFailed, FirstNotFinite(c, 0).value + 1), e, now); }
    if e.begins.Some? { CleanupProgresses(a, Failure(DiscoveryStage, e.begins.value, 0), e, now); }
  }

  /** Within one state the pump restarts the deadline at most once. */
  lemma {:induction false} RearmsOncePerState(c: Command, e: Env, now: nat, run: seq<Event>, i: nat, j: nat)
    requires IsRun(c, e, now, run) && i < j < |run| && RearmsNow(run[i]) && run[j].pre.state == run[i].pre.state
    ensures run[j].pre.batch.Emptied() && !RearmsNow(run[j])
  {
    hide Act, Started;
    RunLive(c, e, now, run, j - 1);
    StateNeverDecreases(c, e, now, run, i, j - 1);
    StateNeverDecreases(c, e, now, run, j - 1, j);
    assert run[j - 1].post == run[j].pre;
    if i < j - 1 {
      SameRank(run[j - 1].pre.state, run[i].pre.state);
      RearmsOncePerState(c, e, now, run, i, j - 1);
      RunLive(c, e, now, run, i);
    }
    StillRearms(c, e, now, run, i, j - 1);
    EmptiedOnce(run[j - 1]);
  }

  lemma SameRank(s: State, t: State)
    requires Rank(s) == Rank(t)
    ensures s == t
  {
  }

  lemma StillRearms(c: Command, e: Env, now: nat, run: seq<Event>, i: nat, j: nat)
    requires IsRun(c, e, now, run) && i <= j < |run| && Rank(run[i].pre.state) == Rank(run[j].pre.state) && Rearms(run[i].pre)
    ensures Rearms(run[j].pre)
  {
    RunLive(c, e, now, run, i);
    RunLive(c, e, now, run, j);
    SameRank(run[i].pre.state, run[j].pre.state);
  }

  lemma EmptiedOnce(e: Event)
    requires CallOk(e.call) && Live(e.pre) && (e.post, e.ended) == Act(e.pre, e.call) && e.ended.None?
    requires Rearms(e.pre) && (e.pre.batch.Emptied() || RearmsNow(e)) && e.post.state == e.pre.state
    ensures e.post.batch.Emptied()
  {
    if e.call.Service? {
      ServiceSound(e.pre, e.call.env, e.call.now);
      hide Serviced, Success;
    }
  }

  // ----- Completion -----

  function Pops(run: seq<Event>): nat {
    if run == [] then 0
    else Pops(run[..|run| - 1]) + if run[|run| - 1].call.Pop? && !run[|run| - 1].pre.batch.Emptied() then 1 else 0
  }

  /** The service call that entered the final DISABLE wait: what it built and what it had seen. */
  ghost predicate EnteredDisable(run: seq<Event>, d: nat, a: Action) {
    && d < |run| && run[d].call.Service? && run[d].call.env.Sized()
    && run[d].pre.state != DisableWait && run[d].post.state == DisableWait
    && run[d].call.env.disable == Frames(a.batch.count) && a.batch.content == DisableFrames
    && a.baseline == Stamps(run[d].call.env.snapshot)
    && a.batch.read == Pops(run[d + 1..])
  }

  lemma {:induction false} DisableRemembered(c: Command, e: Env, now: nat, run: seq<Event>, i: nat) returns (d: nat)
    requires IsRun(c, e, now, run) && i < |run| && run[i].pre.state == DisableWait
    ensures EnteredDisable(run[..i], d, run[i].pre)
  {
    hide Act, Started, Stamps;
    StartOk(c, e, now);
    assert i > 0;
    var before, last := run[..i - 1], run[i - 1];
    assert run[..i] == before + [last];
    RunLive(c, e, now, run, i - 1);
    if last.pre.state == DisableWait {
      d := DisableRemembered(c, e, now, run, i - 1);
      assert run[..i][d + 1..] == before[d + 1..] + [last];
      DisableKept(last);
      assert (before[d + 1..] + [last])[..|before[d + 1..]|] == before[d + 1..];
      assert run[..i][d] == before[d];
    } else {
      d := i - 1;
      DisableEntered(last);
      assert run[..i][d + 1..] == [];
    }
  }

  lemma DisableKept(e: Event)
    requires CallOk(e.call) && Live(e.pre) && (e.post, e.ended) == Act(e.pre, e.call) && e.ended.None?
    requires e.pre.state == DisableWait && e.post.state == DisableWait
    ensures e.post.baseline == e.pre.baseline && e.post.batch.count == e.pre.batch.count && e.post.batch.content == e.pre.batch.content
    ensures e.post.batch.read == e.pre.batch.read + if e.call.Pop? && !e.pre.batch.Emptied() then 1 else 0
  {
    if e.call.Service? {
      ServiceSound(e.pre, e.call.env, e.call.now);
      hide Serviced, Success;
    }
  }

  lemma DisableEntered(e: Event)
    requires CallOk(e.call) && Live(e.pre) && (e.post, e.ended) == Act(e.pre, e.call) && e.ended.None?
    requires e.pre.state != DisableWait && e.post.state == DisableWait
    ensures e.call.Service? && e.call.env.disable.Frames?
    ensures e.post.batch == Batch(DisableFrames, e.call.env.disable.count, 0) && e.post.baseline == Stamps(e.call.env.snapshot)
  {
    if e.call.Service? {
      ServiceSound(e.pre, e.call.env, e.call.now);
      hide Serviced, Success;
    } else {
      PopKeeps(e.pre, e.call.now);
    }
  }

  /** A move or MIT action reports COMPLETED only out of the final DISABLE wait, after its whole
      DISABLE batch left the queue, and once every selected motor reported DISABLED in a sample
      newer than the one it had when that batch was built. */
  lemma CompletedNeedsConfirmedDisable(c: Command, e: Env, now: nat, run: seq<Event>, i: nat) returns (d: nat)
    requires IsRun(c, e, now, run) && i < |run| && c.kind != SetMode
    requires run[i].ended.Some? && run[i].ended.value.code == Completed
    ensures run[i].call.Service? && run[i].pre.state == DisableWait && EnteredDisable(run[..i], d, run[i].pre)
    ensures Pops(run[d + 1..i]) >= run[i].pre.batch.count
    ensures forall j | j in c.mask ::
              && j in run[i].call.env.snapshot.valid && run[i].call.env.snapshot.joints[j].driver == Disabled
              && run[i].call.env.snapshot.joints[j].stampUs > run[d].call.env.snapshot.joints[j].stampUs
  {
    RunLive(c, e, now, run, i);
    CompletedIsSuccess(run[i]);
    hide Act, Started;
    d := DisableRemembered(c, e, now, run, i);
    assert run[..i][d + 1..] == run[d + 1..i];
    assert run[..i][d] == run[d];
  }

  lemma CompletedIsSuccess(e: Event)
    requires CallOk(e.call) && Live(e.pre) && (e.post, e.ended) == Act(e.pre, e.call)
    requires e.ended.Some? && e.ended.value.code == Completed
    ensures e.call.Service? && Success(e.pre, e.call.env)
  {
    ServiceSound(e.pre, e.call.env, e.call.now);
    hide Serviced, Success;
  }
}
