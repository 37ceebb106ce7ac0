/** What every run of the two-motor controller keeps, whatever the transport accepts, whatever
    frames arrive and whenever its entry points are called. */
module DualMotorRuns {
  import opened Common
  import opened DualMotor

  datatype Op = Step(now: nat, pressed: bool) | Frame(frame: CanFrame, value: Float, now: nat) | BusOff | StartFailure

  function Exec(s: Controller, op: Op, link: Link): Controller {
    match op
    case Step(now, pressed) => Stepped(s, now, pressed, link)
    case Frame(f, value, now) => OnFrame(s, f, value, now)
    case BusOff => Latched(s, FaultReason.BusOff, false)
    case StartFailure => Latched(s, CanTransmit, false)
  }

  datatype Event = Event(op: Op, pre: Controller, post: Controller)

  ghost predicate IsRun(run: seq<Event>, link: Link) {
    && (forall i | 0 <= i < |run| :: run[i].post == Exec(run[i].pre, run[i].op, link))
    && (forall i | 0 <= i < |run| - 1 :: run[i].post == run[i + 1].pre)
    && (run != [] ==> exists now :: run[0].pre == Initial(now))
  }

  ghost predicate Reached(run: seq<Event>, link: Link, s: Controller) {
    IsRun(run, link) && if run == [] then exists now :: s == Initial(now) else run[|run| - 1].post == s
  }

  lemma Prefix(run: seq<Event>, link: Link)
    requires IsRun(run, link) && run != []
    ensures Reached(run[..|run| - 1], link, run[|run| - 1].pre)
  {
    var before := run[..|run| - 1];
    if before == [] { var now :| run[0].pre == Initial(now); } else { assert before[0] == run[0]; }
  }

  // ----- The state invariant -----

  predicate Direction(d: int) {
    d == 1 || d == -1
  }

  predicate Configured(m: Motor) {
    m.modeReady && m.rangesReady && m.pmax > 0.0 && m.vmax > 0.0 && m.tmax > 0.0
  }

  /** The progress index says exactly which bits and ranges are there. */
  predicate Progress(m: Motor, base: int, index: nat) {
    && (m.modeReady <==> index > base + 1)
    && (m.rangesReady <==> index >= base + 5)
    && (index > base + 2 ==> m.pmax > 0.0)
    && (index > base + 3 ==> m.vmax > 0.0)
    && (index > base + 4 ==> m.tmax > 0.0)
  }

  predicate Startup(stage: Stage) {
    stage == BootDelay || stage == Configuring
  }

  predicate ConfigInv(s: Controller) {
    && s.config.index <= ITEMS
    && Progress(s.motors[0], 0, s.config.index) && Progress(s.motors[1], 5, s.config.index)
    && (!Startup(s.stage) && s.stage != Fault ==> s.config.index == ITEMS && !s.config.waiting)
    && (s.stage == BootDelay ==> s.config.index == 0 && !s.config.waiting && s.config.retries == 0)
    && (s.config.waiting ==> s.config.index < ITEMS)
    && (s.stage != Fault && !s.config.waiting ==> s.config.retries == 0)
    && s.config.retries <= RETRY_LIMIT + 1
    && (s.config.waiting ==> s.config.retries <= RETRY_LIMIT)
  }

  predicate OnTheMove(stage: Stage) {
    stage == Enabling || Tracks(stage)
  }

  /** The motor's target is one turn from where the move began, inside its range. */
  predicate OneTurn(m: Motor, direction: int) {
    m.target == m.initial + direction as real * TURN && Abs(m.target) <= m.pmax
  }

  predicate MoveInv(s: Controller) {
    && Direction(s.move.direction)
    && (OnTheMove(s.stage) ==> OneTurn(s.motors[0], -s.move.direction) && OneTurn(s.motors[1], -s.move.direction))
  }

  predicate Counted(m: Motor, stage: Stage) {
    && m.cycles <= ARRIVAL_CYCLES
    && (stage == Enabling ==> m.cycles == 0 && !m.arrived)
    && (Tracks(stage) ==> (m.arrived <==> m.cycles == ARRIVAL_CYCLES))
  }

  predicate ArrivalInv(s: Controller) {
    Counted(s.motors[0], s.stage) && Counted(s.motors[1], s.stage)
  }

  predicate Inv(s: Controller) {
    ConfigInv(s) && MoveInv(s) && ArrivalInv(s)
  }

  /** Transmission and fault latching touch only the wire, the enable bits and the disable requests. */
  predicate SameCore(a: Motor, b: Motor) {
    a.(enabled := false, disableRequested := false) == b.(enabled := false, disableRequested := false)
  }

  predicate Peripheral(s: Controller, t: Controller) {
    && SameCore(s.motors[0], t.motors[0]) && SameCore(s.motors[1], t.motors[1])
    && t.key == s.key && t.config == s.config && t.move == s.move && t.initMs == s.initMs
    && (t.stage == s.stage || t.stage == Fault)
  }

  lemma PeripheralKeepsInv(s: Controller, t: Controller)
    requires Inv(s) && Peripheral(s, t)
    ensures Inv(t)
  {
  }

  lemma LatchedIsPeripheral(s: Controller, reason: FaultReason, requestDisable: bool)
    ensures Peripheral(s, Latched(s, reason, requestDisable))
  {
    hide SameCore, Stopped;
    StoppedSame(s.motors[0], requestDisable);
    StoppedSame(s.motors[1], requestDisable);
  }

  lemma StoppedSame(m: Motor, requestDisable: bool)
    ensures SameCore(m, m) && SameCore(m, Stopped(m, requestDisable))
  {
  }

  lemma PendingIsPeripheral(s: Controller, link: Link)
    ensures Peripheral(s, PendingDisable(s, link)) && PendingDisable(s, link).stage == s.stage
    ensures PendingDisable(s, link).fault == s.fault
  {
    var t := PendingDisableOf(s, 0, link);
    assert Peripheral(s, t);
    assert Peripheral(t, PendingDisableOf(t, 1, link));
  }

  lemma SendBothIsPeripheral(s: Controller, a: Command, b: Command, link: Link)
    ensures Peripheral(s, SendBoth(s, a, b, link).0)
    ensures SendBoth(s, a, b, link).1 ==> SendBoth(s, a, b, link).0.stage == s.stage
  {
    hide Latched;
    var (t, ok) := Transmit(s, a, link);
    LatchedIsPeripheral(t, CanTransmit, true);
    var (u, ok2) := Transmit(t, b, link);
    LatchedIsPeripheral(u, CanTransmit, true);
  }

  lemma InitialInv(now: nat)
    ensures Inv(Initial(now))
  {
  }

  lemma ConfigurationKeepsInv(s: Controller, now: nat, link: Link)
    requires Inv(s) && s.stage == Configuring
    ensures Inv(ServiceConfiguration(s, now, link))
  {
  }

  lemma AcceptKeepsInv(s: Controller, now: nat, link: Link)
    requires Inv(s) && !Startup(s.stage) && s.stage != Fault
    ensures Inv(AcceptMove(s, now, link))
  {
    hide SendBoth, Fits, Latched, Inv;
    if Chosen(s).None? {
      LatchedIsPeripheral(s, TargetRange, true);
      PeripheralKeepsInv(s, Latched(s, TargetRange, true));
    } else {
      var direction := Chosen(s).value;
      AimedKeepsInv(s, direction, now);
      var t := Aiming(s, direction, now);
      var (u, ok) := SendBoth(t, Enable(0), Enable(1), link);
      SendBothIsPeripheral(t, Enable(0), Enable(1), link);
      if ok { EnablingKeepsInv(t, u, direction); } else { FaultedAim(s, direction, now, u, link); }
    }
  }

  function Aiming(s: Controller, direction: int, now: nat): Controller {
    s.(motors := [Aimed(s.motors[0], direction), Aimed(s.motors[1], direction)],
       move := s.move.(accepted := true, startMs := now))
  }

  /** A freshly aimed controller satisfies what ENABLING asks, before the stage changes. */
  predicate AimInv(t: Controller, direction: int) {
    && ConfigInv(t) && Direction(t.move.direction) && Direction(direction)
    && OneTurn(t.motors[0], direction) && OneTurn(t.motors[1], direction)
    && t.motors[0].cycles == 0 && !t.motors[0].arrived && t.motors[1].cycles == 0 && !t.motors[1].arrived
  }

  lemma AimedKeepsInv(s: Controller, direction: int, now: nat)
    requires Inv(s) && Fits(s, direction) && Direction(direction)
    ensures AimInv(Aiming(s, direction, now), direction)
  {
  }

  lemma EnablingKeepsInv(t: Controller, u: Controller, direction: int)
    requires AimInv(t, direction) && Peripheral(t, u) && !Startup(t.stage) && t.stage != Fault && u.stage == t.stage
    ensures Inv(u.(stage := Enabling, move := u.move.(count := (u.move.count + 1) % U32_RANGE, direction := -direction)))
  {
  }

  lemma FaultedAim(s: Controller, direction: int, now: nat, u: Controller, link: Link)
    requires AimInv(Aiming(s, direction, now), direction)
    requires (u, false) == SendBoth(Aiming(s, direction, now), Enable(0), Enable(1), link)
    requires Peripheral(Aiming(s, direction, now), u)
    ensures Inv(u)
  {
    RejectedFaults(Aiming(s, direction, now), Enable(0), Enable(1), link);
    hide SendBoth;
  }

  lemma RejectedFaults(s: Controller, a: Command, b: Command, link: Link)
    requires !SendBoth(s, a, b, link).1
    ensures SendBoth(s, a, b, link).0.stage == Fault
  {
  }

  lemma ServiceKeepsInv(s: Controller, now: nat, edge: bool, link: Link)
    requires Inv(s)
    ensures Inv(Serviced(s, now, edge, link))
  {
    hide ServiceConfiguration, InReady, InEnabling, InMotion, Latched;
    match s.stage
    case Fault =>
    case BootDelay => ConfigurationKeepsInv(s.(stage := Configuring), now, link);
    case Configuring => ConfigurationKeepsInv(s, now, link);
    case RequestingFeedback =>
      LatchedIsPeripheral(s, FeedbackTimeout, true);
      PeripheralKeepsInv(s, Latched(s, FeedbackTimeout, true));
    case Ready => ReadyKeepsInv(s, now, edge, link);
    case Enabling => EnabledKeepsInv(s, now, link);
    case Moving => MotionKeepsInv(s, now, edge, link);
    case Holding => MotionKeepsInv(s, now, edge, link);
  }

  lemma ReadyKeepsInv(s: Controller, now: nat, edge: bool, link: Link)
    requires Inv(s) && s.stage == Ready
    ensures Inv(InReady(s, now, edge, link))
  {
    hide AcceptMove, SendBoth, Latched;
    LatchedIsPeripheral(s, FeedbackTimeout, true);
    PeripheralKeepsInv(s, Latched(s, FeedbackTimeout, true));
    var t := Armed(s);
    KeyKeepsInv(s, t.key);
    KeyKeepsInv(t, t.key.(armed := false));
    AcceptKeepsInv(t.(key := t.key.(armed := false)), now, link);
    SendBothIsPeripheral(t, Disable(0), Disable(1), link);
    PeripheralKeepsInv(t, RefreshDisabled(t, link));
  }

  lemma EnabledKeepsInv(s: Controller, now: nat, link: Link)
    requires Inv(s) && s.stage == Enabling
    ensures Inv(InEnabling(s, now, link))
  {
    hide SendBoth, Latched;
    LatchedIsPeripheral(s, FeedbackTimeout, true);
    PeripheralKeepsInv(s, Latched(s, FeedbackTimeout, true));
    var t := s.(stage := Moving, move := s.move.(startMs := now));
    assert Inv(t);
    TargetsKeepInv(t, link);
  }

  lemma TargetsKeepInv(t: Controller, link: Link)
    requires Inv(t)
    ensures Inv(SendTargets(t, link))
  {
    hide SendBoth;
    SendBothIsPeripheral(t, Target(0, t.motors[0].target), Target(1, t.motors[1].target), link);
    PeripheralKeepsInv(t, SendTargets(t, link));
  }

  lemma MotionKeepsInv(s: Controller, now: nat, edge: bool, link: Link)
    requires Inv(s) && Tracks(s.stage)
    ensures Inv(InMotion(s, now, edge, link))
  {
    hide AcceptMove, SendBoth, Latched, SendTargets, Recent;
    var t := if s.stage == Holding then Armed(s) else s;
    KeyKeepsInv(s, t.key);
    KeyKeepsInv(t, t.key.(armed := false));
    LatchedIsPeripheral(s, FeedbackTimeout, true);
    PeripheralKeepsInv(s, Latched(s, FeedbackTimeout, true));
    LatchedIsPeripheral(t, MovementTimeout, true);
    PeripheralKeepsInv(t, Latched(t, MovementTimeout, true));
    AcceptKeepsInv(t.(key := t.key.(armed := false)), now, link);
    TargetsKeepInv(t, link);
  }

  /** Fresh measurements leave configuration, targets and counters alone. */
  lemma FeedbackKeepsInv(s: Controller, m: nat, f: CanFrame, now: nat)
    requires Inv(s) && m < 2 && |f.data| == 8
    ensures Inv(OnFeedback(s, m, f, now))
  {
    hide Inv, Same, Measured, Arriving, Latched, Peripheral, SameCore;
    if IsFeedback(s, m, f) {
      var x := Measured(s.motors[m], f, now);
      MeasuredSame(s.motors[m], f, now);
      var t := s.(motors := s.motors[m := x]);
      LatchedIsPeripheral(t, MotorFault, true);
      MotorKeepsInv(s, m, x);
      PeripheralKeepsInv(t, Latched(t, MotorFault, true));
      var y := x.(enabled := x.driver == 1);
      MotorKeepsInv(s, m, y);
      var u := t.(motors := t.motors[m := y]);
      assert u == s.(motors := s.motors[m := y]);
      if Tracks(u.stage) { ArrivedKeepsInv(u, m); }
    }
  }

  lemma ArrivedKeepsInv(s: Controller, m: nat)
    requires Inv(s) && m < 2 && Tracks(s.stage)
    ensures var v := s.(motors := s.motors[m := Arriving(s.motors[m])]);
            Inv(if v.motors[0].arrived && v.motors[1].arrived then v.(stage := Holding) else v)
  {
    hide Arriving;
    ArrivingSame(s.motors[m]);
    ArrivalKeepsInv(s, m, Arriving(s.motors[m]));
  }

  /** Fields that no received feedback touches. */
  predicate Same(a: Motor, b: Motor) {
    a.modeReady == b.modeReady && a.rangesReady == b.rangesReady && a.pmax == b.pmax && a.vmax == b.vmax
    && a.tmax == b.tmax && a.initial == b.initial && a.target == b.target
  }

  lemma MeasuredSame(m: Motor, f: CanFrame, now: nat)
    requires |f.data| == 8
    ensures Same(m, Measured(m, f, now)) && Measured(m, f, now).cycles == m.cycles && Measured(m, f, now).arrived == m.arrived
  {
  }

  lemma ArrivingSame(m: Motor)
    requires m.cycles <= ARRIVAL_CYCLES && (m.arrived <==> m.cycles == ARRIVAL_CYCLES)
    ensures Same(m, Arriving(m)) && Counted(Arriving(m), Moving)
  {
    hide InTolerance;
  }

  lemma MotorKeepsInv(s: Controller, m: nat, x: Motor)
    requires Inv(s) && m < 2 && Same(s.motors[m], x) && x.cycles == s.motors[m].cycles && x.arrived == s.motors[m].arrived
    ensures Inv(s.(motors := s.motors[m := x]))
  {
  }

  lemma ArrivalKeepsInv(s: Controller, m: nat, x: Motor)
    requires Inv(s) && m < 2 && Tracks(s.stage) && Same(s.motors[m], x) && Counted(x, Moving)
    ensures Inv(s.(motors := s.motors[m := x])) && Inv(s.(motors := s.motors[m := x], stage := Holding))
  {
  }

  lemma ReplyKeepsInv(s: Controller, m: nat, f: CanFrame, value: Float)
    requires Inv(s) && m < 2 && |f.data| == 8 && ExpectsReply(s, f)
    ensures Inv(OnReply(s, m, f, value))
  {
    hide Latched, Peripheral, Little32;
    LatchedIsPeripheral(s, InvalidParameter, true);
    PeripheralKeepsInv(s, Latched(s, InvalidParameter, true));
  }

  lemma ExecKeepsInv(s: Controller, op: Op, link: Link)
    requires Inv(s)
    ensures Inv(Exec(s, op, link))
  {
    hide Inv, OnReply, OnFeedback, Serviced, PendingDisable;
    match op
    case Step(now, pressed) =>
      var (key, edge) := KeySample(s.key, now, pressed);
      var t := s.(key := key);
      KeyKeepsInv(s, key);
      PendingIsPeripheral(t, link);
      PeripheralKeepsInv(t, PendingDisable(t, link));
      ServiceKeepsInv(PendingDisable(t, link), now, edge, link);
    case Frame(f, value, now) =>
      if |f.data| == 8 && MotorOf(f.identifier).Some? {
        if ExpectsReply(s, f) { ReplyKeepsInv(s, MotorOf(f.identifier).value, f, value); }
        else { FeedbackKeepsInv(s, MotorOf(f.identifier).value, f, now); }
      }
    case BusOff =>
      LatchedIsPeripheral(s, FaultReason.BusOff, false);
      PeripheralKeepsInv(s, Latched(s, FaultReason.BusOff, false));
    case StartFailure =>
      LatchedIsPeripheral(s, CanTransmit, false);
      PeripheralKeepsInv(s, Latched(s, CanTransmit, false));
  }

  lemma KeyKeepsInv(s: Controller, key: Key)
    requires Inv(s)
    ensures Inv(s.(key := key))
  {
  }

  /** Every reachable state keeps the startup, target and arrival invariants. */
  lemma {:induction false} EveryRunKeepsInv(run: seq<Event>, link: Link, s: Controller)
    requires Reached(run, link, s)
    ensures Inv(s)
  {
    if run == [] {
      var now :| s == Initial(now);
      InitialInv(now);
    } else {
      var last := run[|run| - 1];
      Prefix(run, link);
      EveryRunKeepsInv(run[..|run| - 1], link, last.pre);
      ExecKeepsInv(last.pre, last.op, link);
    }
  }

  // ----- Targets -----

  /** Whenever a move is under way, both targets are exactly one turn from their starts in the same
      direction, inside each motor's range, and the next preferred direction is the opposite one. */
  lemma TargetsAreOneTurn(run: seq<Event>, link: Link, s: Controller)
    requires Reached(run, link, s) && OnTheMove(s.stage)
    ensures exists d :: Direction(d) && s.move.direction == -d && OneTurn(s.motors[0], d) && OneTurn(s.motors[1], d)
  {
    EveryRunKeepsInv(run, link, s);
    var d := -s.move.direction;
    assert Direction(d) && s.move.direction == -d && OneTurn(s.motors[0], d) && OneTurn(s.motors[1], d);
  }

  // ----- What goes on the wire -----

  datatype Kind = Enables | Disables | Requests | Targets

  function KindOf(c: Command): Kind {
    match c
    case Enable(_) => Enables case Disable(_) => Disables case Request(_) => Requests case Target(_, _) => Targets
  }

  /** The wire grew, and only by frames of the allowed kinds. */
  predicate Emits(before: seq<Attempt>, after: seq<Attempt>, allowed: set<Kind>) {
    before <= after && forall k | |before| <= k < |after| :: KindOf(after[k].command) in allowed
  }

  /** What a service call may transmit, beyond DISABLE frames still owed. */
  function Permitted(stage: Stage, triggered: bool): set<Kind> {
    match stage
    case BootDelay => {Requests}
    case Configuring => {Requests}
    case RequestingFeedback => {}
    case Ready => if triggered then {Enables} else {Disables}
    case Enabling => {Targets}
    case Moving => {Targets}
    case Holding => if triggered then {Enables} else {Targets}
    case Fault => {}
  }

  lemma SendBothEmits(s: Controller, a: Command, b: Command, link: Link)
    ensures Emits(s.wire, SendBoth(s, a, b, link).0.wire, {KindOf(a), KindOf(b)})
  {
    hide Stopped;
  }

  lemma PendingEmits(s: Controller, link: Link)
    ensures Emits(s.wire, PendingDisable(s, link).wire, {Disables})
  {
    var t := PendingDisableOf(s, 0, link);
    assert Emits(s.wire, t.wire, {Disables});
    assert Emits(t.wire, PendingDisableOf(t, 1, link).wire, {Disables});
  }

  lemma ConfigurationEmits(s: Controller, now: nat, link: Link)
    ensures Emits(s.wire, ServiceConfiguration(s, now, link).wire, {Requests})
  {
    hide Stopped;
  }

  lemma AcceptEmits(s: Controller, now: nat, link: Link)
    ensures Emits(s.wire, AcceptMove(s, now, link).wire, {Enables})
  {
    hide SendBoth, Fits, Aimed, Stopped;
    if Chosen(s).Some? {
      var t := Aiming(s, Chosen(s).value, now);
      SendBothEmits(t, Enable(0), Enable(1), link);
    }
  }

  lemma ServiceEmits(s: Controller, now: nat, edge: bool, link: Link)
    ensures Emits(s.wire, Serviced(s, now, edge, link).wire, Permitted(s.stage, Recent(s, now) && Triggers(Armed(s), edge)))
  {
    hide SendBoth, AcceptMove, ServiceConfiguration, Recent, Stopped;
    ConfigurationEmits(s, now, link);
    ConfigurationEmits(s.(stage := Configuring), now, link);
    var t := Armed(s);
    AcceptEmits(t.(key := t.key.(armed := false)), now, link);
    SendBothEmits(t, Disable(0), Disable(1), link);
    SendBothEmits(t, Target(0, t.motors[0].target), Target(1, t.motors[1].target), link);
    SendBothEmits(s, Target(0, s.motors[0].target), Target(1, s.motors[1].target), link);
    var m := s.(stage := Moving, move := s.move.(startMs := now));
    SendBothEmits(m, Target(0, s.motors[0].target), Target(1, s.motors[1].target), link);
  }

  /** Key, then owed DISABLE frames: the state in which a service call takes its stage's branch. */
  function Prepared(s: Controller, now: nat, pressed: bool, link: Link): Controller {
    PendingDisable(s.(key := KeySample(s.key, now, pressed).0), link)
  }

  predicate Triggered(e: Event, link: Link) {
    && e.op.Step? && KeySample(e.pre.key, e.op.now, e.op.pressed).1
    && Recent(e.pre, e.op.now) && Armed(Prepared(e.pre, e.op.now, e.op.pressed, link)).key.armed
  }

  /** Every frame of an event is owed DISABLE or permitted by the stage the event began in. */
  lemma EventEmits(e: Event, link: Link)
    requires e.post == Exec(e.pre, e.op, link)
    ensures Emits(e.pre.wire, e.post.wire, Permitted(e.pre.stage, Triggered(e, link)) + {Disables})
    ensures !e.op.Step? ==> e.post.wire == e.pre.wire
  {
    hide Permitted, Serviced, PendingDisable, Recent, Measured, Arriving, Stopped;
    if e.op.Step? {
      var (key, edge) := KeySample(e.pre.key, e.op.now, e.op.pressed);
      var s := e.pre.(key := key);
      var t := Prepared(e.pre, e.op.now, e.op.pressed, link);
      PendingIsPeripheral(s, link);
      PendingEmits(s, link);
      ServiceEmits(t, e.op.now, edge, link);
      SameRecent(s, t, e.op.now);
      SameRecent(e.pre, s, e.op.now);
    }
  }

  lemma SameRecent(s: Controller, t: Controller, now: nat)
    requires SameCore(s.motors[0], t.motors[0]) && SameCore(s.motors[1], t.motors[1])
    ensures Recent(s, now) <==> Recent(t, now)
  {
  }

  /** ENABLE is only ever handed to the transport with both motors fully configured, on recent
      feedback, from READY or HOLDING, and for an armed press. */
  lemma EnableNeedsConfiguration(run: seq<Event>, link: Link, i: nat, k: nat)
    requires IsRun(run, link) && i < |run|
    requires |run[i].pre.wire| <= k < |run[i].post.wire| && run[i].post.wire[k].command.Enable?
    ensures run[i].op.Step? && Configured(run[i].pre.motors[0]) && Configured(run[i].pre.motors[1])
    ensures Recent(run[i].pre, run[i].op.now) && (run[i].pre.stage == Ready || run[i].pre.stage == Holding)
    ensures Triggered(run[i], link)
  {
    EventEmits(run[i], link);
    PreReached(run, link, i);
    EveryRunKeepsInv(run[..i], link, run[i].pre);
  }

  lemma PreReached(run: seq<Event>, link: Link, i: nat)
    requires IsRun(run, link) && i < |run|
    ensures Reached(run[..i], link, run[i].pre)
  {
    Prefix(run[..i + 1], link);
    assert run[..i + 1][..i] == run[..i];
  }

  /** After a fault nothing but DISABLE is transmitted, and stage and first reason never change. */
  lemma {:induction false} FaultIsFinal(run: seq<Event>, link: Link, i: nat, j: nat)
    requires IsRun(run, link) && i <= j < |run| && run[i].post.stage == Fault
    ensures run[j].post.stage == Fault && run[j].post.fault == run[i].post.fault
    ensures Emits(run[i].post.wire, run[j].post.wire, {Disables})
  {
    if i < j {
      FaultIsFinal(run, link, i, j - 1);
      assert run[j].pre == run[j - 1].post;
      EventEmits(run[j], link);
      FaultKept(run[j], link);
    }
  }

  lemma FaultKept(e: Event, link: Link)
    requires e.post == Exec(e.pre, e.op, link) && e.pre.stage == Fault
    ensures e.post.stage == Fault && e.post.fault == e.pre.fault
  {
    hide PendingDisable, Measured, Arriving;
    if e.op.Step? { PendingIsPeripheral(e.pre.(key := KeySample(e.pre.key, e.op.now, e.op.pressed).0), link); }
  }

  // ----- Configuration requests -----

  function Asked(wire: seq<Attempt>, item: nat): nat {
    if wire == [] then 0
    else Asked(wire[..|wire| - 1], item) + if wire[|wire| - 1].command == Request(item) then 1 else 0
  }

  function AskedAny(wire: seq<Attempt>): nat {
    if wire == [] then 0
    else AskedAny(wire[..|wire| - 1]) + if wire[|wire| - 1].command.Request? then 1 else 0
  }

  lemma {:induction false} AskedSame(before: seq<Attempt>, after: seq<Attempt>, allowed: set<Kind>, item: nat)
    requires Emits(before, after, allowed) && Requests !in allowed
    ensures Asked(after, item) == Asked(before, item) && AskedAny(after) == AskedAny(before)
  {
    if |after| > |before| {
      var shorter := after[..|after| - 1];
      assert forall k | 0 <= k < |shorter| :: shorter[k] == after[k];
      assert before <= shorter;
      AskedSame(before, shorter, allowed, item);
      assert KindOf(after[|after| - 1].command) in allowed;
    } else {
      assert before == after;
    }
  }

  /** No item is asked for more than four times, none before its turn. */
  ghost predicate AskBounds(s: Controller) {
    && (forall k :: Asked(s.wire, k) <= RETRY_LIMIT + 1)
    && (forall k | k > s.config.index || k >= ITEMS :: Asked(s.wire, k) == 0)
    && AskedAny(s.wire) <= 4 * s.config.index + Asked(s.wire, s.config.index)
  }

  /** Attempts for the item in progress: none, or one more than its retries while waiting. */
  ghost predicate AskInv(s: Controller) {
    && AskBounds(s)
    && (s.config.waiting ==> Asked(s.wire, s.config.index) == s.config.retries + 1)
    && (s.stage != Fault && !s.config.waiting ==> Asked(s.wire, s.config.index) == 0)
  }

  lemma ElsewhereKeepsAsked(s: Controller, t: Controller, allowed: set<Kind>)
    requires AskInv(s) && Emits(s.wire, t.wire, allowed) && Requests !in allowed
    requires t.config == s.config && (s.stage == Fault ==> t.stage == Fault)
    ensures AskInv(t)
  {
    forall k: nat ensures Asked(t.wire, k) == Asked(s.wire, k) && AskedAny(t.wire) == AskedAny(s.wire) {
      AskedSame(s.wire, t.wire, allowed, k);
    }
  }

  lemma AskedMore(s: Controller, now: nat, link: Link)
    requires AskBounds(s) && s.config.index < ITEMS && Asked(s.wire, s.config.index) == s.config.retries <= RETRY_LIMIT
    requires !s.config.waiting && s.stage != Fault
    ensures AskInv(SendRequest(s, now, link))
  {
    var t := SendRequest(s, now, link);
    hide Stopped;
    assert t.wire[..|t.wire| - 1] == s.wire;
    assert forall k: nat :: Asked(t.wire, k) == Asked(s.wire, k) + if k == s.config.index then 1 else 0;
  }

  lemma ConfigurationKeepsAsked(s: Controller, now: nat, link: Link)
    requires AskInv(s) && ConfigInv(s) && s.stage == Configuring
    ensures AskInv(ServiceConfiguration(s, now, link))
  {
    hide SendRequest, Asked, AskedAny, Stopped, Progress;
    if s.config.index < ITEMS {
      if !s.config.waiting {
        AskedMore(s, now, link);
      } else if Elapsed32(now, s.config.requestMs) >= CONFIGURATION_TIMEOUT_MS && s.config.retries < RETRY_LIMIT {
        AskedMore(s.(config := s.config.(waiting := false, retries := s.config.retries + 1)), now, link);
      }
    }
  }

  lemma ReplyKeepsAsked(s: Controller, m: nat, f: CanFrame, value: Float)
    requires AskInv(s) && m < 2 && |f.data| == 8 && ExpectsReply(s, f)
    ensures AskInv(OnReply(s, m, f, value))
  {
    hide Asked, AskedAny, WithRange, Stopped, Little32, ItemRegister;
  }

  lemma EventKeepsAsked(e: Event, link: Link)
    requires e.post == Exec(e.pre, e.op, link) && AskInv(e.pre) && Inv(e.pre)
    ensures AskInv(e.post)
  {
    hide Serviced, PendingDisable, OnReply, OnFeedback, AskInv, Stopped;
    match e.op
    case Step(now, pressed) =>
      var s := e.pre.(key := KeySample(e.pre.key, now, pressed).0);
      var t := Prepared(e.pre, now, pressed, link);
      PendingIsPeripheral(s, link);
      PendingEmits(s, link);
      ElsewhereKeepsAsked(e.pre, t, {Disables});
      KeyKeepsInv(e.pre, s.key);
      PeripheralKeepsInv(s, t);
      ServiceKeepsAsked(t, now, KeySample(e.pre.key, now, pressed).1, link);
    case Frame(f, value, now) =>
      if |f.data| == 8 && MotorOf(f.identifier).Some? {
        if ExpectsReply(e.pre, f) {
          ReplyKeepsAsked(e.pre, MotorOf(f.identifier).value, f, value);
        } else {
          FeedbackSilent(e.pre, MotorOf(f.identifier).value, f, now);
          ElsewhereKeepsAsked(e.pre, e.post, {});
        }
      }
    case BusOff => ElsewhereKeepsAsked(e.pre, e.post, {});
    case StartFailure => ElsewhereKeepsAsked(e.pre, e.post, {});
  }

  lemma FeedbackSilent(s: Controller, m: nat, f: CanFrame, now: nat)
    requires m < 2 && |f.data| == 8
    ensures OnFeedback(s, m, f, now).wire == s.wire && OnFeedback(s, m, f, now).config == s.config
    ensures s.stage == Fault ==> OnFeedback(s, m, f, now).stage == Fault
  {
    hide Measured, Arriving, Stopped;
  }

  lemma ServiceKeepsAsked(s: Controller, now: nat, edge: bool, link: Link)
    requires AskInv(s) && Inv(s)
    ensures AskInv(Serviced(s, now, edge, link))
  {
    hide AskInv, Recent, SendBoth, AcceptMove, Stopped;
    if s.stage == BootDelay {
      var t := s.(stage := Configuring);
      ElsewhereKeepsAsked(s, t, {});
      ConfigurationKeepsAsked(t, now, link);
    } else if s.stage == Configuring {
      ConfigurationKeepsAsked(s, now, link);
    } else {
      ServiceEmits(s, now, edge, link);
      ServiceKeepsConfig(s, now, edge, link);
      ElsewhereKeepsAsked(s, Serviced(s, now, edge, link), Permitted(s.stage, Recent(s, now) && Triggers(Armed(s), edge)));
    }
  }

  lemma ServiceKeepsConfig(s: Controller, now: nat, edge: bool, link: Link)
    requires !Startup(s.stage)
    ensures Serviced(s, now, edge, link).config == s.config
  {
    hide Recent, Stopped, Fits, Aimed;
  }

  /** In every run each startup item is asked for at most four times, and only after all earlier
      ones were answered, so at most forty requests are sent before feedback or a fault. */
  lemma {:induction false} RequestsAreBounded(run: seq<Event>, link: Link, s: Controller)
    requires Reached(run, link, s)
    ensures AskInv(s) && AskedAny(s.wire) <= 40
  {
    EveryRunKeepsInv(run, link, s);
    if run != [] {
      var last := run[|run| - 1];
      Prefix(run, link);
      RequestsAreBounded(run[..|run| - 1], link, last.pre);
      EveryRunKeepsInv(run[..|run| - 1], link, last.pre);
      EventKeepsAsked(last, link);
    }
    assert AskedAny(s.wire) <= 40;
  }

  /** A motor's range bit is set only when all three of its ranges are positive, and the progress
      index tells exactly which mode and range bits are set. */
  lemma MasksFollowIndex(run: seq<Event>, link: Link, s: Controller, m: nat)
    requires Reached(run, link, s) && m < 2
    ensures s.motors[m].modeReady <==> s.config.index > 5 * m + 1
    ensures s.motors[m].rangesReady <==> s.config.index >= 5 * m + 5
    ensures s.motors[m].rangesReady ==> s.motors[m].pmax > 0.0 && s.motors[m].vmax > 0.0 && s.motors[m].tmax > 0.0
  {
    EveryRunKeepsInv(run, link, s);
  }
}
