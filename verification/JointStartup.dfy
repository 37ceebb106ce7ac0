/** Startup and enabling of the seven-joint controller in User/joint_controller.c: sequential mode
    setup and range discovery over the active joints, feedback collection, and the guards in front
    of every ENABLE frame. Trajectory sampling and conversions are inputs. */
module JointStartup {
  import opened Common

  const JOINTS: nat := 7
  const BOOT_DELAY_MS: nat := 2000
  const STARTUP_TIMEOUT_MS: nat := 100
  const RETRY_LIMIT: nat := 3
  const POLL_MS: nat := 100
  const FEEDBACK_TIMEOUT_MS: nat := 50
  const MODE_ITEMS: nat := 14
  const RANGE_ITEMS: nat := 21
  const CONTROL_MODE: nat := 2

  datatype Stage = ConfigValidate | BootDelay | ModeSetup | RangeDiscovery | Ready | Enabling | Moving | Holding | Fault

  datatype Safety = NoSafety | CommandTimeout | FeedbackTimeout | InvalidCommand | MotorFault | BusOff | CanTransmit
                  | StartupTimeout | ModeMismatch

  /** Frames handed to the transport; mode and range requests are named by their item. */
  datatype Command = Enable(joint: nat) | Disable(joint: nat) | ModeRequest(item: nat) | RangeRequest(item: nat) | Setpoint(joint: nat)

  datatype Attempt = Attempt(command: Command, accepted: bool)

  type Link = nat -> bool

  /** One motor's ranges and which of the three were received. */
  datatype Ranges = Ranges(values: seq<real>, known: set<nat>)

  const NO_RANGES := Ranges([0.0, 0.0, 0.0], {})

  datatype Masks = Masks(modeReady: set<nat>, rangesReady: set<nat>, feedbackReady: set<nat>, enabled: set<nat>, pending: set<nat>, faulty: set<nat>, owed: set<nat>)

  datatype Progress = Progress(modeIndex: nat, rangeIndex: nat, waiting: bool, retries: nat, polls: nat, requestMs: nat)

  /** Compile-time facts: which joints are active, and each joint's master and motor identifiers. */
  datatype Setup = Setup(active: set<nat>, masters: seq<nat>, motors: seq<nat>, locked: bool)
  {
    predicate Valid() {
      |masters| == |motors| == JOINTS && forall j | j in active :: j < JOINTS
    }
  }

  datatype Controller = Controller(stage: Stage, safety: Safety, setup: Setup, masks: Masks, progress: Progress, ranges: seq<Ranges>,
                                   selected: nat, feedbackMs: seq<nat>, initMs: nat, pollMs: nat, wire: seq<Attempt>)
  {
    predicate Sized() {
      setup.Valid() && |ranges| == |feedbackMs| == JOINTS && forall j | 0 <= j < JOINTS :: |ranges[j].values| == 3
    }
  }

  const NO_MASKS := Masks({}, {}, {}, {}, {}, {}, {})

  /** A rejected configuration never leaves the fault stage. */
  function Initial(setup: Setup, accepted: bool, now: nat): Controller
    requires setup.Valid()
  {
    Controller(if accepted then BootDelay else Fault, if accepted then NoSafety else InvalidCommand, setup, NO_MASKS,
               Progress(0, 0, false, 0, 0, now), seq(JOINTS, _ => NO_RANGES), 0, seq(JOINTS, _ => 0), now, now, [])
  }

  // ----- Transmission and shutdown -----

  function Transmit(s: Controller, c: Command, link: Link): (Controller, bool) {
    (s.(wire := s.wire + [Attempt(c, link(|s.wire|))]), link(|s.wire|))
  }

  /** DISABLE to every joint of the mask, whatever the transport says. */
  function DisableAll(s: Controller, mask: set<nat>, j: nat, link: Link): Controller
    requires j <= JOINTS
    decreases JOINTS - j
  {
    if j == JOINTS then s
    else DisableAll(if j in mask then Transmit(s, Disable(j), link).0 else s, mask, j + 1, link)
  }

  /** DISABLE to every joint of the mask, up to the first rejection. */
  function DisableUntil(s: Controller, mask: set<nat>, j: nat, link: Link): (Controller, bool)
    requires j <= JOINTS
    decreases JOINTS - j
  {
    if j == JOINTS then (s, true)
    else if j !in mask then DisableUntil(s, mask, j + 1, link)
    else
      var (t, ok) := Transmit(s, Disable(j), link);
      if ok then DisableUntil(t, mask, j + 1, link) else (t, false)
  }

  function Shutdown(s: Controller, reason: Safety, canTransmit: bool, link: Link): Controller {
    var on := s.masks.enabled + s.masks.pending;
    var t := s.(safety := reason, stage := Fault, masks := s.masks.(enabled := {}, pending := {}));
    if canTransmit then DisableAll(t, on, 0, link) else t.(masks := t.masks.(owed := {}))
  }

  // ----- Startup -----

  /** Skips the items of inactive joints; every joint has `width` of them. */
  function Skipped(active: set<nat>, index: nat, width: nat, items: nat): nat
    requires width > 0 && items == width * JOINTS
    decreases items - index
  {
    if index >= items || index / width in active then index else Skipped(active, (index / width + 1) * width, width, items)
  }

  /** Whether the current request should be (re)sent; the fourth retry is a startup timeout. */
  function Due(s: Controller, now: nat, link: Link): (Controller, bool) {
    if !s.progress.waiting then (s, true)
    else if Elapsed32(now, s.progress.requestMs) < STARTUP_TIMEOUT_MS then (s, false)
    else
      var t := s.(progress := s.progress.(waiting := false, retries := s.progress.retries + 1));
      if t.progress.retries > RETRY_LIMIT then (Shutdown(t, StartupTimeout, true, link), false) else (t, true)
  }

  function SendRequest(s: Controller, c: Command, now: nat, link: Link): Controller {
    var (t, ok) := Transmit(s, c, link);
    if ok then t.(progress := t.progress.(waiting := true, requestMs := now)) else Shutdown(t, CanTransmit, true, link)
  }

  function ServiceModes(s: Controller, now: nat, link: Link): Controller {
    var t := s.(progress := s.progress.(modeIndex := Skipped(s.setup.active, s.progress.modeIndex, 2, MODE_ITEMS)));
    if t.progress.modeIndex >= MODE_ITEMS then
      if !(t.setup.active <= t.masks.modeReady) then Shutdown(t, ModeMismatch, true, link)
      else t.(progress := t.progress.(waiting := false, retries := 0), stage := RangeDiscovery)
    else
      var (u, due) := Due(t, now, link);
      if due then SendRequest(u, ModeRequest(u.progress.modeIndex), now, link) else u
  }

  /** Asks joints without feedback to report, by sending them DISABLE, at most four times. */
  function CollectFeedback(s: Controller, now: nat, link: Link): Controller {
    var missing := s.setup.active - s.masks.feedbackReady;
    if missing == {} then s.(stage := Ready)
    else if s.progress.polls != 0 && Elapsed32(now, s.progress.requestMs) < STARTUP_TIMEOUT_MS then s
    else if s.progress.polls > RETRY_LIMIT then Shutdown(s, StartupTimeout, true, link)
    else
      var (t, ok) := DisableUntil(s, missing, 0, link);
      if ok then t.(progress := t.progress.(polls := t.progress.polls + 1, requestMs := now)) else Shutdown(t, CanTransmit, true, link)
  }

  function ServiceRanges(s: Controller, now: nat, link: Link): Controller {
    var t := s.(progress := s.progress.(rangeIndex := Skipped(s.setup.active, s.progress.rangeIndex, 3, RANGE_ITEMS)));
    if t.progress.rangeIndex >= RANGE_ITEMS then
      if !(t.setup.active <= t.masks.rangesReady) then Shutdown(t, StartupTimeout, true, link)
      else CollectFeedback(t, now, link)
    else
      var (u, due) := Due(t, now, link);
      if due then SendRequest(u, RangeRequest(u.progress.rangeIndex), now, link) else u
  }

  function ServiceStartup(s: Controller, now: nat, link: Link): Controller {
    if s.safety != NoSafety then s
    else if s.stage == BootDelay && Elapsed32(now, s.initMs) < BOOT_DELAY_MS then s
    else
      var t := if s.stage == BootDelay then s.(stage := ModeSetup) else s;
      if t.stage == ModeSetup then ServiceModes(t, now, link)
      else if t.stage == RangeDiscovery then ServiceRanges(t, now, link)
      else t
  }

  function ServiceReady(s: Controller, now: nat, link: Link): Controller {
    if s.stage != Ready || s.masks.enabled != {} || Elapsed32(now, s.pollMs) < POLL_MS then s
    else
      var (t, ok) := DisableUntil(s, s.setup.active, 0, link);
      if ok then t.(pollMs := now) else Shutdown(t, CanTransmit, true, link)
  }

  predicate Silent(s: Controller, mask: set<nat>, now: nat)
    requires s.Sized()
  {
    exists j | 0 <= j < JOINTS :: j in mask && Elapsed32(now, s.feedbackMs[j]) > FEEDBACK_TIMEOUT_MS
  }

  /** The trajectory during one period: its command is too old, it cannot be sampled, or it was
      sampled (or is not active), possibly for the last time. */
  datatype Motion = Expired | Unsampled | Sampled(finished: bool)

  /** Setpoint frames to the enabled joints, up to the first rejection. */
  function Setpoints(s: Controller, j: nat, link: Link): (Controller, bool)
    requires j <= JOINTS
    decreases JOINTS - j
  {
    if j == JOINTS then (s, true)
    else if j !in s.masks.enabled then Setpoints(s, j + 1, link)
    else
      var (t, ok) := Transmit(s, Setpoint(j), link);
      if ok then Setpoints(t, j + 1, link) else (t, false)
  }

  function ServiceMotion(s: Controller, now: nat, motion: Motion, link: Link): Controller
    requires s.Sized()
  {
    if s.masks.enabled == {} then s
    else if motion == Expired then Shutdown(s, CommandTimeout, true, link)
    else if Silent(s, s.masks.enabled, now) then Shutdown(s, FeedbackTimeout, true, link)
    else if motion == Unsampled then Shutdown(s, CanTransmit, true, link)
    else
      var (t, ok) := Setpoints(if motion.finished then s.(stage := Holding) else s, 0, link);
      if ok then t else Shutdown(t, CanTransmit, true, link)
  }

  function ServiceEnabling(s: Controller, now: nat, motion: Motion, link: Link): Controller
    requires s.Sized()
  {
    if s.stage != Enabling then ServiceMotion(s, now, motion, link)
    else if Silent(s, s.masks.pending, now) then Shutdown(s, FeedbackTimeout, true, link)
    else if !(s.masks.pending <= s.masks.enabled) then s
    else ServiceMotion(s.(stage := Holding, masks := s.masks.(pending := {})), now, motion, link)
  }

  /** DISABLE frames owed since a motor fault come first. */
  function PayOwed(s: Controller, link: Link): Controller {
    DisableAll(s.(masks := s.masks.(owed := {})), s.masks.owed, 0, link)
  }

  function Prepared(s: Controller, now: nat, link: Link): Controller {
    ServiceReady(ServiceStartup(PayOwed(s, link), now, link), now, link)
  }

  lemma PreparedKeepsShape(s: Controller, now: nat, link: Link)
    ensures SameKnowledge(s, Prepared(s, now, link))
    ensures s.Sized() ==> Prepared(s, now, link).Sized()
  {
    DisableAllKeeps(s.(masks := s.masks.(owed := {})), s.masks.owed, 0, link);
    hide DisableAll;
    StartupKeepsShape(PayOwed(s, link), now, link);
    hide PayOwed;
    ReadyKeepsShape(ServiceStartup(PayOwed(s, link), now, link), now, link);
    hide ServiceStartup, ServiceReady;
  }

  function Stepped(s: Controller, now: nat, motion: Motion, link: Link): Controller
    requires s.Sized()
  {
    PreparedKeepsShape(s, now, link);
    ServiceEnabling(Prepared(s, now, link), now, motion, link)
  }

  // ----- Frame of the helpers -----

  /** Transmission and shutdown keep everything discovered so far. */
  predicate SameKnowledge(s: Controller, t: Controller) {
    && t.setup == s.setup && t.ranges == s.ranges && t.feedbackMs == s.feedbackMs && t.initMs == s.initMs && t.selected == s.selected
    && t.masks.modeReady == s.masks.modeReady && t.masks.rangesReady == s.masks.rangesReady && t.masks.feedbackReady == s.masks.feedbackReady
  }

  lemma {:induction false} DisableAllKeeps(s: Controller, mask: set<nat>, j: nat, link: Link)
    requires j <= JOINTS
    ensures DisableAll(s, mask, j, link) == s.(wire := DisableAll(s, mask, j, link).wire)
    decreases JOINTS - j
  {
    if j < JOINTS { DisableAllKeeps(if j in mask then Transmit(s, Disable(j), link).0 else s, mask, j + 1, link); }
  }

  lemma {:induction false} DisableUntilKeeps(s: Controller, mask: set<nat>, j: nat, link: Link)
    requires j <= JOINTS
    ensures DisableUntil(s, mask, j, link).0 == s.(wire := DisableUntil(s, mask, j, link).0.wire)
    decreases JOINTS - j
  {
    if j < JOINTS { DisableUntilKeeps(if j in mask then Transmit(s, Disable(j), link).0 else s, mask, j + 1, link); }
  }

  lemma ShutdownKeeps(s: Controller, reason: Safety, canTransmit: bool, link: Link)
    ensures var t := Shutdown(s, reason, canTransmit, link);
            SameKnowledge(s, t) && t.progress == s.progress && t.stage == Fault && t.safety == reason
  {
    hide DisableAll;
    var t := s.(safety := reason, stage := Fault, masks := s.masks.(enabled := {}, pending := {}));
    DisableAllKeeps(t, s.masks.enabled + s.masks.pending, 0, link);
  }

  lemma StartupKeepsShape(s: Controller, now: nat, link: Link)
    ensures SameKnowledge(s, ServiceStartup(s, now, link))
  {
    hide Shutdown, Skipped, DisableUntil;
    var a := if s.stage == BootDelay then s.(stage := ModeSetup) else s;
    if s.safety == NoSafety && a.stage == ModeSetup {
      ModesKeepShape(a, now, link);
    } else if s.safety == NoSafety && a.stage == RangeDiscovery {
      RangesKeepShape(a, now, link);
    }
    hide ServiceModes, ServiceRanges;
  }

  lemma DueKeeps(s: Controller, now: nat, link: Link)
    ensures var (t, due) := Due(s, now, link);
            && SameKnowledge(s, t) && t.progress.modeIndex == s.progress.modeIndex && t.progress.rangeIndex == s.progress.rangeIndex
            && (due ==> t.stage == s.stage && !t.progress.waiting) && (t.stage == s.stage || t.stage == Fault)
  {
    hide Shutdown;
    ShutdownKeeps(s.(progress := s.progress.(waiting := false, retries := s.progress.retries + 1)), StartupTimeout, true, link);
  }

  lemma RequestKeeps(s: Controller, c: Command, now: nat, link: Link)
    ensures var t := SendRequest(s, c, now, link);
            && SameKnowledge(s, t) && t.progress.modeIndex == s.progress.modeIndex && t.progress.rangeIndex == s.progress.rangeIndex
            && (t.stage == s.stage || t.stage == Fault)
  {
    hide Shutdown;
    ShutdownKeeps(Transmit(s, c, link).0, CanTransmit, true, link);
  }

  lemma ModesKeepShape(s: Controller, now: nat, link: Link)
    ensures SameKnowledge(s, ServiceModes(s, now, link))
  {
    hide Shutdown, Due, SendRequest, Skipped;
    var t := s.(progress := s.progress.(modeIndex := Skipped(s.setup.active, s.progress.modeIndex, 2, MODE_ITEMS)));
    ShutdownKeeps(t, ModeMismatch, true, link);
    DueKeeps(t, now, link);
    RequestKeeps(Due(t, now, link).0, ModeRequest(Due(t, now, link).0.progress.modeIndex), now, link);
  }

  lemma RangesKeepShape(s: Controller, now: nat, link: Link)
    ensures SameKnowledge(s, ServiceRanges(s, now, link))
  {
    hide Shutdown, Due, SendRequest, Skipped, DisableUntil;
    var t := s.(progress := s.progress.(rangeIndex := Skipped(s.setup.active, s.progress.rangeIndex, 3, RANGE_ITEMS)));
    ShutdownKeeps(t, StartupTimeout, true, link);
    DueKeeps(t, now, link);
    RequestKeeps(Due(t, now, link).0, RangeRequest(Due(t, now, link).0.progress.rangeIndex), now, link);
    DisableUntilKeeps(t, t.setup.active - t.masks.feedbackReady, 0, link);
    ShutdownKeeps(DisableUntil(t, t.setup.active - t.masks.feedbackReady, 0, link).0, CanTransmit, true, link);
  }

  lemma ReadyKeepsShape(s: Controller, now: nat, link: Link)
    ensures SameKnowledge(s, ServiceReady(s, now, link)) && ServiceReady(s, now, link).progress == s.progress
    ensures s.Sized() ==> ServiceReady(s, now, link).Sized()
  {
    hide Shutdown, DisableUntil;
    DisableUntilKeeps(s, s.setup.active, 0, link);
    ShutdownKeeps(DisableUntil(s, s.setup.active, 0, link).0, CanTransmit, true, link);
  }

  // ----- Received frames -----

  /** A motor answers a read request and acknowledges a write request; the controller does not tell
      the two apart. */
  datatype ReplyKind = Answer | Echo

  /** A frame from a master identifier: a register reply, or a status report as it decodes. */
  datatype Frame =
    | Reply(kind: ReplyKind, master: nat, motor: nat, register: nat, raw: nat, value: Float)
    | Report(master: nat, motor: nat, decodes: bool, converts: bool, state: nat)

  const MODE_REGISTER: nat := 0x0A
  const RANGE_REGISTER: nat := 0x15

  /** The first active joint with a master identifier. */
  function JointOf(setup: Setup, master: nat, j: nat): (k: Option<nat>)
    requires setup.Valid() && j <= JOINTS
    ensures k.Some? ==> k.value < JOINTS && k.value in setup.active && setup.masters[k.value] == master
    decreases JOINTS - j
  {
    if j == JOINTS then None
    else if j in setup.active && setup.masters[j] == master then Some(j)
    else JointOf(setup, master, j + 1)
  }

  function OnModeReply(s: Controller, j: nat, raw: nat, link: Link): Controller
    requires j < JOINTS
  {
    var p := s.progress;
    if s.stage != ModeSetup || !p.waiting || p.modeIndex / 2 != j then s
    else if raw != CONTROL_MODE then Shutdown(s, ModeMismatch, true, link)
    else s.(masks := if p.modeIndex % 2 == 1 then s.masks.(modeReady := s.masks.modeReady + {j}) else s.masks,
            progress := p.(modeIndex := p.modeIndex + 1, waiting := false, retries := 0))
  }

  function OnRangeReply(s: Controller, j: nat, register: nat, value: Float): Controller
    requires s.Sized() && j < JOINTS
  {
    var p := s.progress;
    if s.stage != RangeDiscovery || !p.waiting || p.rangeIndex / 3 != j || register != RANGE_REGISTER + p.rangeIndex % 3
       || value.NotFinite? || value.v <= 0.0
    then s
    else
      var k := p.rangeIndex % 3;
      var r := Ranges(s.ranges[j].values[k := value.v], s.ranges[j].known + {k});
      s.(ranges := s.ranges[j := r],
         masks := if r.known == {0, 1, 2} then s.masks.(rangesReady := s.masks.rangesReady + {j}) else s.masks,
         progress := p.(rangeIndex := p.rangeIndex + 1, waiting := false, retries := 0))
  }

  function OnReport(s: Controller, j: nat, f: Frame, now: nat, link: Link): Controller
    requires s.Sized() && j < JOINTS && f.Report?
  {
    if f.motor != s.setup.motors[j] || j !in s.masks.rangesReady || !f.decodes then s
    else if !f.converts then Shutdown(s, InvalidCommand, true, link)
    else
      var m := s.masks.(feedbackReady := s.masks.feedbackReady + {j});
      var t := s.(feedbackMs := s.feedbackMs[j := now], masks := m);
      if f.state >= 8 then
        t.(safety := MotorFault, stage := Fault, masks := m.(faulty := m.faulty + {j}, owed := m.owed + m.enabled, enabled := {}))
      else
        var on := if f.state == 1 then m.enabled + {j} else m.enabled - {j};
        if t.stage == Enabling && m.pending != {} && m.pending <= on
        then t.(stage := Holding, masks := m.(enabled := on, pending := {}))
        else t.(masks := m.(enabled := on))
  }

  predicate IsRegister(register: nat) {
    register == MODE_REGISTER || RANGE_REGISTER <= register <= RANGE_REGISTER + 2
  }

  function OnFrame(s: Controller, f: Frame, now: nat, link: Link): Controller
    requires s.Sized()
  {
    var j := JointOf(s.setup, f.master, 0);
    if j.None? then s
    else match f
      case Reply(_, _, motor, register, raw, value) =>
        if !IsRegister(register) || motor != s.setup.motors[j.value] then s
        else if register == MODE_REGISTER then OnModeReply(s, j.value, raw, link)
        else OnRangeReply(s, j.value, register, value)
      case Report(_, _, _, _, _) => OnReport(s, j.value, f, now, link)
  }

  // ----- Commands -----

  datatype Verdict = Accepted | SafetyLatched | NotReady | InvalidSelection | CanError | Refused

  predicate Confirmed(s: Controller, mask: set<nat>) {
    mask <= s.masks.modeReady && mask <= s.masks.rangesReady && mask <= s.masks.feedbackReady
  }

  /** ENABLE to every active joint in order; the first rejection shuts down. */
  function EnableFrom(s: Controller, j: nat, now: nat, link: Link): (Controller, bool)
    requires s.Sized() && j <= JOINTS
    decreases JOINTS - j
  {
    if j == JOINTS then (s, true)
    else if j !in s.setup.active then EnableFrom(s, j + 1, now, link)
    else
      var (t, ok) := Transmit(s, Enable(j), link);
      if !ok then (Shutdown(t, CanTransmit, true, link), false)
      else EnableFrom(t.(masks := t.masks.(pending := t.masks.pending + {j}), feedbackMs := t.feedbackMs[j := now]), j + 1, now, link)
  }

  function StartAll(s: Controller, now: nat, link: Link): (Controller, Verdict)
    requires s.Sized()
  {
    if s.masks.faulty != {} then (s, SafetyLatched)
    else if !Confirmed(s, s.setup.active) then (s, NotReady)
    else
      var (t, ok) := EnableFrom(s.(masks := s.masks.(enabled := {}, pending := {})), 0, now, link);
      if ok then (t.(stage := Enabling), Accepted) else (t, CanError)
  }

  /** While any joint is uncommissioned only the selected joint may be started. */
  function StartSelected(s: Controller, now: nat, link: Link): (Controller, Verdict)
    requires s.Sized()
  {
    if s.selected < 1 || s.selected > JOINTS || s.selected - 1 !in s.setup.active then (s, InvalidSelection)
    else
      var j := s.selected - 1;
      if j in s.masks.faulty then (s, SafetyLatched)
      else if !Confirmed(s, {j}) then (s, NotReady)
      else
        var (t, ok) := Transmit(s, Enable(j), link);
        if ok then (t.(stage := Enabling, masks := t.masks.(enabled := {}, pending := {j}), feedbackMs := t.feedbackMs[j := now]), Accepted)
        else (t.(safety := CanTransmit), CanError)
  }

  /** What validating and planning a move came to. */
  datatype Plan = Begins | AlreadyThere | OutsideLimits | Unplannable

  datatype Request = Select(joint: nat) | Start | Stop | DisableRequest | Move(plan: Plan)

  function Submitted(s: Controller, q: Request, now: nat, link: Link): (Controller, Verdict)
    requires s.Sized()
  {
    if s.safety != NoSafety && !q.DisableRequest? then (s, SafetyLatched)
    else match q
      case Select(j) =>
        if j < 1 || j > JOINTS || j - 1 !in s.setup.active then (s, InvalidSelection)
        else if s.masks.enabled != {} then (s, Refused)
        else (s.(selected := j), Accepted)
      case Start => if s.setup.locked then StartSelected(s, now, link) else StartAll(s, now, link)
      case Stop => (s.(stage := if s.masks.enabled != {} then Holding else Ready), Accepted)
      case DisableRequest =>
        var t := Shutdown(s, s.safety, s.safety != BusOff && s.safety != CanTransmit, link);
        (t.(stage := if s.safety == NoSafety then Ready else Fault), Accepted)
      case Move(plan) =>
        if s.masks.enabled == {} then (s, Refused)
        else match plan
          case OutsideLimits => (Shutdown(s, InvalidCommand, true, link), Refused)
          case Unplannable => (s, Refused)
          case Begins => (s.(stage := Moving), Accepted)
          case AlreadyThere => (s.(stage := Holding), Accepted)
  }
}
